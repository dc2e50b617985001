/**
 * The hypoglycemia detection metric (glupredkit/metrics/hypoglycemia_detection.py):
 * the percentage of truly hypoglycemic samples (below 70) whose prediction is
 * also hypoglycemic.
 */
module Hypoglycemia {
  import opened Common

  const HypoThreshold: real := 70.0

  datatype MetricError = IndexOutOfRange

  /** `[i for i, val in enumerate(y_true) if val < 70]`, over positions `from..`, ascending. */
  function FilteredIndices(yTrue: seq<real>, from: nat): (r: seq<nat>)
    ensures forall k :: k in r <==> from <= k < |yTrue| && yTrue[k] < HypoThreshold
    ensures forall m, n :: 0 <= m < n < |r| ==> r[m] < r[n]
    ensures forall m :: 0 <= m < |r| ==> from <= r[m] < |yTrue| && yTrue[r[m]] < HypoThreshold
    decreases |yTrue| - from
  {
    if from >= |yTrue| then []
    else (if yTrue[from] < HypoThreshold then [from] else []) + FilteredIndices(yTrue, from + 1)
  }

  /** `[xs[i] for i in ks]` */
  function Pick(xs: seq<real>, ks: seq<nat>): (r: seq<real>)
    requires forall m :: 0 <= m < |ks| ==> ks[m] < |xs|
    ensures |r| == |ks| && forall m :: 0 <= m < |r| ==> r[m] == xs[ks[m]]
  {
    seq(|ks|, m requires 0 <= m < |ks| => xs[ks[m]])
  }

  /** `sum(1 for t, p in zip(ts, ps) if t < 70 and p < 70)` */
  function ZipCount(ts: seq<real>, ps: seq<real>): nat {
    if |ts| == 0 || |ps| == 0 then 0
    else (if ts[0] < HypoThreshold && ps[0] < HypoThreshold then 1 else 0) + ZipCount(ts[1..], ps[1..])
  }

  /** Every filtered position has a prediction; otherwise `y_pred[i]` raises. */
  predicate Covered(idx: seq<nat>, n: nat) {
    forall m :: 0 <= m < |idx| ==> idx[m] < n
  }

  /** `__call__`: the comprehension-based computation, raising when a filtered index is past the predictions. */
  function HypoglycemiaDetection(yTrue: seq<real>, yPred: seq<real>): (r: Result<real, MetricError>)
    ensures r.Err? <==> !Covered(FilteredIndices(yTrue, 0), |yPred|)
  {
    var idx := FilteredIndices(yTrue, 0);
    if !Covered(idx, |yPred|) then Err(IndexOutOfRange)
    else
      var filteredTrue := Pick(yTrue, idx);
      var filteredPred := Pick(yPred, idx);
      var total := ZipCount(filteredTrue, filteredPred);
      var n := |filteredTrue|;
      if n > 0 then Ok((total as real / n as real) * 100.0) else Ok(0.0)
  }

  /** The index error happens exactly when some hypoglycemic true value has no prediction at its position. */
  lemma IndexErrorIffMissingPrediction(yTrue: seq<real>, yPred: seq<real>)
    ensures HypoglycemiaDetection(yTrue, yPred).Err? <==> exists k :: |yPred| <= k < |yTrue| && yTrue[k] < HypoThreshold
  {
    var idx := FilteredIndices(yTrue, 0);
    if !Covered(idx, |yPred|) {
      var m :| 0 <= m < |idx| && idx[m] >= |yPred|;
      assert idx[m] in idx;
    } else {
      assert forall k :: |yPred| <= k < |yTrue| && yTrue[k] < HypoThreshold ==> k in idx;
    }
  }

  // The same quantities counted position by position.

  /** How many true values from `from` on are hypoglycemic. */
  function HypoCount(yTrue: seq<real>, from: nat): nat
    decreases |yTrue| - from
  {
    if from >= |yTrue| then 0
    else (if yTrue[from] < HypoThreshold then 1 else 0) + HypoCount(yTrue, from + 1)
  }

  /** How many positions from `from` on are hypoglycemic in both the true value and the prediction. */
  function BothHypoCount(yTrue: seq<real>, yPred: seq<real>, from: nat): nat
    requires forall k :: from <= k < |yTrue| && yTrue[k] < HypoThreshold ==> k < |yPred|
    decreases |yTrue| - from
  {
    if from >= |yTrue| then 0
    else (if yTrue[from] < HypoThreshold && yPred[from] < HypoThreshold then 1 else 0) + BothHypoCount(yTrue, yPred, from + 1)
  }

  lemma {:induction false} ZipCountAppend(t1: seq<real>, p1: seq<real>, t2: seq<real>, p2: seq<real>)
    requires |t1| == |p1|
    ensures ZipCount(t1 + t2, p1 + p2) == ZipCount(t1, p1) + ZipCount(t2, p2)
  {
    if |t1| > 0 {
      assert (t1 + t2)[1..] == t1[1..] + t2;
      assert (p1 + p2)[1..] == p1[1..] + p2;
      ZipCountAppend(t1[1..], p1[1..], t2, p2);
    } else {
      assert t1 + t2 == t2 && p1 + p2 == p2;
    }
  }

  lemma PickCons(xs: seq<real>, k: nat, rest: seq<nat>)
    requires k < |xs| && forall m :: 0 <= m < |rest| ==> rest[m] < |xs|
    ensures Pick(xs, [k] + rest) == [xs[k]] + Pick(xs, rest)
  {
  }

  /** The filtered list holds one entry per hypoglycemic true value. */
  lemma {:induction false} FilteredLength(yTrue: seq<real>, from: nat)
    ensures |FilteredIndices(yTrue, from)| == HypoCount(yTrue, from)
    decreases |yTrue| - from
  {
    if from < |yTrue| {
      FilteredLength(yTrue, from + 1);
    }
  }

  /** The comprehension pipeline counts exactly the positions the direct count counts. */
  lemma {:induction false} FilteredBothCount(yTrue: seq<real>, yPred: seq<real>, from: nat)
    requires forall k :: from <= k < |yTrue| && yTrue[k] < HypoThreshold ==> k < |yPred|
    ensures ZipCount(Pick(yTrue, FilteredIndices(yTrue, from)), Pick(yPred, FilteredIndices(yTrue, from)))
         == BothHypoCount(yTrue, yPred, from)
    decreases |yTrue| - from
  {
    if from < |yTrue| {
      FilteredBothCount(yTrue, yPred, from + 1);
      var rest := FilteredIndices(yTrue, from + 1);
      if yTrue[from] < HypoThreshold {
        assert FilteredIndices(yTrue, from) == [from] + rest;
        PickCons(yTrue, from, rest);
        PickCons(yPred, from, rest);
        ZipCountAppend([yTrue[from]], [yPred[from]], Pick(yTrue, rest), Pick(yPred, rest));
      } else {
        assert FilteredIndices(yTrue, from) == rest;
      }
    }
  }

  /**
   * The result is 100 · #(true < 70 ∧ pred < 70) / #(true < 70), or 0 when no
   * true value is below 70; it always lies in [0, 100].
   */
  lemma HypoglycemiaFormula(yTrue: seq<real>, yPred: seq<real>)
    requires HypoglycemiaDetection(yTrue, yPred).Ok?
    ensures var r := HypoglycemiaDetection(yTrue, yPred).value;
      && (HypoCount(yTrue, 0) == 0 ==> r == 0.0)
      && (HypoCount(yTrue, 0) > 0 ==>
            BothHypoCount(yTrue, yPred, 0) <= HypoCount(yTrue, 0)
            && r == (BothHypoCount(yTrue, yPred, 0) as real / HypoCount(yTrue, 0) as real) * 100.0)
      && 0.0 <= r <= 100.0
  {
    FilteredLength(yTrue, 0);
    FilteredBothCount(yTrue, yPred, 0);
    BothAtMostHypo(yTrue, yPred, 0);
    var both, all := BothHypoCount(yTrue, yPred, 0) as real, HypoCount(yTrue, 0) as real;
    if all > 0.0 {
      PercentageInRange(both, all);
    }
  }

  lemma {:induction false} BothAtMostHypo(yTrue: seq<real>, yPred: seq<real>, from: nat)
    requires forall k :: from <= k < |yTrue| && yTrue[k] < HypoThreshold ==> k < |yPred|
    ensures BothHypoCount(yTrue, yPred, from) <= HypoCount(yTrue, from)
    decreases |yTrue| - from
  {
    if from < |yTrue| {
      BothAtMostHypo(yTrue, yPred, from + 1);
    }
  }

  lemma PercentageInRange(part: real, whole: real)
    requires 0.0 <= part <= whole && whole > 0.0
    ensures 0.0 <= (part / whole) * 100.0 <= 100.0
  {
    assert part / whole <= 1.0;
  }

  /** Predictions at positions whose true value is not hypoglycemic do not affect the result. */
  lemma NonHypoPredictionsIgnored(yTrue: seq<real>, p1: seq<real>, p2: seq<real>)
    requires |p1| == |p2|
    requires forall k :: 0 <= k < |yTrue| && k < |p1| && yTrue[k] < HypoThreshold ==> p1[k] == p2[k]
    ensures HypoglycemiaDetection(yTrue, p1) == HypoglycemiaDetection(yTrue, p2)
  {
    var idx := FilteredIndices(yTrue, 0);
    if Covered(idx, |p1|) {
      forall m | 0 <= m < |idx| ensures p1[idx[m]] == p2[idx[m]] {
        assert idx[m] in idx;
      }
      assert Pick(p1, idx) == Pick(p2, idx);
    }
  }
}
