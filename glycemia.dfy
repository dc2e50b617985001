/**
 * The glycemia detection metric (glupredkit/metrics/glycemia_detection.py):
 * a 3×3 matrix whose entry [i][j] is the share of samples truly in zone j
 * (hypo, normal, hyper) that were predicted in zone i.
 */
module Glycemia {
  import opened Common

  const HypoThreshold: real := 70.0
  const HyperThreshold: real := 180.0
  const ZoneCount: nat := 3

  /** `condition(x, c)`: zone 0 below 70, zone 1 from 70 to 180 inclusive, any other `c` above 180. */
  predicate Condition(x: real, c: nat) {
    if c == 0 then x < HypoThreshold
    else if c == 1 then HypoThreshold <= x <= HyperThreshold
    else x > HyperThreshold
  }

  /** The zone a value falls in. */
  function Zone(x: real): (z: nat)
    ensures z < ZoneCount
  {
    if x < HypoThreshold then 0 else if x <= HyperThreshold then 1 else 2
  }

  /** Every value falls in exactly one of the three zones. */
  lemma ExactlyOneZone(x: real, c: nat)
    requires c < ZoneCount
    ensures Condition(x, c) <==> c == Zone(x)
  {
  }

  /** `np.where(condition(y_true, j))`: the positions of `ys[from..]` in zone `j`, ascending. */
  function RelevantFrom(ys: seq<real>, j: nat, from: nat): (r: seq<nat>)
    ensures forall k :: k in r <==> from <= k < |ys| && Condition(ys[k], j)
    decreases |ys| - from
  {
    if from >= |ys| then []
    else (if Condition(ys[from], j) then [from] else []) + RelevantFrom(ys, j, from + 1)
  }

  /** Strictly increasing, hence without repetition. */
  predicate Ascending(ks: seq<nat>) {
    forall m, n :: 0 <= m < n < |ks| ==> ks[m] < ks[n]
  }

  /** `np.where` lists each position once, in increasing order, so `|Relevant(ys, j)|` is the number of values in zone `j`. */
  lemma {:induction false} RelevantAscending(ys: seq<real>, j: nat, from: nat)
    ensures Ascending(RelevantFrom(ys, j, from))
    ensures forall m :: 0 <= m < |RelevantFrom(ys, j, from)| ==> from <= RelevantFrom(ys, j, from)[m]
    decreases |ys| - from
  {
    if from < |ys| {
      RelevantAscending(ys, j, from + 1);
      var h: seq<nat> := if Condition(ys[from], j) then [from] else [];
      var t := RelevantFrom(ys, j, from + 1);
      assert RelevantFrom(ys, j, from) == h + t;
    }
  }

  function Relevant(ys: seq<real>, j: nat): seq<nat> {
    RelevantFrom(ys, j, 0)
  }

  /** `np.sum(condition(y_true, j))` */
  function TrueCount(yTrue: seq<real>, j: nat): nat {
    |Relevant(yTrue, j)|
  }

  /** Every position can index `yPred`; `y_pred[relevant_indices]` raises otherwise. */
  predicate AllBelow(ks: seq<nat>, n: nat) {
    forall m :: 0 <= m < |ks| ==> ks[m] < n
  }

  /** How many of the positions `ks` hold a prediction in zone `i`. */
  function CountIn(ks: seq<nat>, yPred: seq<real>, i: nat): (r: nat)
    requires AllBelow(ks, |yPred|)
    ensures r <= |ks|
  {
    if |ks| == 0 then 0
    else (if Condition(yPred[ks[0]], i) then 1 else 0) + CountIn(ks[1..], yPred, i)
  }

  /** `np.sum(condition(relevant_predictions, i))` */
  function PredCount(yTrue: seq<real>, yPred: seq<real>, i: nat, j: nat): nat
    requires AllBelow(Relevant(yTrue, j), |yPred|)
  {
    CountIn(Relevant(yTrue, j), yPred, i)
  }

  /** Entry [i][j]: `pred_count / true_count`, undefined (NaN) when zone `j` has no true values. */
  function Fraction(yTrue: seq<real>, yPred: seq<real>, i: nat, j: nat): (r: Option<real>)
    requires AllBelow(Relevant(yTrue, j), |yPred|)
    ensures r.Some? <==> TrueCount(yTrue, j) > 0
  {
    var t := TrueCount(yTrue, j);
    if t == 0 then None else Some((PredCount(yTrue, yPred, i, j) as real) / (t as real))
  }

  /** A defined entry is a share: within [0, 1], and times the true count it gives the predicted count. */
  lemma FractionIsShare(yTrue: seq<real>, yPred: seq<real>, i: nat, j: nat)
    requires AllBelow(Relevant(yTrue, j), |yPred|) && TrueCount(yTrue, j) > 0
    ensures 0.0 <= Fraction(yTrue, yPred, i, j).value <= 1.0
    ensures Fraction(yTrue, yPred, i, j).value * (TrueCount(yTrue, j) as real) == PredCount(yTrue, yPred, i, j) as real
  {
    var p, t := PredCount(yTrue, yPred, i, j), TrueCount(yTrue, j);
    assert p <= t;
    ShareBounds(p as real, t as real);
  }

  lemma ShareBounds(p: real, t: real)
    requires 0.0 <= p <= t && t > 0.0
    ensures 0.0 <= p / t <= 1.0 && (p / t) * t == p
  {
  }

  datatype MetricError = IndexOutOfRange

  /** Each prediction lies in exactly one zone, so the three zone counts add up to the number of positions. */
  lemma {:induction false} CountsPartition(ks: seq<nat>, yPred: seq<real>)
    requires AllBelow(ks, |yPred|)
    ensures CountIn(ks, yPred, 0) + CountIn(ks, yPred, 1) + CountIn(ks, yPred, 2) == |ks|
  {
    if |ks| > 0 {
      CountsPartition(ks[1..], yPred);
    }
  }

  /** For every true zone with samples, its column of the matrix sums to 1. */
  lemma ColumnSumsToOne(yTrue: seq<real>, yPred: seq<real>, j: nat)
    requires AllBelow(Relevant(yTrue, j), |yPred|) && TrueCount(yTrue, j) > 0
    ensures Fraction(yTrue, yPred, 0, j).value + Fraction(yTrue, yPred, 1, j).value + Fraction(yTrue, yPred, 2, j).value == 1.0
  {
    var t := TrueCount(yTrue, j) as real;
    CountsPartition(Relevant(yTrue, j), yPred);
    var a, b, c := PredCount(yTrue, yPred, 0, j) as real, PredCount(yTrue, yPred, 1, j) as real, PredCount(yTrue, yPred, 2, j) as real;
    SharesSumToOne(a, b, c, t);
  }

  lemma SharesSumToOne(a: real, b: real, c: real, t: real)
    requires t > 0.0 && a + b + c == t
    ensures a / t + b / t + c / t == 1.0
  {
  }

  /** When a prediction's zone is the zone of the position's true value, it is counted exactly in that zone. */
  lemma {:induction false} AgreeingCounts(ks: seq<nat>, yTrue: seq<real>, yPred: seq<real>, i: nat, j: nat)
    requires AllBelow(ks, |yPred|) && AllBelow(ks, |yTrue|) && i < ZoneCount && j < ZoneCount
    requires forall m :: 0 <= m < |ks| ==> Condition(yTrue[ks[m]], j)
    requires forall k :: 0 <= k < |yTrue| && k < |yPred| ==> Zone(yPred[k]) == Zone(yTrue[k])
    ensures CountIn(ks, yPred, i) == if i == j then |ks| else 0
  {
    if |ks| > 0 {
      ExactlyOneZone(yTrue[ks[0]], j);
      ExactlyOneZone(yPred[ks[0]], i);
      AgreeingCounts(ks[1..], yTrue, yPred, i, j);
    }
  }

  /** Predictions always in the true zone give the identity on every column that has samples. */
  lemma IdentityWhenZonesAgree(yTrue: seq<real>, yPred: seq<real>, i: nat, j: nat)
    requires AllBelow(Relevant(yTrue, j), |yPred|) && i < ZoneCount && j < ZoneCount
    requires forall k :: 0 <= k < |yTrue| && k < |yPred| ==> Zone(yPred[k]) == Zone(yTrue[k])
    requires TrueCount(yTrue, j) > 0
    ensures Fraction(yTrue, yPred, i, j) == Some(if i == j then 1.0 else 0.0)
  {
    var ks := Relevant(yTrue, j);
    forall m | 0 <= m < |ks| ensures ks[m] < |yTrue| && Condition(yTrue[ks[m]], j) {
      assert ks[m] in ks;
    }
    AgreeingCounts(ks, yTrue, yPred, i, j);
    WholeOrNoShare(TrueCount(yTrue, j) as real);
  }

  lemma WholeOrNoShare(t: real)
    requires t > 0.0
    ensures t / t == 1.0 && 0.0 / t == 0.0
  {
  }

  /** If every zone's positions can index `yPred`, then `yPred` is at least as long as `yTrue`. */
  lemma CoveredWhenAllZonesBelow(yTrue: seq<real>, n: nat)
    requires AllZonesBelow(yTrue, n)
    ensures |yTrue| <= n
  {
    if |yTrue| > 0 {
      var k := |yTrue| - 1;
      var j := Zone(yTrue[k]);
      ExactlyOneZone(yTrue[k], j);
      var ks := Relevant(yTrue, j);
      assert k in ks;
      var m :| 0 <= m < |ks| && ks[m] == k;
      assert AllBelow(ks, n);
    }
  }

  /** With no more true values than predictions, every zone's positions can index `yPred`. */
  lemma RelevantBelow(yTrue: seq<real>, j: nat, n: nat)
    ensures |yTrue| <= n ==> AllBelow(Relevant(yTrue, j), n)
  {
    var ks := Relevant(yTrue, j);
    forall m | 0 <= m < |ks| ensures ks[m] < |yTrue| {
      assert ks[m] in ks;
    }
  }

  /** Every zone's positions can index the predictions. */
  predicate AllZonesBelow(yTrue: seq<real>, n: nat) {
    forall j :: 0 <= j < ZoneCount ==> AllBelow(Relevant(yTrue, j), n)
  }

  /** The fractions of predicted zone `i` over the three true zones. */
  function RowFractions(yTrue: seq<real>, yPred: seq<real>, i: nat): (r: seq<Option<real>>)
    requires AllZonesBelow(yTrue, |yPred|)
    ensures |r| == ZoneCount && forall j :: 0 <= j < ZoneCount ==> r[j] == Fraction(yTrue, yPred, i, j)
  {
    [Fraction(yTrue, yPred, i, 0), Fraction(yTrue, yPred, i, 1), Fraction(yTrue, yPred, i, 2)]
  }

  /** The rows of predicted zones `0..i`, appended one after the other. */
  function FlatFractions(yTrue: seq<real>, yPred: seq<real>, i: nat): seq<Option<real>>
    requires AllZonesBelow(yTrue, |yPred|)
  {
    if i == 0 then [] else FlatFractions(yTrue, yPred, i - 1) + RowFractions(yTrue, yPred, i - 1)
  }

  /**
   * The inner loop of `__call__` for predicted zone `i`: the fractions of the
   * three true zones, or the index error of the first true zone whose positions
   * run past the predictions.
   */
  method ZoneRow(yTrue: seq<real>, yPred: seq<real>, i: nat) returns (r: Result<seq<Option<real>>, MetricError>)
    ensures r.Err? <==> !AllZonesBelow(yTrue, |yPred|)
    ensures r.Ok? ==> AllZonesBelow(yTrue, |yPred|) && r.value == RowFractions(yTrue, yPred, i)
  {
    var row: seq<Option<real>> := [];
    for j := 0 to ZoneCount
      invariant |row| == j
      invariant forall j' :: 0 <= j' < j ==>
        AllBelow(Relevant(yTrue, j'), |yPred|) && row[j'] == Fraction(yTrue, yPred, i, j')
    {
      if !AllBelow(Relevant(yTrue, j), |yPred|) {
        return Err(IndexOutOfRange);
      }
      row := row + [Fraction(yTrue, yPred, i, j)];
    }
    return Ok(row);
  }

  /**
   * `__call__`: the nine fractions, row i (predicted zone) by column j (true
   * zone), appended in that order and reshaped to 3×3. Indexing the
   * predictions fails exactly when there are fewer predictions than true
   * values.
   */
  method GlycemiaDetection(yTrue: seq<real>, yPred: seq<real>) returns (r: Result<seq<seq<Option<real>>>, MetricError>)
    ensures r.Err? <==> |yTrue| > |yPred|
    ensures r.Ok? ==> |r.value| == ZoneCount && forall i :: 0 <= i < ZoneCount ==> |r.value[i]| == ZoneCount
    ensures r.Ok? ==> forall i, j :: 0 <= i < ZoneCount && 0 <= j < ZoneCount ==>
      AllBelow(Relevant(yTrue, j), |yPred|) && r.value[i][j] == Fraction(yTrue, yPred, i, j)
  {
    var percentages: seq<Option<real>> := [];
    AllZonesBelowIff(yTrue, |yPred|);
    for i := 0 to ZoneCount
      invariant i > 0 ==> AllZonesBelow(yTrue, |yPred|) && percentages == FlatFractions(yTrue, yPred, i)
      invariant i == 0 ==> percentages == []
    {
      var row := ZoneRow(yTrue, yPred, i);
      if row.Err? {
        return Err(IndexOutOfRange);
      }
      percentages := percentages + row.value;
    }
    FlatFractionsRows(yTrue, yPred);
    r := Ok([percentages[0..3], percentages[3..6], percentages[6..9]]);
  }

  /** Every zone's positions index the predictions exactly when there are no more true values than predictions. */
  lemma AllZonesBelowIff(yTrue: seq<real>, n: nat)
    ensures AllZonesBelow(yTrue, n) <==> |yTrue| <= n
  {
    if AllZonesBelow(yTrue, n) {
      CoveredWhenAllZonesBelow(yTrue, n);
    } else {
      var j :| 0 <= j < ZoneCount && !AllBelow(Relevant(yTrue, j), n);
      RelevantBelow(yTrue, j, n);
    }
  }

  /** The nine appended fractions split into the three rows. */
  lemma FlatFractionsRows(yTrue: seq<real>, yPred: seq<real>)
    requires AllZonesBelow(yTrue, |yPred|)
    ensures var p := FlatFractions(yTrue, yPred, 3);
      && |p| == 9
      && p[0..3] == RowFractions(yTrue, yPred, 0)
      && p[3..6] == RowFractions(yTrue, yPred, 1)
      && p[6..9] == RowFractions(yTrue, yPred, 2)
  {
    var r0, r1, r2 := RowFractions(yTrue, yPred, 0), RowFractions(yTrue, yPred, 1), RowFractions(yTrue, yPred, 2);
    assert FlatFractions(yTrue, yPred, 1) == r0;
    assert FlatFractions(yTrue, yPred, 2) == r0 + r1;
    assert FlatFractions(yTrue, yPred, 3) == r0 + r1 + r2;
    ThreeSlices(r0, r1, r2);
  }

  lemma ThreeSlices<T>(a: seq<T>, b: seq<T>, c: seq<T>)
    requires |a| == 3 && |b| == 3 && |c| == 3
    ensures |a + b + c| == 9 && (a + b + c)[0..3] == a && (a + b + c)[3..6] == b && (a + b + c)[6..9] == c
  {
    assert (a + b + c)[0..3] == a;
    assert (a + b + c)[3..6] == b;
  }
}
