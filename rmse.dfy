/**
 * Root-mean-square error (src/metrics/rmse.py):
 * `sqrt(mean(square(y_true - y_pred)))` with numpy's element-wise semantics.
 * The square root is a parameter, characterised by `IsSqrt`.
 */
module Rmse {
  import opened Common

  /** `y_true - y_pred` fails when the shapes do not broadcast. */
  datatype MetricError = ShapeMismatch

  /**
   * numpy broadcasting of two one-dimensional arrays: equal lengths pair up,
   * a length-one array is repeated to the other's length, anything else fails.
   */
  function Broadcast(a: seq<real>, b: seq<real>): (r: Option<(seq<real>, seq<real>)>)
    ensures r.Some? <==> |a| == |b| || |a| == 1 || |b| == 1
    ensures r.Some? ==> |r.value.0| == |r.value.1|
    ensures |a| == |b| ==> r == Some((a, b))
  {
    if |a| == |b| then Some((a, b))
    else if |a| == 1 then Some((seq(|b|, _ => a[0]), b))
    else if |b| == 1 then Some((a, seq(|a|, _ => b[0])))
    else None
  }

  /** `np.square(a - b)` */
  function SquaredDiffs(a: seq<real>, b: seq<real>): (r: seq<real>)
    requires |a| == |b|
    ensures |r| == |a|
  {
    if |a| == 0 then [] else [(a[0] - b[0]) * (a[0] - b[0])] + SquaredDiffs(a[1..], b[1..])
  }

  /** `np.mean` of the squared differences; the mean of nothing is NaN, here `None`. */
  function MeanSquaredError(yTrue: seq<real>, yPred: seq<real>): Result<Option<real>, MetricError> {
    match Broadcast(yTrue, yPred)
    case None => Err(ShapeMismatch)
    case Some((a, b)) =>
      if |a| == 0 then Ok(None) else Ok(Some(Sum(SquaredDiffs(a, b)) / (|a| as real)))
  }

  /** A square root on the non-negative reals (the root of zero, which the first clause fixes, is spelled out). */
  ghost predicate IsSqrt(sqrt: real -> real) {
    && (forall x :: x >= 0.0 ==> sqrt(x) >= 0.0 && sqrt(x) * sqrt(x) == x)
    && sqrt(0.0) == 0.0
  }

  /** `__call__`; `np.sqrt` of NaN is NaN. */
  function Rmse(yTrue: seq<real>, yPred: seq<real>, sqrt: real -> real): Result<Option<real>, MetricError> {
    match MeanSquaredError(yTrue, yPred)
    case Err(e) => Err(e)
    case Ok(None) => Ok(None)
    case Ok(Some(m)) => Ok(Some(sqrt(m)))
  }

  lemma {:induction false} SumOfSquaresNonNegative(a: seq<real>, b: seq<real>)
    requires |a| == |b|
    ensures Sum(SquaredDiffs(a, b)) >= 0.0
  {
    if |a| > 0 {
      SumOfSquaresNonNegative(a[1..], b[1..]);
      var d := a[0] - b[0];
      assert d * d >= 0.0;
    }
  }

  /**
   * The result is the non-negative square root of the mean squared
   * difference; it is undefined only for empty input and fails only when the
   * shapes do not broadcast.
   */
  lemma RmseIsRootOfMeanSquare(yTrue: seq<real>, yPred: seq<real>, sqrt: real -> real)
    requires IsSqrt(sqrt)
    ensures Rmse(yTrue, yPred, sqrt).Err? <==> !(|yTrue| == |yPred| || |yTrue| == 1 || |yPred| == 1)
    ensures MeanSquaredError(yTrue, yPred).Ok? && MeanSquaredError(yTrue, yPred).value.Some? ==>
      MeanSquaredError(yTrue, yPred).value.value >= 0.0
    ensures Rmse(yTrue, yPred, sqrt).Ok? && Rmse(yTrue, yPred, sqrt).value.Some? ==>
      var r := Rmse(yTrue, yPred, sqrt).value.value;
      r >= 0.0 && r * r == MeanSquaredError(yTrue, yPred).value.value
  {
    var p := Broadcast(yTrue, yPred);
    if p.Some? {
      SumOfSquaresNonNegative(p.value.0, p.value.1);
    }
  }

  lemma {:induction false} EqualInputsHaveNoError(a: seq<real>)
    ensures Sum(SquaredDiffs(a, a)) == 0.0
  {
    if |a| > 0 {
      EqualInputsHaveNoError(a[1..]);
    }
  }

  /** Equal non-empty inputs have error 0. */
  lemma RmseZeroOnEqual(ys: seq<real>, sqrt: real -> real)
    requires IsSqrt(sqrt) && |ys| > 0
    ensures Rmse(ys, ys, sqrt) == Ok(Some(0.0))
  {
    EqualInputsHaveNoError(ys);
    assert MeanSquaredError(ys, ys) == Ok(Some(0.0));
  }

  lemma {:induction false} SquaredDiffsSymmetric(a: seq<real>, b: seq<real>)
    requires |a| == |b|
    ensures SquaredDiffs(a, b) == SquaredDiffs(b, a)
  {
    if |a| > 0 {
      assert (a[0] - b[0]) * (a[0] - b[0]) == (b[0] - a[0]) * (b[0] - a[0]);
      SquaredDiffsSymmetric(a[1..], b[1..]);
    }
  }

  /** Swapping true and predicted values gives the same result. */
  lemma RmseSymmetric(yTrue: seq<real>, yPred: seq<real>, sqrt: real -> real)
    ensures Rmse(yTrue, yPred, sqrt) == Rmse(yPred, yTrue, sqrt)
  {
    var p, q := Broadcast(yTrue, yPred), Broadcast(yPred, yTrue);
    if p.Some? {
      assert q.Some? && q.value.0 == p.value.1 && q.value.1 == p.value.0;
      SquaredDiffsSymmetric(p.value.0, p.value.1);
    }
  }
}
