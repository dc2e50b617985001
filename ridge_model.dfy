/**
 * The sign-constrained multi-output linear model
 * (glupredkit/models/ridge_multioutput_constrained.py): one ridge problem per
 * output column, with coefficients of insulin-like features held at or below
 * zero and carbohydrate features at or above zero. The convex solver is a
 * parameter; the model records what it is asked and what it returns.
 */
module RidgeModel {
  import opened Common
  import opened PyStrings

  /** `beta[i] <= 0` or `beta[i] >= 0`. */
  datatype Constraint = AtMostZero(index: nat) | AtLeastZero(index: nat)

  /** `[i for i, name in enumerate(names[from..]) if name.startswith(prefix)]`, positions counted in `names`. */
  function IndicesWithPrefix(names: seq<string>, prefix: string, from: nat): (r: seq<nat>)
    ensures forall i :: i in r <==> from <= i < |names| && StartsWith(names[i], prefix)
    ensures forall k :: 0 <= k < |r| ==> r[k] < |names|
    decreases |names| - from
  {
    if from >= |names| then []
    else (if StartsWith(names[from], prefix) then [from] else []) + IndicesWithPrefix(names, prefix, from + 1)
  }

  /** `[beta[i] <= 0 for i in ix]` */
  function AtMost(ix: seq<nat>): (r: seq<Constraint>)
    ensures forall c :: c in r <==> c.AtMostZero? && c.index in ix
    ensures |r| == |ix| && forall k :: 0 <= k < |r| ==> r[k].index == ix[k]
  {
    if |ix| == 0 then [] else [AtMostZero(ix[0])] + AtMost(ix[1..])
  }

  /** `[beta[i] >= 0 for i in ix]` */
  function AtLeast(ix: seq<nat>): (r: seq<Constraint>)
    ensures forall c :: c in r <==> c.AtLeastZero? && c.index in ix
    ensures |r| == |ix| && forall k :: 0 <= k < |r| ==> r[k].index == ix[k]
  {
    if |ix| == 0 then [] else [AtLeastZero(ix[0])] + AtLeast(ix[1..])
  }

  /** Features whose coefficient may not raise the predicted glucose. */
  predicate LowersGlucose(name: string) {
    StartsWith(name, "insulin") || StartsWith(name, "iob") || StartsWith(name, "caloriesburned")
  }

  /** Features whose coefficient may not lower the predicted glucose. */
  predicate RaisesGlucose(name: string) {
    StartsWith(name, "carbs")
  }

  /**
   * The constraint list of `fit`: upper bounds for `insulin`, `iob` and
   * `caloriesburned` features, in that order, then lower bounds for `carbs`.
   * A feature gets a bound exactly when its name has the matching prefix, and
   * every bound names a feature.
   */
  function Constraints(names: seq<string>): (r: seq<Constraint>)
    ensures forall i :: 0 <= i < |names| ==> (AtMostZero(i) in r <==> LowersGlucose(names[i]))
    ensures forall i :: 0 <= i < |names| ==> (AtLeastZero(i) in r <==> RaisesGlucose(names[i]))
    ensures NamesFeatures(r, |names|)
  {
    var insulin := IndicesWithPrefix(names, "insulin", 0);
    var iob := IndicesWithPrefix(names, "iob", 0);
    var burned := IndicesWithPrefix(names, "caloriesburned", 0);
    var carbs := IndicesWithPrefix(names, "carbs", 0);
    NamesFeaturesConcat(AtMost(insulin), AtMost(iob), |names|);
    NamesFeaturesConcat(AtMost(insulin) + AtMost(iob), AtMost(burned), |names|);
    NamesFeaturesConcat(AtMost(insulin) + AtMost(iob) + AtMost(burned), AtLeast(carbs), |names|);
    AtMost(insulin) + AtMost(iob) + AtMost(burned) + AtLeast(carbs)
  }

  /** Every constraint bounds one of the first `n` coefficients. */
  predicate NamesFeatures(cs: seq<Constraint>, n: nat) {
    forall k :: 0 <= k < |cs| ==> cs[k].index < n
  }

  lemma NamesFeaturesConcat(a: seq<Constraint>, b: seq<Constraint>, n: nat)
    requires NamesFeatures(a, n) && NamesFeatures(b, n)
    ensures NamesFeatures(a + b, n)
  {
    forall k | 0 <= k < |a + b| ensures (a + b)[k].index < n {
      if k >= |a| { assert (a + b)[k] == b[k - |a|]; }
    }
  }

  predicate Holds(beta: seq<real>, c: Constraint) {
    c.index < |beta| && (if c.AtMostZero? then beta[c.index] <= 0.0 else beta[c.index] >= 0.0)
  }

  /** A coefficient vector meets every constraint. */
  predicate Satisfies(beta: seq<real>, cs: seq<Constraint>) {
    forall k :: 0 <= k < |cs| ==> Holds(beta, cs[k])
  }

  /** The sign pattern the constraints are meant to impose. */
  predicate SignConstrained(names: seq<string>, beta: seq<real>) {
    && |beta| == |names|
    && (forall i :: 0 <= i < |names| && LowersGlucose(names[i]) ==> beta[i] <= 0.0)
    && (forall i :: 0 <= i < |names| && RaisesGlucose(names[i]) ==> beta[i] >= 0.0)
  }

  /** The constraints impose exactly the sign pattern: nothing more, nothing less. */
  lemma FeasibleIffSignConstrained(names: seq<string>, beta: seq<real>)
    requires |beta| == |names|
    ensures Satisfies(beta, Constraints(names)) <==> SignConstrained(names, beta)
  {
    var cs := Constraints(names);
    if Satisfies(beta, cs) {
      forall i | 0 <= i < |names|
        ensures LowersGlucose(names[i]) ==> beta[i] <= 0.0
        ensures RaisesGlucose(names[i]) ==> beta[i] >= 0.0
      {
        if LowersGlucose(names[i]) {
          var k :| 0 <= k < |cs| && cs[k] == AtMostZero(i);
          assert Holds(beta, cs[k]);
        }
        if RaisesGlucose(names[i]) {
          var k :| 0 <= k < |cs| && cs[k] == AtLeastZero(i);
          assert Holds(beta, cs[k]);
        }
      }
    }
    if SignConstrained(names, beta) {
      forall k | 0 <= k < |cs|
        ensures Holds(beta, cs[k])
      {
        assert cs[k] in cs;
        if cs[k].AtMostZero? {
          assert AtMostZero(cs[k].index) in cs;
        } else {
          assert AtLeastZero(cs[k].index) in cs;
        }
      }
    }
  }

  /** `np.dot` of two vectors. */
  function Dot(xs: seq<real>, ys: seq<real>): real
    requires |xs| == |ys|
  {
    if |xs| == 0 then 0.0 else xs[0] * ys[0] + Dot(xs[1..], ys[1..])
  }

  /** Changing one feature value moves the prediction by the change times that feature's coefficient. */
  lemma {:induction false} DotUpdate(xs: seq<real>, ys: seq<real>, i: nat, v: real)
    requires |xs| == |ys| && i < |xs|
    ensures Dot(xs[i := v], ys) == Dot(xs, ys) + (v - xs[i]) * ys[i]
  {
    if i > 0 {
      assert xs[i := v][1..] == xs[1..][i - 1 := v];
      DotUpdate(xs[1..], ys[1..], i - 1, v);
    }
  }

  /**
   * The point of the constraints: under a sign-constrained coefficient vector,
   * raising an insulin-like feature never raises the prediction, and raising a
   * carbohydrate feature never lowers it.
   */
  lemma MoreInsulinNeverRaisesPrediction(names: seq<string>, beta: seq<real>, xs: seq<real>, i: nat, v: real)
    requires SignConstrained(names, beta) && |xs| == |names| && i < |xs| && v >= xs[i]
    ensures LowersGlucose(names[i]) ==> Dot(xs[i := v], beta) <= Dot(xs, beta)
    ensures RaisesGlucose(names[i]) ==> Dot(xs[i := v], beta) >= Dot(xs, beta)
  {
    DotUpdate(xs, beta, i, v);
    if LowersGlucose(names[i]) {
      ProductSign(v - xs[i], beta[i]);
    }
    if RaisesGlucose(names[i]) {
      ProductSign(v - xs[i], beta[i]);
    }
  }

  lemma ProductSign(a: real, b: real)
    requires a >= 0.0
    ensures b <= 0.0 ==> a * b <= 0.0
    ensures b >= 0.0 ==> a * b >= 0.0
  {
  }

  /** A pandas frame: column names and rows of values. */
  datatype Frame = Frame(columns: seq<string>, values: seq<seq<real>>)

  predicate Rectangular(f: Frame) {
    forall i :: 0 <= i < |f.values| ==> |f.values[i]| == |f.columns|
  }

  /** `f.iloc[:, h].values` */
  function Column(f: Frame, h: nat): (r: seq<real>)
    requires Rectangular(f) && h < |f.columns|
    ensures |r| == |f.values| && forall i :: 0 <= i < |r| ==> r[i] == f.values[i][h]
  {
    seq(|f.values|, i requires 0 <= i < |f.values| => f.values[i][h])
  }

  /** What the solver is asked to minimise for one output: ridge loss under the sign constraints. */
  datatype Problem = Problem(x: seq<seq<real>>, y: seq<real>, lambda: real, constraints: seq<Constraint>, nFeatures: nat)

  /** `beta.value` and `intercept.value` after `problem.solve()`. */
  datatype Solution = Solution(beta: seq<real>, intercept: real)

  /** The problem `fit` solves for output `h`: all features, the `h`-th target column, the fitted constraints. */
  function OutputProblem(x: Frame, y: Frame, lambda: real, h: nat): Problem
    requires Rectangular(x) && Rectangular(y) && h < |y.columns|
  {
    Problem(x.values, Column(y, h), lambda, Constraints(x.columns), |x.columns|)
  }

  /** A solver that honours the constraints it is given yields sign-constrained coefficients for every output. */
  lemma SolvedCoefficientsAreSignConstrained(x: Frame, y: Frame, lambda: real, solve: Problem -> Solution, h: nat)
    requires Rectangular(x) && Rectangular(y) && h < |y.columns|
    requires forall p :: |solve(p).beta| == p.nFeatures && Satisfies(solve(p).beta, p.constraints)
    ensures SignConstrained(x.columns, solve(OutputProblem(x, y, lambda, h)).beta)
  {
    var p := OutputProblem(x, y, lambda, h);
    FeasibleIffSignConstrained(x.columns, solve(p).beta);
  }

  /** The solver's answer for each output column, in order. */
  function Solutions(x: Frame, y: Frame, lambda: real, solve: Problem -> Solution): (r: seq<Solution>)
    requires Rectangular(x) && Rectangular(y)
    requires forall p :: |solve(p).beta| == p.nFeatures
    ensures |r| == |y.columns|
    ensures forall h :: 0 <= h < |r| ==> r[h] == solve(OutputProblem(x, y, lambda, h)) && |r[h].beta| == |x.columns|
  {
    seq(|y.columns|, h requires 0 <= h < |y.columns| => solve(OutputProblem(x, y, lambda, h)))
  }

  /** The exceptions of `predict` and `save_model_weights`. */
  datatype RidgeError =
    | NotFitted         // "Model has not been fitted."
    | ShapeMismatch     // `np.dot` on a feature count other than the fitted one
    | MissingAttribute  // `self.beta.T` while `beta` is still `None`

  /** The dictionary `save_model_weights` writes. */
  datatype WeightsRecord = WeightsRecord(
    nOutputs: nat,
    nFeatures: nat,
    featureNames: seq<string>,
    coefficients: seq<seq<real>>,
    intercepts: seq<real>)

  /** `beta[:, h]` */
  function BetaColumn(beta: array2<real>, h: nat): (r: seq<real>)
    requires h < beta.Length1
    reads beta
    ensures |r| == beta.Length0 && forall k :: 0 <= k < |r| ==> r[k] == beta[k, h]
  {
    seq(beta.Length0, k requires 0 <= k < beta.Length0 reads beta => beta[k, h])
  }

  /** `b[:, h] = v`: column `h` becomes `v`, every other entry is kept. */
  method StoreColumn(b: array2<real>, h: nat, v: seq<real>)
    requires h < b.Length1 && |v| == b.Length0
    modifies b
    ensures forall k, h' :: 0 <= k < b.Length0 && 0 <= h' < b.Length1 ==>
      b[k, h'] == if h' == h then v[k] else old(b[k, h'])
  {
    forall k | 0 <= k < b.Length0 {
      b[k, h] := v[k];
    }
  }

  class Model {
    const predictionHorizon: int
    const lambdaRidge: real
    var beta: array2?<real>
    var intercept: array?<real>
    var featureNames: seq<string>

    /** Coefficients and intercepts are both present or both absent, and agree in shape with the features. */
    ghost predicate Valid()
      reads this
    {
      && (beta == null <==> intercept == null)
      && (beta != null ==> beta.Length1 == intercept.Length && beta.Length0 == |featureNames|)
    }

    constructor (predictionHorizon: int, lambdaRidge: real := 0.1)
      ensures Valid()
      ensures this.predictionHorizon == predictionHorizon && this.lambdaRidge == lambdaRidge
      ensures beta == null && intercept == null && featureNames == []
    {
      this.predictionHorizon := predictionHorizon;
      this.lambdaRidge := lambdaRidge;
      beta := null;
      intercept := null;
      featureNames := [];
    }

    /**
     * `fit`: records the feature names, allocates zeroed coefficients
     * (features × outputs) and intercepts, then for each output column solves
     * its constrained problem and stores the solution in that column.
     */
    method Fit(xTrain: Frame, yTrain: Frame, solve: Problem -> Solution)
      requires Rectangular(xTrain) && Rectangular(yTrain)
      requires forall p :: |solve(p).beta| == p.nFeatures
      modifies this
      ensures Valid()
      ensures featureNames == xTrain.columns
      ensures beta != null && intercept != null && fresh(beta) && fresh(intercept)
      ensures beta.Length0 == |xTrain.columns| && beta.Length1 == |yTrain.columns| == intercept.Length
      ensures forall h :: 0 <= h < beta.Length1 ==> intercept[h] == Solutions(xTrain, yTrain, lambdaRidge, solve)[h].intercept
      ensures forall h :: 0 <= h < beta.Length1 ==> BetaColumn(beta, h) == Solutions(xTrain, yTrain, lambdaRidge, solve)[h].beta
    {
      var nFeatures := |xTrain.columns|;
      var nOutputs := |yTrain.columns|;
      var b := new real[nFeatures, nOutputs]((k, h) => 0.0);
      var c := new real[nOutputs](h => 0.0);
      ghost var sols := Solutions(xTrain, yTrain, lambdaRidge, solve);
      for h := 0 to nOutputs
        invariant forall h' :: 0 <= h' < h ==> c[h'] == sols[h'].intercept
        invariant forall k, h' :: 0 <= k < nFeatures && 0 <= h' < h ==> b[k, h'] == sols[h'].beta[k]
      {
        var s := solve(OutputProblem(xTrain, yTrain, lambdaRidge, h));
        assert s == sols[h];
        StoreColumn(b, h, s.beta);
        c[h] := s.intercept;
      }
      forall h | 0 <= h < nOutputs
        ensures BetaColumn(b, h) == sols[h].beta
      {
      }
      featureNames := xTrain.columns;
      beta, intercept := b, c;
    }

    /**
     * `predict`: one column per output, `y[r, h] = x[r] · beta[:, h] + intercept[h]`.
     * Unfitted, it raises; a feature count other than the fitted one fails in
     * `np.dot`, which is reached only when there is at least one output.
     */
    method Predict(xTest: Frame) returns (r: Result<array2<real>, RidgeError>)
      requires Valid() && Rectangular(xTest)
      ensures beta == null ==> r == Err(NotFitted)
      ensures beta != null ==> (r.Err? <==> beta.Length1 > 0 && |xTest.columns| != beta.Length0)
      ensures r.Err? ==> r.error != MissingAttribute
      ensures r.Ok? ==>
        && beta != null && intercept != null && fresh(r.value)
        && r.value.Length0 == |xTest.values| && r.value.Length1 == beta.Length1
        && forall i, h :: 0 <= i < r.value.Length0 && 0 <= h < r.value.Length1 ==>
             r.value[i, h] == Dot(xTest.values[i], BetaColumn(beta, h)) + intercept[h]
    {
      if beta == null || intercept == null {
        return Err(NotFitted);
      }
      var nOutputs := beta.Length1;
      var y := new real[|xTest.values|, nOutputs]((i, h) => 0.0);
      for h := 0 to nOutputs
        invariant h > 0 ==> |xTest.columns| == beta.Length0
        invariant forall i, h' :: 0 <= i < y.Length0 && 0 <= h' < h ==>
          y[i, h'] == Dot(xTest.values[i], BetaColumn(beta, h')) + intercept[h']
      {
        if |xTest.columns| != beta.Length0 {
          return Err(ShapeMismatch);
        }
        forall i | 0 <= i < y.Length0 {
          y[i, h] := Dot(xTest.values[i], BetaColumn(beta, h)) + intercept[h];
        }
      }
      return Ok(y);
    }

    /**
     * The record `save_model_weights` writes: coefficients transposed to one
     * list per output, the output and feature counts, the feature names, and
     * the intercepts in order.
     */
    method SaveModelWeights() returns (r: Result<WeightsRecord, RidgeError>)
      requires Valid()
      ensures beta == null ==> r == Err(MissingAttribute)
      ensures beta != null ==> r.Ok?
      ensures r.Ok? ==>
        && beta != null && intercept != null
        && r.value.nOutputs == beta.Length1
        && r.value.nFeatures == |featureNames|
        && r.value.featureNames == featureNames
        && |r.value.coefficients| == beta.Length1
        && (forall h :: 0 <= h < beta.Length1 ==> r.value.coefficients[h] == BetaColumn(beta, h))
        && r.value.intercepts == intercept[..]
    {
      if beta == null {
        return Err(MissingAttribute);
      }
      var b := beta;
      var coefficients := seq(b.Length1, h requires 0 <= h < b.Length1 reads b => BetaColumn(b, h));
      r := Ok(WeightsRecord(b.Length1, |featureNames|, featureNames, coefficients, intercept[..]));
    }
  }

  /** The saved record carries the transposed coefficients: `coefficients[h][k] == beta[k, h]`. */
  lemma SavedCoefficientsAreTransposed(rec: WeightsRecord, beta: array2<real>)
    requires |rec.coefficients| == beta.Length1
    requires forall h :: 0 <= h < beta.Length1 ==> rec.coefficients[h] == BetaColumn(beta, h)
    ensures forall h, k :: 0 <= h < beta.Length1 && 0 <= k < beta.Length0 ==>
      |rec.coefficients[h]| == beta.Length0 && rec.coefficients[h][k] == beta[k, h]
  {
  }
}
