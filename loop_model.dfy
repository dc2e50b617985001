/**
 * The Loop model's state and its two operations (glupredkit/models/loop.py):
 * `fit` derives per-subject therapy settings from the total daily insulin,
 * `predict` runs the physiology simulator row by row and trims each output to
 * the prediction horizon. The simulator and the per-day grouping of insulin are
 * parameters of the operations that need them.
 */
module LoopModel {
  import opened Common
  import opened LoopAlignment

  /** One training row: its time, its subject, and its bolus and basal cells. */
  datatype TrainRow = TrainRow(time: int, id: int, bolus: real, basal: real)

  /** The insulin column `fit` adds to the training table, with the row's time. */
  datatype InsulinReading = InsulinReading(time: int, insulin: real)

  /** `bolus + basal / 12`: the basal cell is an hourly rate, a row covers five minutes. */
  function Insulin(row: TrainRow): real {
    row.bolus + row.basal / 12.0
  }

  /** `x_train['id'].unique()`: every subject once, in order of first appearance. */
  function UniqueIds(rows: seq<TrainRow>): (r: seq<int>)
    ensures Distinct(r)
    ensures forall k :: 0 <= k < |rows| ==> rows[k].id in r
    ensures forall id :: id in r ==> exists k :: 0 <= k < |rows| && rows[k].id == id
  {
    if |rows| == 0 then []
    else
      var init, last := rows[..|rows| - 1], rows[|rows| - 1];
      var prev := UniqueIds(init);
      assert forall k :: 0 <= k < |rows| - 1 ==> init[k] == rows[k];
      assert rows == init + [last];
      if last.id in prev then prev else prev + [last.id]
  }

  /** The subjects are listed in order of their first row, as `Series.unique()` promises. */
  lemma {:induction false} UniqueIdsInFirstAppearanceOrder(rows: seq<TrainRow>)
    ensures FirstAppearanceOrder(rows, UniqueIds(rows))
  {
    if |rows| > 0 {
      var init, last := rows[..|rows| - 1], rows[|rows| - 1];
      assert rows == init + [last];
      UniqueIdsInFirstAppearanceOrder(init);
      FirstAppearanceSnoc(init, last, UniqueIds(init));
    }
  }

  /** Each id's first row comes before the first row of every id listed after it. */
  predicate FirstAppearanceOrder(rows: seq<TrainRow>, ids: seq<int>) {
    forall i, j :: 0 <= i < j < |ids| ==> FirstIndex(rows, ids[i]) < FirstIndex(rows, ids[j]) < |rows|
  }

  /** Appending a row keeps the order of the ids seen so far and puts a new id last. */
  lemma FirstAppearanceSnoc(rows: seq<TrainRow>, x: TrainRow, ids: seq<int>)
    requires FirstAppearanceOrder(rows, ids)
    requires forall k :: 0 <= k < |rows| ==> rows[k].id in ids
    requires forall id :: id in ids ==> exists k :: 0 <= k < |rows| && rows[k].id == id
    ensures FirstAppearanceOrder(rows + [x], if x.id in ids then ids else ids + [x.id])
  {
    forall id | id in ids
      ensures FirstIndex(rows, id) < |rows| && FirstIndex(rows + [x], id) == FirstIndex(rows, id)
    {
      var k :| 0 <= k < |rows| && rows[k].id == id;
      FirstIndexSnoc(rows, x, id);
    }
    FirstIndexSnoc(rows, x, x.id);
    if x.id !in ids {
      var r := ids + [x.id];
      forall i, j | 0 <= i < j < |r|
        ensures FirstIndex(rows + [x], r[i]) < FirstIndex(rows + [x], r[j]) < |rows + [x]|
      {
        assert r[i] in ids;
        if j < |ids| {
          assert r[j] in ids;
        }
      }
    }
  }

  /** The position of the first row of subject `id`, or `|rows|` when there is none. */
  function FirstIndex(rows: seq<TrainRow>, id: int): (k: nat)
    ensures k <= |rows|
    ensures k < |rows| ==> rows[k].id == id
    ensures forall j :: 0 <= j < k ==> rows[j].id != id
  {
    if |rows| == 0 then 0 else if rows[0].id == id then 0 else 1 + FirstIndex(rows[1..], id)
  }

  lemma {:induction false} FirstIndexSnoc(rows: seq<TrainRow>, x: TrainRow, id: int)
    ensures FirstIndex(rows + [x], id) ==
      if FirstIndex(rows, id) < |rows| then FirstIndex(rows, id)
      else if x.id == id then |rows| else |rows| + 1
  {
    if |rows| > 0 {
      assert (rows + [x])[1..] == rows[1..] + [x];
      FirstIndexSnoc(rows[1..], x, id);
    }
  }

  /** The insulin readings of one subject, in row order. */
  function SubjectReadings(rows: seq<TrainRow>, id: int): seq<InsulinReading> {
    if |rows| == 0 then []
    else (if rows[0].id == id then [InsulinReading(rows[0].time, Insulin(rows[0]))] else [])
         + SubjectReadings(rows[1..], id)
  }

  /** `np.mean`; the mean of nothing is NaN, here `None`. */
  function Mean(xs: seq<real>): (r: Option<real>)
    ensures r.Some? <==> |xs| > 0
    ensures r.Some? ==> r.value * (|xs| as real) == Sum(xs)
  {
    if |xs| == 0 then None else Some(Sum(xs) / (|xs| as real))
  }

  /** Total daily insulin of a subject: the mean of its per-day insulin sums. */
  function DailyAverageInsulin(rows: seq<TrainRow>, id: int, dailySums: seq<InsulinReading> -> seq<real>): (r: Option<real>)
    ensures r.Some? <==> |dailySums(SubjectReadings(rows, id))| > 0
    ensures r.Some? ==> r.value * (|dailySums(SubjectReadings(rows, id))| as real) == Sum(dailySums(SubjectReadings(rows, id)))
  {
    Mean(dailySums(SubjectReadings(rows, id)))
  }

  /** The three settings `fit` derives. */
  datatype SettingKind = Sensitivity | CarbRatio | BasalRate

  /**
   * The rules of thumb: ISF = 1800 / TDI, CR = 500 / TDI, basal = 45% of TDI
   * spread over 24 hours. A division by zero gives infinity, here `None`.
   */
  function Setting(kind: SettingKind, tdi: Option<real>): (r: Option<real>)
    ensures kind != BasalRate ==> (r.Some? <==> tdi.Some? && tdi.value != 0.0)
    ensures kind == BasalRate ==> (r.Some? <==> tdi.Some?)
    ensures kind == Sensitivity && r.Some? ==> r.value * tdi.value == 1800.0
    ensures kind == CarbRatio && r.Some? ==> r.value * tdi.value == 500.0
    ensures kind == BasalRate && r.Some? ==> 24.0 * r.value == 0.45 * tdi.value
  {
    match tdi
    case None => None
    case Some(t) =>
      match kind
      case Sensitivity => if t == 0.0 then None else Some(1800.0 / t)
      case CarbRatio => if t == 0.0 then None else Some(500.0 / t)
      case BasalRate => Some(t * 0.45 / 24.0)
  }

  /** One setting per subject, in subject order. */
  function SubjectSettings(rows: seq<TrainRow>, dailySums: seq<InsulinReading> -> seq<real>, kind: SettingKind): (r: seq<Option<real>>)
    ensures |r| == |UniqueIds(rows)|
  {
    var ids := UniqueIds(rows);
    seq(|ids|, k requires 0 <= k < |ids| => Setting(kind, DailyAverageInsulin(rows, ids[k], dailySums)))
  }

  // ---------------------------------------------------------------------------
  // Prediction

  /** `int(horizon / 5)`: the number of five-minute steps, truncated toward zero. */
  function PredictionIndex(horizon: int): (r: int)
    ensures horizon >= 0 ==> 0 <= 5 * r <= horizon < 5 * r + 5
    ensures horizon < 0 ==> 5 * r - 5 < horizon <= 5 * r <= 0
  {
    if horizon >= 0 then horizon / 5 else -((-horizon) / 5)
  }

  /** A Python slice bound normalised against length `n`: negative counts from the end, then clamped. */
  function SliceBound(i: int, n: nat): (r: nat)
    ensures r <= n
    ensures 0 <= i <= n ==> r == i
  {
    if i < 0 then (if i + n < 0 then 0 else i + n) else if i > n then n else i
  }

  /** `s[lo:hi]` */
  function PySlice<T>(s: seq<T>, lo: int, hi: int): (r: seq<T>)
    ensures 0 <= lo <= hi <= |s| ==> r == s[lo..hi]
    ensures |r| <= |s|
  {
    var a, b := SliceBound(lo, |s|), SliceBound(hi, |s|);
    if a <= b then s[a..b] else []
  }

  /** The trajectory the source keeps from a simulator output: skipped below `pi` values, else `output[1:pi + 1]`. */
  function TrajectoryAsWritten(output: seq<real>, pi: int): Option<seq<real>> {
    if |output| < pi then None else Some(PySlice(output, 1, pi + 1))
  }

  /** The intended trajectory: skipped unless the output holds the reference value and `pi` predictions. */
  function Trajectory(output: seq<real>, pi: int): Option<seq<real>> {
    if |output| < pi + 1 then None else Some(PySlice(output, 1, pi + 1))
  }

  /** An output of exactly `pi` values passes the source's check and yields a trajectory one value short. */
  lemma AsWrittenTrajectoryIsShort(output: seq<real>, pi: int)
    requires pi >= 1 && |output| == pi
    ensures TrajectoryAsWritten(output, pi) == Some(output[1..])
    ensures |TrajectoryAsWritten(output, pi).value| == pi - 1
    ensures Trajectory(output, pi).None?
  {
    assert SliceBound(pi + 1, |output|) == |output|;
    assert output[1..|output|] == output[1..];
  }

  /** A kept trajectory holds exactly the `pi` predictions after the reference value, and the two checks differ only at length `pi`. */
  lemma TrajectoryHasHorizonLength(output: seq<real>, pi: int)
    requires pi >= 0
    ensures Trajectory(output, pi).Some? <==> |output| > pi
    ensures Trajectory(output, pi).Some? ==> Trajectory(output, pi).value == output[1..pi + 1]
    ensures |output| != pi ==> Trajectory(output, pi) == TrajectoryAsWritten(output, pi)
  {
  }

  /** The rows of one subject, in order. */
  function SubjectRows(rows: seq<Row>, id: int): (r: seq<Row>)
    ensures |r| <= |rows|
  {
    if |rows| == 0 then []
    else (if rows[0].id == id then [rows[0]] else []) + SubjectRows(rows[1..], id)
  }

  /** The simulator's output for one row, or the error raised while assembling its input. */
  function RowOutput(therapy: TherapyInput, row: Row, simulate: SimulatorInput -> seq<real>): Result<seq<real>, LoopError> {
    match PredictionInput(row, therapy, None)
    case Err(e) => Err(e)
    case Ok(input) => Ok(simulate(input))
  }

  /** Predicts one row under one subject's therapy settings. */
  type RowPredictor = (TherapyInput, Row) -> Result<seq<real>, LoopError>

  function Predictor(simulate: SimulatorInput -> seq<real>): RowPredictor {
    (therapy, row) => RowOutput(therapy, row, simulate)
  }

  /** The trajectories of one subject's rows, or the first error raised while predicting them. */
  function RowTrajectories(rows: seq<Row>, therapy: TherapyInput, pi: int, output: RowPredictor)
    : Result<seq<seq<real>>, LoopError>
  {
    if |rows| == 0 then Ok([])
    else
      match output(therapy, rows[0])
      case Err(e) => Err(e)
      case Ok(out) =>
        var t := Trajectory(out, pi);
        PrependOk(if t.Some? then [t.value] else [], RowTrajectories(rows[1..], therapy, pi, output))
  }

  /** What the model holds after construction and fitting. */
  datatype FittedState = FittedState(
    predictionHorizon: int,
    dia: int,
    subjectIds: Option<seq<int>>,
    insulinSensitivityFactor: seq<Option<real>>,
    carbRatio: seq<Option<real>>,
    basal: seq<Option<real>>)

  /** The trajectories of subjects `i..` in subject order, or the first error. */
  function SubjectsFrom(st: FittedState, ids: seq<int>, i: nat, rows: seq<Row>, pi: int, output: RowPredictor)
    : Result<seq<seq<real>>, LoopError>
    decreases |ids| - i
  {
    if i >= |ids| then Ok([])
    else if i >= |st.insulinSensitivityFactor| || i >= |st.carbRatio| || i >= |st.basal| then Err(MissingSettings(i))
    else
      var therapy := GetInputDict(st.dia, st.insulinSensitivityFactor[i], st.carbRatio[i], st.basal[i]);
      match RowTrajectories(SubjectRows(rows, ids[i]), therapy, pi, output)
      case Err(e) => Err(e)
      case Ok(ts) => PrependOk(ts, SubjectsFrom(st, ids, i + 1, rows, pi, output))
  }

  /** `predict` with zero rows returns nothing (`NoData`); otherwise the list of trajectories. */
  datatype Prediction = NoData | Trajectories(trajectories: seq<seq<real>>)

  /** What `predict` returns, or raises. */
  function PredictSpec(st: FittedState, rows: seq<Row>, simulate: SimulatorInput -> seq<real>): Result<Prediction, LoopError> {
    if |rows| == 0 then Ok(NoData)
    else if st.subjectIds.None? then Err(NotFitted)
    else
      match SubjectsFrom(st, st.subjectIds.value, 0, rows, PredictionIndex(st.predictionHorizon), Predictor(simulate))
      case Err(e) => Err(e)
      case Ok(ts) => Ok(Trajectories(ts))
  }

  // ---------------------------------------------------------------------------
  // Counting emitted trajectories

  /** The rows whose subject is one of `ids`. */
  function RowsIn(rows: seq<Row>, ids: seq<int>): (r: seq<Row>)
    ensures |r| <= |rows|
  {
    if |rows| == 0 then []
    else (if rows[0].id in ids then [rows[0]] else []) + RowsIn(rows[1..], ids)
  }

  lemma {:induction false} RowsInCons(rows: seq<Row>, id: int, ids: seq<int>)
    requires id !in ids
    ensures |RowsIn(rows, [id] + ids)| == |SubjectRows(rows, id)| + |RowsIn(rows, ids)|
  {
    if |rows| > 0 {
      RowsInCons(rows[1..], id, ids);
    }
  }

  /** Each row yields at most one trajectory, and with `pi >= 0` every trajectory holds `pi` values. */
  lemma {:induction false} RowTrajectoriesShape(rows: seq<Row>, therapy: TherapyInput, pi: int, output: RowPredictor)
    requires RowTrajectories(rows, therapy, pi, output).Ok?
    ensures var ts := RowTrajectories(rows, therapy, pi, output).value;
      && |ts| <= |rows|
      && (pi >= 0 ==> forall k :: 0 <= k < |ts| ==> |ts[k]| == pi)
  {
    if |rows| > 0 {
      RowTrajectoriesShape(rows[1..], therapy, pi, output);
      if pi >= 0 {
        TrajectoryHasHorizonLength(output(therapy, rows[0]).value, pi);
      }
    }
  }

  lemma {:induction false} SubjectsFromShape(st: FittedState, ids: seq<int>, i: nat, rows: seq<Row>, pi: int, output: RowPredictor)
    requires Distinct(ids) && i <= |ids|
    requires SubjectsFrom(st, ids, i, rows, pi, output).Ok?
    ensures var ts := SubjectsFrom(st, ids, i, rows, pi, output).value;
      && |ts| <= |RowsIn(rows, ids[i..])|
      && (pi >= 0 ==> forall k :: 0 <= k < |ts| ==> |ts[k]| == pi)
    decreases |ids| - i
  {
    if i < |ids| {
      var therapy := GetInputDict(st.dia, st.insulinSensitivityFactor[i], st.carbRatio[i], st.basal[i]);
      SubjectsFromShape(st, ids, i + 1, rows, pi, output);
      RowTrajectoriesShape(SubjectRows(rows, ids[i]), therapy, pi, output);
      assert ids[i..] == [ids[i]] + ids[i + 1..];
      RowsInCons(rows, ids[i], ids[i + 1..]);
    }
  }

  /**
   * `predict` emits at most one trajectory per row, and for a non-negative
   * horizon each holds `int(horizon / 5)` predictions.
   */
  lemma PredictShape(st: FittedState, rows: seq<Row>, simulate: SimulatorInput -> seq<real>)
    requires st.subjectIds.Some? ==> Distinct(st.subjectIds.value)
    requires PredictSpec(st, rows, simulate).Ok? && PredictSpec(st, rows, simulate).value.Trajectories?
    ensures var ts := PredictSpec(st, rows, simulate).value.trajectories;
      && |ts| <= |rows|
      && (st.predictionHorizon >= 0 ==> forall k :: 0 <= k < |ts| ==> |ts[k]| == PredictionIndex(st.predictionHorizon))
  {
    var ids := st.subjectIds.value;
    assert ids[0..] == ids;
    SubjectsFromShape(st, ids, 0, rows, PredictionIndex(st.predictionHorizon), Predictor(simulate));
  }

  /** The inner loop of `predict`: the trajectories of one subject's rows, or the first error. */
  method PredictSubject(subset: seq<Row>, therapy: TherapyInput, pi: int, simulate: SimulatorInput -> seq<real>)
    returns (r: Result<seq<seq<real>>, LoopError>)
    ensures r == RowTrajectories(subset, therapy, pi, Predictor(simulate))
  {
    ghost var output := Predictor(simulate);
    var ts: seq<seq<real>> := [];
    assert forall t: seq<seq<real>> :: [] + t == t;
    for i := 0 to |subset|
      invariant RowTrajectories(subset, therapy, pi, output) == PrependOk(ts, RowTrajectories(subset[i..], therapy, pi, output))
    {
      var out := GetPredictionOutput(subset[i], therapy, None, simulate);
      assert out == output(therapy, subset[i]);
      assert subset[i..][1..] == subset[i + 1..];
      if out.Err? {
        return Err(out.error);
      }
      var t := Trajectory(out.value, pi);
      if t.Some? {
        PrependOkAssoc(ts, [t.value], RowTrajectories(subset[i + 1..], therapy, pi, output));
        ts := ts + [t.value];
      } else {
        assert [] + ts == ts;
      }
    }
    assert subset[|subset|..] == [];
    assert ts + [] == ts;
    return Ok(ts);
  }

  /** The outer loop of `predict`: subject by subject, the trajectories of that subject's rows, or the first error. */
  method PredictSubjects(st: FittedState, ids: seq<int>, rows: seq<Row>, pi: int, simulate: SimulatorInput -> seq<real>)
    returns (r: Result<seq<seq<real>>, LoopError>)
    ensures r == SubjectsFrom(st, ids, 0, rows, pi, Predictor(simulate))
  {
    ghost var output := Predictor(simulate);
    var y: seq<seq<real>> := [];
    assert forall t: seq<seq<real>> :: [] + t == t;
    for index := 0 to |ids|
      invariant SubjectsFrom(st, ids, 0, rows, pi, output) == PrependOk(y, SubjectsFrom(st, ids, index, rows, pi, output))
    {
      if index >= |st.insulinSensitivityFactor| || index >= |st.carbRatio| || index >= |st.basal| {
        return Err(MissingSettings(index));
      }
      var subset := SubjectRows(rows, ids[index]);
      var therapy := GetInputDict(st.dia, st.insulinSensitivityFactor[index], st.carbRatio[index], st.basal[index]);
      var ts := PredictSubject(subset, therapy, pi, simulate);
      if ts.Err? {
        return Err(ts.error);
      }
      PrependOkAssoc(y, ts.value, SubjectsFrom(st, ids, index + 1, rows, pi, output));
      y := y + ts.value;
    }
    assert y + [] == y;
    return Ok(y);
  }

  // ---------------------------------------------------------------------------
  // The model object

  class Model {
    const predictionHorizon: int
    /** Duration of insulin action in minutes. */
    const dia: int
    var subjectIds: Option<seq<int>>
    var basal: seq<Option<real>>
    var insulinSensitivityFactor: seq<Option<real>>
    var carbRatio: seq<Option<real>>

    ghost predicate Valid()
      reads this
    {
      subjectIds.Some? ==> Distinct(subjectIds.value)
    }

    function State(): FittedState
      reads this
    {
      FittedState(predictionHorizon, dia, subjectIds, insulinSensitivityFactor, carbRatio, basal)
    }

    constructor (predictionHorizon: int)
      ensures Valid()
      ensures this.predictionHorizon == predictionHorizon && dia == 360
      ensures subjectIds == None && basal == [] && insulinSensitivityFactor == [] && carbRatio == []
    {
      this.predictionHorizon := predictionHorizon;
      dia := 360;
      subjectIds := None;
      basal := [];
      insulinSensitivityFactor := [];
      carbRatio := [];
    }

    /**
     * `fit`: records the subjects in order of first appearance and appends, for
     * each, one derived setting to each of the three lists; earlier entries are
     * kept.
     */
    method Fit(xTrain: seq<TrainRow>, dailySums: seq<InsulinReading> -> seq<real>)
      modifies this
      ensures Valid()
      ensures subjectIds == Some(UniqueIds(xTrain))
      ensures insulinSensitivityFactor == old(insulinSensitivityFactor) + SubjectSettings(xTrain, dailySums, Sensitivity)
      ensures carbRatio == old(carbRatio) + SubjectSettings(xTrain, dailySums, CarbRatio)
      ensures basal == old(basal) + SubjectSettings(xTrain, dailySums, BasalRate)
    {
      var ids := UniqueIds(xTrain);
      ghost var isfs := SubjectSettings(xTrain, dailySums, Sensitivity);
      ghost var crs := SubjectSettings(xTrain, dailySums, CarbRatio);
      ghost var basals := SubjectSettings(xTrain, dailySums, BasalRate);
      var isf, cr, b := [], [], [];
      for k := 0 to |ids|
        invariant isf == isfs[..k] && cr == crs[..k] && b == basals[..k]
      {
        var tdi := DailyAverageInsulin(xTrain, ids[k], dailySums);
        isf := isf + [Setting(Sensitivity, tdi)];
        cr := cr + [Setting(CarbRatio, tdi)];
        b := b + [Setting(BasalRate, tdi)];
        assert isfs[..k + 1] == isfs[..k] + [isfs[k]];
        assert crs[..k + 1] == crs[..k] + [crs[k]];
        assert basals[..k + 1] == basals[..k] + [basals[k]];
      }
      assert isfs[..|ids|] == isfs && crs[..|ids|] == crs && basals[..|ids|] == basals;
      subjectIds := Some(ids);
      insulinSensitivityFactor := insulinSensitivityFactor + isf;
      carbRatio := carbRatio + cr;
      basal := basal + b;
    }

    /**
     * `predict`: nothing for an empty table; otherwise, subject by subject and
     * row by row, the simulator's output trimmed to the horizon, skipping rows
     * whose output is too short.
     */
    method Predict(xTest: seq<Row>, simulate: SimulatorInput -> seq<real>) returns (r: Result<Prediction, LoopError>)
      requires Valid()
      ensures r == PredictSpec(State(), xTest, simulate)
      ensures |xTest| == 0 ==> r == Ok(NoData)
      ensures r.Ok? && r.value.Trajectories? ==> |r.value.trajectories| <= |xTest|
    {
      if |xTest| == 0 {
        return Ok(NoData);
      }
      var pi := PredictionIndex(predictionHorizon);
      if subjectIds.None? {
        return Err(NotFitted);
      }
      var ys := PredictSubjects(State(), subjectIds.value, xTest, pi, simulate);
      if ys.Err? {
        return Err(ys.error);
      }
      r := Ok(Trajectories(ys.value));
      PredictShape(State(), xTest, simulate);
    }
  }
}
