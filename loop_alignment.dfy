/**
 * How the Loop model turns one feature row into the event lists the physiology
 * simulator consumes (glupredkit/models/loop.py): cells are selected by label
 * prefix, each label is turned into a timestamp, zero carb and bolus cells are
 * dropped, and dose records are built and merged in start-time order.
 * Timestamps are whole minutes.
 */
module LoopAlignment {
  import opened Common
  import opened PyStrings
  import opened StableSort

  /** One cell of a feature row: its column label and its value. */
  datatype Entry = Entry(name: string, value: real)

  /** One row of the feature table: its time index, its subject and its cells in column order. */
  datatype Row = Row(time: int, id: int, entries: seq<Entry>)

  /** A (date, value) pair handed to the simulator. */
  datatype Sample = Sample(date: int, value: real)

  datatype LoopError =
    | BadOffset(name: string)    // int() of the name's last segment raised ValueError
    | NoDoses                      // unpacking zip(*[]) raised ValueError
    | NotFitted                    // iterating subject_ids while it is still None
    | MissingSettings(index: nat)  // IndexError on a therapy-setting list

  function SampleDate(p: Sample): int {
    p.date
  }

  /** Prepends `p` to a successful result and passes an error through. */
  function PrependOk<T>(p: seq<T>, r: Result<seq<T>, LoopError>): Result<seq<T>, LoopError> {
    match r
    case Ok(s) => Ok(p + s)
    case Err(e) => Err(e)
  }

  lemma PrependOkAssoc<T>(p: seq<T>, q: seq<T>, r: Result<seq<T>, LoopError>)
    ensures PrependOk(p, PrependOk(q, r)) == PrependOk(p + q, r)
  {
    if r.Ok? {
      assert p + (q + r.value) == (p + q) + r.value;
    }
  }

  // ---------------------------------------------------------------------------
  // Selecting cells and dropping zero values

  /** The cells whose label starts with `prefix`, in column order. */
  function Select(entries: seq<Entry>, prefix: string): (r: seq<Entry>)
    ensures |r| <= |entries|
    ensures forall k :: 0 <= k < |r| ==> StartsWith(r[k].name, prefix)
  {
    if |entries| == 0 then []
    else if StartsWith(entries[0].name, prefix) then [entries[0]] + Select(entries[1..], prefix)
    else Select(entries[1..], prefix)
  }

  /** A cell is selected exactly when it is in the row and its label starts with the prefix. */
  lemma {:induction false} SelectMembers(entries: seq<Entry>, prefix: string, e: Entry)
    ensures e in Select(entries, prefix) <==> e in entries && StartsWith(e.name, prefix)
  {
    if |entries| > 0 {
      SelectMembers(entries[1..], prefix, e);
      assert e in entries <==> e == entries[0] || e in entries[1..];
    }
  }

  /** Selection keeps column order: selecting from two runs of cells is selecting from each in turn. */
  lemma {:induction false} SelectAppend(a: seq<Entry>, b: seq<Entry>, prefix: string)
    ensures Select(a + b, prefix) == Select(a, prefix) + Select(b, prefix)
  {
    if |a| == 0 {
      assert a + b == b;
    } else {
      assert (a + b)[1..] == a[1..] + b;
      SelectAppend(a[1..], b, prefix);
    }
  }

  /** The cells whose label does not start with `prefix`, in column order. */
  function Unselect(entries: seq<Entry>, prefix: string): (r: seq<Entry>)
    ensures |r| <= |entries|
    ensures forall k :: 0 <= k < |r| ==> !StartsWith(r[k].name, prefix)
  {
    if |entries| == 0 then []
    else if StartsWith(entries[0].name, prefix) then Unselect(entries[1..], prefix)
    else [entries[0]] + Unselect(entries[1..], prefix)
  }

  /** The cells whose value is not zero, in order. */
  function NonZero(entries: seq<Entry>): (r: seq<Entry>)
    ensures |r| <= |entries|
    ensures forall k :: 0 <= k < |r| ==> r[k].value != 0.0
  {
    if |entries| == 0 then []
    else if entries[0].value != 0.0 then [entries[0]] + NonZero(entries[1..])
    else NonZero(entries[1..])
  }

  /**
   * `row[~row.index.str.startswith(prefix) | (row != 0)]`: drops the cells
   * labelled with `prefix` whose value is zero. The prefixed cells that remain
   * are exactly the non-zero ones, and every other cell is untouched.
   */
  function DropZeros(entries: seq<Entry>, prefix: string): (r: seq<Entry>)
    ensures Select(r, prefix) == NonZero(Select(entries, prefix))
    ensures Unselect(r, prefix) == Unselect(entries, prefix)
    ensures |r| == |Unselect(entries, prefix)| + |NonZero(Select(entries, prefix))|
  {
    if |entries| == 0 then []
    else if !StartsWith(entries[0].name, prefix) || entries[0].value != 0.0 then
      [entries[0]] + DropZeros(entries[1..], prefix)
    else DropZeros(entries[1..], prefix)
  }

  // ---------------------------------------------------------------------------
  // Label to timestamp

  const WhatIf: string := "what_if"

  /**
   * The timestamp of the cell labelled `label` while collecting `column` from a
   * row at time `now`: the exact column name is the row's own time; a label
   * containing "what_if" lies N minutes ahead, any other label N minutes back,
   * where N is the integer after the label's last underscore. `None` where
   * `int()` raises.
   */
  function EntryDate(column: string, name: string, now: int): (r: Option<int>)
    ensures name == column ==> r == Some(now)
    ensures name != column ==> (r.Some? <==> IsIntLiteral(LastSegment(name)))
  {
    if name == column then Some(now)
    else
      match ParseInt(LastSegment(name))
      case None => None
      case Some(n) => Some(if Contains(name, WhatIf) then now + n else now - n)
  }

  /** The label of a planned value `n` minutes ahead, as the preprocessing names it. */
  function WhatIfLabel(column: string, n: nat): string {
    column + "_what_if_" + NatToDigits(n)
  }

  /** The label of a lagged value `n` minutes back, as the preprocessing names it. */
  function LagLabel(column: string, n: nat): string {
    column + "_" + NatToDigits(n)
  }

  lemma DigitsHaveNoUnderscore(n: nat)
    ensures '_' !in NatToDigits(n) && 'f' !in NatToDigits(n)
  {
    var s := NatToDigits(n);
    assert forall k :: 0 <= k < |s| ==> IsDigit(s[k]);
  }

  /** A what-if label lies exactly `n` minutes after the row's time. */
  lemma WhatIfLabelDate(column: string, n: nat, now: int)
    ensures EntryDate(column, WhatIfLabel(column, n), now) == Some(now + n)
  {
    var name := WhatIfLabel(column, n);
    DigitsHaveNoUnderscore(n);
    assert name == (column + "_what_if") + "_" + NatToDigits(n);
    LastSegmentAfterUnderscore(column + "_what_if", NatToDigits(n));
    DigitsRoundTrip(n);
    assert name[|column| + 1..|column| + 1 + |WhatIf|] == WhatIf;
    assert OccursAt(name, WhatIf, |column| + 1);
  }

  /** A lag label lies exactly `n` minutes before the row's time, unless the column name itself contains "what_if". */
  lemma LagLabelDate(column: string, n: nat, now: int)
    requires !Contains(column, WhatIf)
    ensures EntryDate(column, LagLabel(column, n), now) == Some(now - n)
  {
    var name := LagLabel(column, n);
    DigitsHaveNoUnderscore(n);
    LastSegmentAfterUnderscore(column, NatToDigits(n));
    DigitsRoundTrip(n);
    NotContainsAppend(column, "_", WhatIf);
    NotContainsAppend(column + "_", NatToDigits(n), WhatIf);
    assert name == column + "_" + NatToDigits(n);
  }

  // ---------------------------------------------------------------------------
  // Collecting (date, value) pairs

  /** The pairs the inner `get_dates_and_values` loop collects from `cells`, or the error of the first label it cannot read. */
  function Collect(column: string, now: int, cells: seq<Entry>): (r: Result<seq<Sample>, LoopError>)
    ensures r.Ok? <==> forall k :: 0 <= k < |cells| ==> EntryDate(column, cells[k].name, now).Some?
    ensures r.Ok? ==> |r.value| == |cells|
    ensures r.Ok? ==> forall k :: 0 <= k < |cells| ==>
      Some(r.value[k].date) == EntryDate(column, cells[k].name, now) && r.value[k].value == cells[k].value
    ensures r.Err? ==> (exists k :: 0 <= k < |cells| && r.error == BadOffset(cells[k].name)
                          && EntryDate(column, cells[k].name, now).None?
                          && forall j :: 0 <= j < k ==> EntryDate(column, cells[j].name, now).Some?)
  {
    if |cells| == 0 then Ok([])
    else
      match EntryDate(column, cells[0].name, now)
      case None => Err(BadOffset(cells[0].name))
      case Some(d) =>
        var rest := Collect(column, now, cells[1..]);
        assert rest.Err? ==> (exists k :: 1 <= k < |cells| && rest.error == BadOffset(cells[k].name)
                                && EntryDate(column, cells[k].name, now).None?
                                && forall j :: 0 <= j < k ==> EntryDate(column, cells[j].name, now).Some?) by {
          if rest.Err? {
            var k :| 0 <= k < |cells[1..]| && rest.error == BadOffset(cells[1..][k].name)
                     && EntryDate(column, cells[1..][k].name, now).None?
                     && forall j :: 0 <= j < k ==> EntryDate(column, cells[1..][j].name, now).Some?;
            assert forall j :: 1 <= j < k + 1 ==> cells[j] == cells[1..][j - 1];
          }
        }
        PrependOk([Sample(d, cells[0].value)], rest)
  }

  /** The pairs the prediction-side `get_dates_and_values` returns: `Collect`, then sorted by date unless empty. */
  function SortedCollect(column: string, now: int, cells: seq<Entry>): Result<seq<Sample>, LoopError> {
    match Collect(column, now, cells)
    case Err(e) => Err(e)
    case Ok(s) => Ok(if |s| == 0 then s else SortBy(s, SampleDate))
  }

  /** The insulin-side `get_dates_and_values`: collects, in column order, the pairs of the cells labelled with `column`. */
  method CollectDatesAndValues(column: string, row: Row) returns (r: Result<seq<Sample>, LoopError>)
    ensures r == Collect(column, row.time, Select(row.entries, column))
  {
    var relevant := Select(row.entries, column);
    var samples: seq<Sample> := [];
    var i := 0;
    assert relevant[0..] == relevant;
    assert forall t: seq<Sample> :: [] + t == t;
    while i < |relevant|
      invariant 0 <= i <= |relevant|
      invariant Collect(column, row.time, relevant) == PrependOk(samples, Collect(column, row.time, relevant[i..]))
    {
      var cell := relevant[i];
      var date := EntryDate(column, cell.name, row.time);
      if date.None? {
        return Err(BadOffset(cell.name));
      }
      var x := Sample(date.value, cell.value);
      assert relevant[i..][1..] == relevant[i + 1..];
      assert Collect(column, row.time, relevant[i..]) == PrependOk([x], Collect(column, row.time, relevant[i + 1..]));
      PrependOkAssoc(samples, [x], Collect(column, row.time, relevant[i + 1..]));
      samples := samples + [Sample(date.value, cell.value)];
      i := i + 1;
    }
    assert samples + [] == samples;
    return Ok(samples);
  }

  /**
   * The prediction-side `get_dates_and_values`: the collected pairs sorted by
   * ascending date, a permutation of them in which pairs with equal dates keep
   * their column order.
   */
  method GetDatesAndValues(column: string, row: Row) returns (r: Result<seq<Sample>, LoopError>)
    ensures r == SortedCollect(column, row.time, Select(row.entries, column))
    ensures r.Ok? ==> var collected := Collect(column, row.time, Select(row.entries, column)).value;
      && SortedBy(r.value, SampleDate)
      && multiset(r.value) == multiset(collected)
      && forall d :: WithKey(r.value, SampleDate, d) == WithKey(collected, SampleDate, d)
  {
    r := CollectDatesAndValues(column, row);
    if r.Ok? && |r.value| > 0 {
      var collected := r.value;
      r := Ok(SortBy(collected, SampleDate));
      forall d
        ensures WithKey(r.value, SampleDate, d) == WithKey(collected, SampleDate, d)
      {
        SortByStable(collected, SampleDate, d);
      }
    }
  }

  /** An empty selection yields empty lists, unsorted and unchanged. */
  lemma EmptySelectionCollectsNothing(column: string, row: Row)
    requires Select(row.entries, column) == []
    ensures SortedCollect(column, row.time, Select(row.entries, column)) == Ok([])
  {
  }

  // ---------------------------------------------------------------------------
  // Dose records

  /** The dose types the core uses (a subset of the simulator's enumeration). */
  datatype DoseType = Basal | Bolus | TempBasal

  /** The inner `get_dose_type`: "temp" is a temporary basal, "bolus" a bolus, anything else a scheduled basal. */
  function GetDoseType(x: string): (r: DoseType)
    ensures r == TempBasal <==> x == "temp"
    ensures r == Bolus <==> x == "bolus"
  {
    if x == "temp" then TempBasal else if x == "bolus" then Bolus else Basal
  }

  /** A dose record: type, start and end time, value, and delivered units (always `None` here). */
  datatype Dose = Dose(kind: DoseType, start: int, end: int, value: real, units: Option<real>)

  function DoseStart(d: Dose): int {
    d.start
  }

  /** Minutes a basal record covers. */
  const BasalDuration: int := 5

  /** Basal records of type `kind`: each lasts `BasalDuration` minutes from its date. */
  function BasalDosesOfKind(samples: seq<Sample>, kind: DoseType): seq<Dose> {
    seq(|samples|, k requires 0 <= k < |samples| =>
      Dose(kind, samples[k].date, samples[k].date + BasalDuration, samples[k].value, None))
  }

  /** The basal records as the source builds them, with type `get_dose_type("tempbasal")`. */
  function BasalDosesAsWritten(samples: seq<Sample>): seq<Dose> {
    BasalDosesOfKind(samples, GetDoseType("tempbasal"))
  }

  /** The basal records as intended: temporary basals, the type the source's comment names. */
  function BasalDoses(samples: seq<Sample>): seq<Dose> {
    BasalDosesOfKind(samples, TempBasal)
  }

  /** Bolus records: type bolus, ending when they start. */
  function BolusDoses(samples: seq<Sample>): seq<Dose> {
    seq(|samples|, k requires 0 <= k < |samples| =>
      Dose(GetDoseType("bolus"), samples[k].date, samples[k].date, samples[k].value, None))
  }

  /** Looking up "tempbasal" misses the "temp" branch, so the source's basal records are scheduled basals. */
  lemma AsWrittenBasalRecordsAreScheduled(samples: seq<Sample>)
    requires |samples| > 0
    ensures forall d :: d in BasalDosesAsWritten(samples) ==> d.kind == Basal
    ensures BasalDosesAsWritten(samples) != BasalDoses(samples)
  {
    assert BasalDosesAsWritten(samples)[0].kind != BasalDoses(samples)[0].kind;
  }

  /** The five parallel lists `zip(*combined)` produces. */
  datatype DoseColumns = DoseColumns(
    types: seq<DoseType>, starts: seq<int>, ends: seq<int>, values: seq<real>, units: seq<Option<real>>)

  /** `zip(*records)` unpacked into five lists; unpacking fails when there are no records at all. */
  function Unzip(records: seq<Dose>): (r: Result<DoseColumns, LoopError>)
    ensures r.Err? <==> |records| == 0
    ensures r.Err? ==> r.error == NoDoses
  {
    if |records| == 0 then Err(NoDoses)
    else Ok(DoseColumns(
      seq(|records|, k requires 0 <= k < |records| => records[k].kind),
      seq(|records|, k requires 0 <= k < |records| => records[k].start),
      seq(|records|, k requires 0 <= k < |records| => records[k].end),
      seq(|records|, k requires 0 <= k < |records| => records[k].value),
      seq(|records|, k requires 0 <= k < |records| => records[k].units)))
  }

  /** Reassembles records from columns of equal length. */
  function Zip(c: DoseColumns): seq<Dose>
    requires |c.starts| == |c.types| && |c.ends| == |c.types| && |c.values| == |c.types| && |c.units| == |c.types|
  {
    seq(|c.types|, k requires 0 <= k < |c.types| => Dose(c.types[k], c.starts[k], c.ends[k], c.values[k], c.units[k]))
  }

  /** Unzipping loses nothing: the columns have equal length and zip back to the records. */
  lemma UnzipRoundTrip(records: seq<Dose>)
    requires |records| > 0
    ensures var c := Unzip(records).value;
      && |c.starts| == |c.types| == |records| && |c.ends| == |c.types| && |c.values| == |c.types| && |c.units| == |c.types|
      && Zip(c) == records
  {
  }

  /** The bolus cells that take part: those left after dropping the zero-valued ones. */
  function BolusRow(row: Row): Row {
    Row(row.time, row.id, DropZeros(row.entries, "bolus"))
  }

  /**
   * The merged dose records of `get_insulin_data`, before they are unzipped.
   * The basal records take the intended kind (`BasalDoses`), not the scheduled
   * kind the source assigns (`BasalDosesAsWritten`).
   */
  function InsulinRecords(row: Row): Result<seq<Dose>, LoopError> {
    match Collect("basal", row.time, Select(row.entries, "basal"))
    case Err(e) => Err(e)
    case Ok(basal) =>
      match Collect("bolus", row.time, Select(BolusRow(row).entries, "bolus"))
      case Err(e) => Err(e)
      case Ok(bolus) => Ok(SortBy(BasalDoses(basal) + BolusDoses(bolus), DoseStart))
  }

  /** What `get_insulin_data` returns, or raises. */
  function InsulinData(row: Row): Result<DoseColumns, LoopError> {
    match InsulinRecords(row)
    case Err(e) => Err(e)
    case Ok(records) => Unzip(records)
  }

  /** `get_insulin_data`: basal and non-zero bolus records merged in start-time order and unzipped. */
  method GetInsulinData(row: Row) returns (r: Result<DoseColumns, LoopError>)
    ensures r == InsulinData(row)
  {
    var basal := CollectDatesAndValues("basal", row);
    if basal.Err? {
      return Err(basal.error);
    }
    var bolus := CollectDatesAndValues("bolus", BolusRow(row));
    if bolus.Err? {
      return Err(bolus.error);
    }
    var combined := BasalDoses(basal.value) + BolusDoses(bolus.value);
    combined := SortBy(combined, DoseStart);
    r := Unzip(combined);
  }

  /**
   * The merged records are sorted by start time and number one per basal cell
   * plus one per non-zero bolus cell; each is a basal of the intended temporary
   * kind lasting five minutes or a bolus ending when it starts.
   */
  lemma InsulinRecordsShape(row: Row)
    requires InsulinRecords(row).Ok?
    ensures var records := InsulinRecords(row).value;
      && SortedBy(records, DoseStart)
      && |records| == |Select(row.entries, "basal")| + |NonZero(Select(row.entries, "bolus"))|
      && forall d :: d in records ==> WellFormedDose(d)
  {
    var basal := Collect("basal", row.time, Select(row.entries, "basal")).value;
    var bolus := Collect("bolus", row.time, Select(BolusRow(row).entries, "bolus")).value;
    var merged := BasalDoses(basal) + BolusDoses(bolus);
    var records := InsulinRecords(row).value;
    assert records == SortBy(merged, DoseStart);
    forall d | d in records
      ensures WellFormedDose(d)
    {
      assert d in multiset(records);
      MergedDoseShape(basal, bolus, d);
    }
  }

  /** A temporary basal lasting `BasalDuration` minutes, or a bolus that ends when it starts. */
  predicate WellFormedDose(d: Dose) {
    (d.kind == TempBasal && d.end == d.start + BasalDuration) || (d.kind == Bolus && d.end == d.start)
  }

  lemma MergedDoseShape(basal: seq<Sample>, bolus: seq<Sample>, d: Dose)
    requires d in BasalDoses(basal) + BolusDoses(bolus)
    ensures WellFormedDose(d)
  {
    if d in BasalDoses(basal) {
      var k :| 0 <= k < |basal| && BasalDoses(basal)[k] == d;
    } else {
      var k :| 0 <= k < |bolus| && BolusDoses(bolus)[k] == d;
    }
  }

  /** The unpack fails exactly when the row has no basal cell and no non-zero bolus cell. */
  lemma NoDosesIffNoCells(row: Row)
    requires InsulinRecords(row).Ok?
    ensures InsulinData(row) == Err(NoDoses) <==>
      |Select(row.entries, "basal")| == 0 && |NonZero(Select(row.entries, "bolus"))| == 0
  {
    InsulinRecordsShape(row);
  }

  // ---------------------------------------------------------------------------
  // The simulator's input

  /** The constant settings dictionary of `get_input_dict`. */
  datatype SimulatorSettings = SimulatorSettings(
    model: seq<int>,
    momentumDataInterval: real,
    suspendThreshold: Option<real>,
    dynamicCarbAbsorptionEnabled: bool,
    retrospectiveCorrectionIntegrationInterval: int,
    recencyInterval: int,
    retrospectiveCorrectionGroupingInterval: int,
    rateRounder: real,
    insulinDelay: int,
    carbDelay: int,
    defaultAbsorptionTimes: seq<real>,
    maxBasalRate: real,
    maxBolus: real,
    retrospectiveCorrectionEnabled: bool)

  /**
   * The record `get_input_dict` builds for one subject. Schedule times are
   * minutes after midnight (`datetime.time(0, 0)` is 0); a setting that could
   * not be derived (a non-finite float) is `None`.
   */
  datatype TherapyInput = TherapyInput(
    carbValueUnits: string,
    settings: SimulatorSettings,
    sensitivityStartTimes: seq<int>,
    sensitivityEndTimes: seq<int>,
    sensitivityValues: seq<Option<real>>,
    sensitivityUnits: string,
    carbRatioStartTimes: seq<int>,
    carbRatioValues: seq<Option<real>>,
    carbRatioUnits: string,
    basalStartTimes: seq<int>,
    basalMinutes: seq<int>,
    basalValues: seq<Option<real>>,
    targetStartTimes: seq<int>,
    targetEndTimes: seq<int>,
    targetMinimums: seq<real>,
    targetMaximums: seq<real>,
    targetUnits: string,
    lastTemporaryBasal: seq<Dose>)

  const MinutesPerDay: int := 24 * 60

  /**
   * `get_input_dict`: one schedule entry per setting, each starting at
   * midnight; the basal rate runs for the whole day; the insulin model is the
   * duration of insulin action with peak 75; the target range lies inside the
   * range it names.
   */
  function GetInputDict(dia: int, sensitivity: Option<real>, carbRatio: Option<real>, basal: Option<real>): (r: TherapyInput)
    ensures r.sensitivityValues == [sensitivity] && r.carbRatioValues == [carbRatio] && r.basalValues == [basal]
    ensures r.settings.model == [dia, 75]
    ensures r.sensitivityStartTimes == r.carbRatioStartTimes == r.basalStartTimes == r.targetStartTimes == [0]
    ensures r.basalMinutes == [MinutesPerDay]
    ensures |r.targetMinimums| == |r.targetMaximums| == 1 && r.targetMinimums[0] <= r.targetMaximums[0]
  {
    TherapyInput(
      "g",
      SimulatorSettings([dia, 75], 15.0, None, true, 30, 15, 30, 0.05, 10, 0, [120.0, 180.0, 240.0], 2.5, 12.0, true),
      [0], [0], [sensitivity], "mg/dL/U",
      [0], [carbRatio], "g/U",
      [0], [1440], [basal],
      [0], [0], [100.0], [114.0], "mg/dL",
      [])
  }

  /** Everything `get_prediction_output` hands to the simulator. */
  datatype SimulatorInput = SimulatorInput(
    therapy: TherapyInput,
    timeToCalculateAt: int,
    glucose: seq<Sample>,
    doses: DoseColumns,
    carbs: seq<Sample>,
    carbAbsorptionTimes: seq<int>)

  /** Default carbohydrate absorption time in minutes, used for every carb entry. */
  const CarbAbsorptionTime: int := 180

  /** The carb cells that take part: those left after dropping the zero-valued ones. */
  function CarbRow(row: Row): Row {
    Row(row.time, row.id, DropZeros(row.entries, "carbs"))
  }

  /** The input `get_prediction_output` assembles, or the error raised while assembling it. */
  function PredictionInput(row: Row, therapy: TherapyInput, timeToCalculate: Option<int>): Result<SimulatorInput, LoopError> {
    var at := if timeToCalculate.Some? then timeToCalculate.value else row.time;
    match SortedCollect("CGM", row.time, Select(row.entries, "CGM"))
    case Err(e) => Err(e)
    case Ok(glucose) =>
      match InsulinData(row)
      case Err(e) => Err(e)
      case Ok(doses) =>
        match SortedCollect("carbs", row.time, Select(CarbRow(row).entries, "carbs"))
        case Err(e) => Err(e)
        case Ok(carbs) =>
          Ok(SimulatorInput(therapy, at, glucose, doses, carbs, seq(|carbs|, _ => CarbAbsorptionTime)))
  }

  /** `get_prediction_output`: assembles the simulator input and returns its predicted glucose values. */
  method GetPredictionOutput(row: Row, therapy: TherapyInput, timeToCalculate: Option<int>,
                             simulate: SimulatorInput -> seq<real>)
    returns (r: Result<seq<real>, LoopError>)
    ensures r == match PredictionInput(row, therapy, timeToCalculate)
                 case Err(e) => Err(e)
                 case Ok(input) => Ok(simulate(input))
  {
    var at := if timeToCalculate.Some? then timeToCalculate.value else row.time;
    var glucose := GetDatesAndValues("CGM", row);
    if glucose.Err? {
      return Err(glucose.error);
    }
    var doses := GetInsulinData(row);
    if doses.Err? {
      return Err(doses.error);
    }
    var carbs := GetDatesAndValues("carbs", CarbRow(row));
    if carbs.Err? {
      return Err(carbs.error);
    }
    var absorption := seq(|carbs.value|, _ => CarbAbsorptionTime);
    r := Ok(simulate(SimulatorInput(therapy, at, glucose.value, doses.value, carbs.value, absorption)));
  }

  /** The carb list handed to the simulator: the non-zero carb cells, sorted by date, each with the default absorption time. */
  lemma CarbInputShape(row: Row, therapy: TherapyInput, timeToCalculate: Option<int>)
    requires PredictionInput(row, therapy, timeToCalculate).Ok?
    ensures var input := PredictionInput(row, therapy, timeToCalculate).value;
      && |input.carbs| == |NonZero(Select(row.entries, "carbs"))|
      && SortedBy(input.carbs, SampleDate)
      && |input.carbAbsorptionTimes| == |input.carbs|
      && forall k :: 0 <= k < |input.carbs| ==> input.carbs[k].value != 0.0 && input.carbAbsorptionTimes[k] == CarbAbsorptionTime
  {
    var cells := Select(CarbRow(row).entries, "carbs");
    PredictionCarbs(row, therapy, timeToCalculate);
    var carbs := SortedCollect("carbs", row.time, cells).value;
    var collected := Collect("carbs", row.time, cells).value;
    assert |collected| == |NonZero(Select(row.entries, "carbs"))|;
    if |collected| > 0 {
      SortedNonZero(collected);
    }
  }

  /** Where the carb fields of the simulator input come from. */
  lemma PredictionCarbs(row: Row, therapy: TherapyInput, timeToCalculate: Option<int>)
    requires PredictionInput(row, therapy, timeToCalculate).Ok?
    ensures var cells := Select(CarbRow(row).entries, "carbs");
      var input := PredictionInput(row, therapy, timeToCalculate).value;
      && SortedCollect("carbs", row.time, cells).Ok?
      && input.carbs == SortedCollect("carbs", row.time, cells).value
      && input.carbAbsorptionTimes == seq(|input.carbs|, _ => CarbAbsorptionTime)
  {
  }

  /** Sorting keeps every value non-zero. */
  lemma SortedNonZero(s: seq<Sample>)
    requires forall k :: 0 <= k < |s| ==> s[k].value != 0.0
    ensures forall k :: 0 <= k < |SortBy(s, SampleDate)| ==> SortBy(s, SampleDate)[k].value != 0.0
  {
    var r := SortBy(s, SampleDate);
    forall k | 0 <= k < |r|
      ensures r[k].value != 0.0
    {
      assert r[k] in multiset(s);
    }
  }
}
