/**
 * Partitioning Tidepool event records by their type tag
 * (src/parsers/tidepool_parser.py), and the fetch boundary that turns any
 * failure into an empty result.
 */
module TidepoolParser {
  import opened Common
  import opened JsonValues

  /** One decoded event record. */
  type Event = map<string, Json>

  /** `data['type']` raises a `KeyError` at the first record without a type. */
  datatype ParseError = MissingType(index: nat)

  /** The four lists `parse_json` returns. */
  datatype Parsed = Parsed(glucose: seq<Event>, bolus: seq<Event>, basal: seq<Event>, carbs: seq<Event>)

  const GlucoseType := "cbg"
  const BolusType := "bolus"
  const BasalType := "basal"
  const CarbType := "food"

  predicate HasType(e: Event, t: string) {
    "type" in e && e["type"] == JStr(t)
  }

  /** A record `parse_json` keeps in one of its lists. */
  predicate Recognised(e: Event) {
    HasType(e, GlucoseType) || HasType(e, BolusType) || HasType(e, BasalType) || HasType(e, CarbType)
  }

  /** The records of type `t`, in input order. */
  function OfType(events: seq<Event>, t: string): (r: seq<Event>)
    ensures forall k :: 0 <= k < |r| ==> HasType(r[k], t)
    ensures |r| <= |events|
  {
    if |events| == 0 then []
    else (if HasType(events[0], t) then [events[0]] else []) + OfType(events[1..], t)
  }

  /** Splitting the input anywhere splits each list the same way: every list keeps input order. */
  lemma {:induction false} OfTypeAppend(a: seq<Event>, b: seq<Event>, t: string)
    ensures OfType(a + b, t) == OfType(a, t) + OfType(b, t)
  {
    if |a| == 0 {
      assert a + b == b;
    } else {
      assert (a + b)[1..] == a[1..] + b;
      OfTypeAppend(a[1..], b, t);
    }
  }

  /** Every record of type `t` is in `OfType(events, t)`. */
  lemma {:induction false} OfTypeComplete(events: seq<Event>, t: string, k: nat)
    requires k < |events| && HasType(events[k], t)
    ensures events[k] in OfType(events, t)
  {
    if k > 0 {
      OfTypeComplete(events[1..], t, k - 1);
    }
  }

  /** How many records carry one of the four recognised types. */
  function RecognisedCount(events: seq<Event>): nat {
    if |events| == 0 then 0
    else (if Recognised(events[0]) then 1 else 0) + RecognisedCount(events[1..])
  }

  /** The index of the first record without a type, if there is one. */
  function FirstUntyped(events: seq<Event>): (r: Option<nat>)
    ensures r.Some? ==> (r.value < |events| && "type" !in events[r.value]
                         && forall k :: 0 <= k < r.value ==> "type" in events[k])
    ensures r.None? ==> forall k :: 0 <= k < |events| ==> "type" in events[k]
  {
    if |events| == 0 then None
    else if "type" !in events[0] then Some(0)
    else match FirstUntyped(events[1..])
      case None => None
      case Some(k) => Some(k + 1)
  }

  /** `parse_json`: one pass over the records, appending each to the list of its type. */
  method ParseJson(userData: seq<Event>) returns (r: Result<Parsed, ParseError>)
    ensures FirstUntyped(userData).Some? <==> r.Err?
    ensures r.Err? ==> r.error == MissingType(FirstUntyped(userData).value)
    ensures r.Ok? ==> r.value == Parsed(OfType(userData, GlucoseType), OfType(userData, BolusType),
                                        OfType(userData, BasalType), OfType(userData, CarbType))
  {
    var glucose, bolus, basal, carbs := [], [], [], [];
    for i := 0 to |userData|
      invariant FirstUntyped(userData[..i]).None?
      invariant glucose == OfType(userData[..i], GlucoseType) && bolus == OfType(userData[..i], BolusType)
      invariant basal == OfType(userData[..i], BasalType) && carbs == OfType(userData[..i], CarbType)
    {
      var data := userData[i];
      assert userData[..i + 1] == userData[..i] + [data];
      TagsDistinct();
      OfTypeStep(userData[..i], data, GlucoseType);
      OfTypeStep(userData[..i], data, BolusType);
      OfTypeStep(userData[..i], data, BasalType);
      OfTypeStep(userData[..i], data, CarbType);
      if "type" !in data {
        PrefixUntyped(userData, i);
        return Err(MissingType(i));
      }
      if data["type"] == JStr(GlucoseType) {
        glucose := glucose + [data];
      } else if data["type"] == JStr(BolusType) {
        bolus := bolus + [data];
      } else if data["type"] == JStr(BasalType) {
        basal := basal + [data];
      } else if data["type"] == JStr(CarbType) {
        carbs := carbs + [data];
      }
      PrefixTyped(userData, i + 1);
    }
    assert userData[..|userData|] == userData;
    return Ok(Parsed(glucose, bolus, basal, carbs));
  }

  /** Appending one record extends exactly the list of its type. */
  lemma OfTypeStep(prefix: seq<Event>, e: Event, t: string)
    ensures OfType(prefix + [e], t) == OfType(prefix, t) + (if HasType(e, t) then [e] else [])
  {
    OfTypeAppend(prefix, [e], t);
    assert [e][1..] == [];
  }

  /** The four type tags are different strings. */
  lemma TagsDistinct()
    ensures GlucoseType != BolusType && GlucoseType != BasalType && GlucoseType != CarbType
    ensures BolusType != BasalType && BolusType != CarbType && BasalType != CarbType
  {
    assert GlucoseType[0] != BolusType[0] && GlucoseType[0] != BasalType[0] && GlucoseType[0] != CarbType[0];
    assert BolusType[1] != BasalType[1] && BolusType[0] != CarbType[0] && BasalType[0] != CarbType[0];
  }

  lemma PrefixTyped(events: seq<Event>, i: nat)
    requires i <= |events| && forall k :: 0 <= k < i ==> "type" in events[k]
    ensures FirstUntyped(events[..i]).None?
  {
  }

  lemma PrefixUntyped(events: seq<Event>, i: nat)
    requires i < |events| && "type" !in events[i] && FirstUntyped(events[..i]).None?
    ensures FirstUntyped(events) == Some(i)
  {
    var p := events[..i];
    forall k | 0 <= k < i ensures "type" in events[k] {
      assert p[k] == events[k];
    }
    FirstAt(events, i);
  }

  lemma {:induction false} FirstAt(events: seq<Event>, i: nat)
    requires i < |events| && "type" !in events[i] && forall k :: 0 <= k < i ==> "type" in events[k]
    ensures FirstUntyped(events) == Some(i)
  {
    if i > 0 {
      FirstAt(events[1..], i - 1);
    }
  }

  /** Records of any other type appear in no list. */
  lemma UnknownTypesDropped(events: seq<Event>, e: Event)
    requires !Recognised(e)
    ensures e !in OfType(events, GlucoseType) && e !in OfType(events, BolusType)
    ensures e !in OfType(events, BasalType) && e !in OfType(events, CarbType)
  {
  }

  /** The four lists together hold exactly the recognised records, each once. */
  lemma {:induction false} ListLengthsAddUp(events: seq<Event>)
    ensures |OfType(events, GlucoseType)| + |OfType(events, BolusType)| + |OfType(events, BasalType)|
          + |OfType(events, CarbType)| == RecognisedCount(events)
  {
    if |events| > 0 {
      ListLengthsAddUp(events[1..]);
    }
  }

  /** What the fetch boundary returns: the normalised tables, or `[]` after any exception. */
  datatype FetchResult<F> = Frames(frames: F) | Empty

  /**
   * `fetch_tidepool_data` past the API call: `events` is the downloaded data
   * or `None` when login or download failed; `normalise` stands for the
   * pandas flattening and column selection, `None` when it fails.
   */
  function Fetch<F>(events: Option<seq<Event>>, normalise: Parsed -> Option<F>): (r: FetchResult<F>)
    ensures r.Empty? <==> events.None? || FirstUntyped(events.value).Some? || normalise(Partition(events.value)).None?
    ensures r.Frames? ==> r.frames == normalise(Partition(events.value)).value
  {
    if events.None? || FirstUntyped(events.value).Some? then Empty
    else match normalise(Partition(events.value))
      case None => Empty
      case Some(f) => Frames(f)
  }

  /** The lists `parse_json` returns when no record lacks a type. */
  function Partition(events: seq<Event>): Parsed {
    Parsed(OfType(events, GlucoseType), OfType(events, BolusType), OfType(events, BasalType), OfType(events, CarbType))
  }
}
