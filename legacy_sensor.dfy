/** The coordinator and sensor of
    KVV_Departure_Monitor/custom_components/KVV_Departure_Monitor/sensor.py:
    a coordinator that keeps the last non-empty departure list and an
    availability flag, and the two display properties over the data it
    exposes. */
module LegacySensor {
  import opened Outcomes
  import opened Json
  import Api

  datatype ApiStatus = Unknown | Up | Unreachable
  {
    /** The string stored in `api_status`. */
    function Name(): string
    {
      match this
      case Unknown => "unknown"
      case Up => "ok"
      case Unreachable => "unreachable"
    }
  }

  /** `if departures:` — a fetch that returned a non-empty list. */
  predicate IsFresh(outcome: Api.Refresh)
  {
    outcome.Returned? && |outcome.departures| > 0
  }

  /** The cache after a history of refresh outcomes: the most recent
      non-empty list, or [] when there has been none. */
  function CacheAfter(history: seq<Api.Refresh>): seq<JValue>
    decreases |history|
  {
    if |history| == 0 then []
    else if IsFresh(history[|history| - 1]) then history[|history| - 1].departures
    else CacheAfter(history[..|history| - 1])
  }

  /** `api_status` after a history of refresh outcomes. */
  function StatusAfter(history: seq<Api.Refresh>): ApiStatus
  {
    if |history| == 0 then Unknown
    else if IsFresh(history[|history| - 1]) then Up
    else Unreachable
  }

  /** `KVVDataCoordinator`: `_last_successful_data` and `api_status`, with
      the history of outcomes as a ghost record of what has happened. */
  class DataCoordinator {
    const stationId: string
    var lastSuccessfulData: seq<JValue>
    var apiStatus: ApiStatus
    ghost var history: seq<Api.Refresh>

    ghost predicate Valid()
      reads this
    {
      lastSuccessfulData == CacheAfter(history) && apiStatus == StatusAfter(history)
    }

    constructor (stationId: string)
      ensures Valid() && history == [] && this.stationId == stationId
      ensures lastSuccessfulData == [] && apiStatus == Unknown
    {
      this.stationId := stationId;
      lastSuccessfulData := [];
      apiStatus := Unknown;
      history := [];
    }

    /** `_async_update_data` with the outcome of the departure request. */
    method UpdateData(outcome: Api.Refresh) returns (data: seq<JValue>)
      requires Valid()
      modifies this
      ensures Valid() && history == old(history) + [outcome]
      ensures data == lastSuccessfulData
      ensures IsFresh(outcome) ==> lastSuccessfulData == outcome.departures && apiStatus == Up
      ensures !IsFresh(outcome) ==> lastSuccessfulData == old(lastSuccessfulData) && apiStatus == Unreachable
    {
      history := history + [outcome];
      match outcome {
        case Returned(departures) =>
          if |departures| > 0 {
            lastSuccessfulData := departures;
            apiStatus := Up;
            return departures;
          } else {
            apiStatus := Unreachable;
            return lastSuccessfulData;
          }
        case Raised(_) =>
          apiStatus := Unreachable;
          return lastSuccessfulData;
      }
    }
  }

  /** Empty results and exceptions never touch the cache. */
  lemma {:induction false} CacheKeptThroughFailures(history: seq<Api.Refresh>, later: seq<Api.Refresh>)
    requires forall j :: 0 <= j < |later| ==> !IsFresh(later[j])
    ensures CacheAfter(history + later) == CacheAfter(history)
    decreases |later|
  {
    if |later| == 0 {
      assert history + later == history;
    } else {
      var init := later[..|later| - 1];
      assert (history + later)[..|history + later| - 1] == history + init;
      CacheKeptThroughFailures(history, init);
    }
  }

  /** The cache is empty exactly until the first non-empty result. */
  lemma {:induction false} CacheEmptyIffNothingFresh(history: seq<Api.Refresh>)
    ensures CacheAfter(history) == [] <==> forall j :: 0 <= j < |history| ==> !IsFresh(history[j])
    decreases |history|
  {
    if |history| > 0 {
      var init := history[..|history| - 1];
      CacheEmptyIffNothingFresh(init);
      assert forall j :: 0 <= j < |init| ==> init[j] == history[j];
    }
  }

  /** The cache holds the most recent non-empty result. */
  lemma {:induction false} CacheIsMostRecentFresh(history: seq<Api.Refresh>, i: nat)
    requires i < |history| && IsFresh(history[i])
    requires forall j :: i < j < |history| ==> !IsFresh(history[j])
    ensures CacheAfter(history) == history[i].departures
    decreases |history|
  {
    if i < |history| - 1 {
      var init := history[..|history| - 1];
      assert forall j :: i < j < |init| ==> init[j] == history[j];
      CacheIsMostRecentFresh(init, i);
    }
  }

  /** The status is "unknown" only before the first refresh, and "ok"
      exactly when the latest outcome was a non-empty list. */
  lemma StatusFollowsLastOutcome(history: seq<Api.Refresh>)
    ensures StatusAfter(history) == Unknown <==> history == []
    ensures StatusAfter(history) == Up <==> |history| > 0 && IsFresh(history[|history| - 1])
    ensures StatusAfter(history) == Unreachable <==> |history| > 0 && !IsFresh(history[|history| - 1])
  {
  }

  /** A first refresh that fails leaves the data empty and the status
      "unreachable", without raising. */
  lemma FirstRefreshFailing(outcome: Api.Refresh)
    requires !IsFresh(outcome)
    ensures CacheAfter([outcome]) == [] && StatusAfter([outcome]) == Unreachable
  {
  }

  // ---------------------------------------------------------------------
  // KVVSensor display
  // ---------------------------------------------------------------------

  /** `native_value` calls `.get` on the first departure, which must be a dict. */
  predicate FirstIsDict(data: Option<seq<JValue>>)
  {
    data.Some? && |data.value| > 0 ==> data.value[0].JObj?
  }

  /** `native_value`: "Keine Abfahrten" exactly when there is no data;
      otherwise "<line> → <direction> (<countdown> Min)" for the first
      departure. */
  function NativeValue(data: Option<seq<JValue>>): (r: string)
    requires FirstIsDict(data)
    ensures r == "Keine Abfahrten" <==> data.None? || |data.value| == 0
    ensures data.Some? && |data.value| > 0 ==>
              var dep := data.value[0].fields;
              r == Str(Get(dep, "line", JStr("?"))) + " → " + Str(Get(dep, "direction", JStr("Unbekannt")))
                   + " (" + Str(Get(dep, "countdown", JStr("?"))) + " Min)"
  {
    if data.Some? && |data.value| > 0 then
      var dep := data.value[0].fields;
      var line := Get(dep, "line", JStr("?"));
      var direction := Get(dep, "direction", JStr("Unbekannt"));
      var countdown := Get(dep, "countdown", JStr("?"));
      var text := Str(line) + " → " + Str(direction) + " (" + Str(countdown) + " Min)";
      assert text[|text| - 5..] == " Min)";
      assert "Keine Abfahrten"[10..] != " Min)";
      text
    else
      "Keine Abfahrten"
  }

  /** A departure without a countdown is shown with "(? Min)". */
  lemma MissingCountdownShowsQuestionMark(data: Option<seq<JValue>>)
    requires FirstIsDict(data)
    requires data.Some? && |data.value| > 0 && "countdown" !in data.value[0].fields
    ensures var r := NativeValue(data); |r| >= 7 && r[|r| - 7..] == "(? Min)"
  {
    var dep := data.value[0].fields;
    var head := Str(Get(dep, "line", JStr("?"))) + " → " + Str(Get(dep, "direction", JStr("Unbekannt"))) + " ";
    assert Str(Get(dep, "countdown", JStr("?"))) == "?";
    assert NativeValue(data) == head + "(? Min)";
  }

  /** Once any refresh has returned departures, the data the coordinator
      exposes is never the "Keine Abfahrten" placeholder again. */
  lemma FreshDataIsAlwaysShown(history: seq<Api.Refresh>, i: nat)
    requires i < |history| && IsFresh(history[i])
    requires FirstIsDict(Some(CacheAfter(history)))
    ensures NativeValue(Some(CacheAfter(history))) != "Keine Abfahrten"
  {
    CacheEmptyIffNothingFresh(history);
  }

  /** One entry of `abfahrten`. */
  datatype AttributeItem = AttributeItem(linie: JValue, richtung: JValue, countdownMinuten: JValue, echtzeit: JValue)

  /** `extra_state_attributes`. */
  datatype StateAttributes = StateAttributes(station: string, stationId: string, apiStatus: string, abfahrten: seq<AttributeItem>)

  /** `self.coordinator.data or []` */
  function DeparturesOrEmpty(data: Option<seq<JValue>>): seq<JValue>
  {
    if data.Some? then data.value else []
  }

  /** The renamed fields of one departure; a missing field is None. */
  function ItemOf(dep: JValue): AttributeItem
    requires dep.JObj?
  {
    AttributeItem(
      Get(dep.fields, "line", JNull),
      Get(dep.fields, "direction", JNull),
      Get(dep.fields, "countdown", JNull),
      Get(dep.fields, "realtime", JNull))
  }

  /** `extra_state_attributes`: station metadata, the status, and one item
      per departure in the same order. Every departure must be a dict. */
  method ExtraStateAttributes(stopName: string, stationId: string, status: ApiStatus, data: Option<seq<JValue>>)
    returns (attrs: StateAttributes)
    requires forall i :: 0 <= i < |DeparturesOrEmpty(data)| ==> DeparturesOrEmpty(data)[i].JObj?
    ensures attrs.station == stopName && attrs.stationId == stationId && attrs.apiStatus == status.Name()
    ensures |attrs.abfahrten| == |DeparturesOrEmpty(data)|
    ensures forall k :: 0 <= k < |attrs.abfahrten| ==> attrs.abfahrten[k] == ItemOf(DeparturesOrEmpty(data)[k])
  {
    var departures := DeparturesOrEmpty(data);
    attrs := StateAttributes(stopName, stationId, status.Name(), []);
    for i := 0 to |departures|
      invariant attrs.station == stopName && attrs.stationId == stationId && attrs.apiStatus == status.Name()
      invariant |attrs.abfahrten| == i
      invariant forall k :: 0 <= k < i ==> attrs.abfahrten[k] == ItemOf(departures[k])
    {
      var dep := departures[i];
      attrs := attrs.(abfahrten := attrs.abfahrten + [AttributeItem(
        Get(dep.fields, "line", JNull),
        Get(dep.fields, "direction", JNull),
        Get(dep.fields, "countdown", JNull),
        Get(dep.fields, "realtime", JNull))]);
    }
  }
}
