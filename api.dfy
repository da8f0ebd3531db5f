/** The KVV client (custom_components/kvv_departure_monitor/api.py): the
    acceptance test of `_get`, and the three functions that turn a decoded
    upstream reply into stations, departures and serving lines. The HTTP
    request itself is the `Transport` value handed in. */
module Api {
  import opened Outcomes
  import opened Json
  import opened PyStr

  /** The exceptions a request can end in. */
  datatype ApiError =
    | HttpStatus(status: int)                    // "HTTP <status> bei Anfrage an <url>"
    | UnexpectedContentType(contentType: string) // "Unerwarteter Content-Type (...)"
    | Timeout                                    // "Timeout bei der API-Anfrage"
    | ClientFailure                              // "Fehler bei der API-Anfrage: ..."
    | ProcessingFailed                           // "Fehler beim Verarbeiten der Daten: ..."
    | AttributeFailure                           // `.get` on a value that is not a dict, not caught

  /** What the HTTP session delivers for one GET: a response with its status,
      headers and decoded JSON body, or a transport failure. */
  datatype Transport =
    | Response(status: int, headers: map<string, string>, body: JValue)
    | TimedOut
    | ConnectionFailed

  /** `response.headers.get("Content-Type", "")` */
  function ContentType(headers: map<string, string>): string
  {
    if "Content-Type" in headers then headers["Content-Type"] else ""
  }

  predicate IsJsonContentType(contentType: string)
  {
    Contains(contentType, "application/json") || Contains(contentType, "text/json")
  }

  /** `_get`: the body is handed on only for status 200 with a JSON content type. */
  function Fetch(reply: Transport): (r: Result<JValue, ApiError>)
    ensures r.Ok? <==> reply.Response? && reply.status == 200 && IsJsonContentType(ContentType(reply.headers))
    ensures r.Ok? ==> r.value == reply.body
    ensures reply.Response? && reply.status != 200 ==> r == Err(HttpStatus(reply.status))
    ensures reply.Response? && reply.status == 200 && !r.Ok? ==> r == Err(UnexpectedContentType(ContentType(reply.headers)))
    ensures reply.TimedOut? ==> r == Err(Timeout)
    ensures reply.ConnectionFailed? ==> r == Err(ClientFailure)
  {
    match reply
    case TimedOut => Err(Timeout)
    case ConnectionFailed => Err(ClientFailure)
    case Response(status, headers, body) =>
      if status != 200 then Err(HttpStatus(status))
      else if !IsJsonContentType(ContentType(headers)) then Err(UnexpectedContentType(ContentType(headers)))
      else Ok(body)
  }

  /** Any content type that starts with "application/json", such as
      "application/json; charset=utf-8", is accepted. */
  lemma ApplicationJsonAccepted(parameters: string)
    ensures IsJsonContentType("application/json" + parameters)
  {
    assert OccursAt("application/json" + parameters, "application/json", 0);
  }

  /** A content type shorter than "text/json" (such as the missing header, "")
      contains neither marker, so it is refused. */
  lemma ShortContentTypeRefused(contentType: string)
    requires |contentType| < |"text/json"|
    ensures !IsJsonContentType(contentType)
  {
  }

  // ---------------------------------------------------------------------
  // Station search (`get_points_by_name`)
  // ---------------------------------------------------------------------

  datatype Station = Station(name: JValue, id: JValue)

  /** Python iteration over a value that is not a dict: a list yields its
      items, a string its one-character strings; None, booleans and numbers
      are not iterable (TypeError, None here). */
  function Iterate(v: JValue): Option<seq<JValue>>
    requires !v.JObj?
  {
    match v
    case JList(xs) => Some(xs)
    case JStr(s) => Some(seq(|s|, i requires 0 <= i < |s| => JStr([s[i]])))
    case _ => None
  }

  /** The shape normalisation of `stopFinder.points`: an object holding
      `point` as a single object or a list, a bare list, or anything else. */
  function NormalisePoints(pointsData: JValue): (r: Option<seq<JValue>>)
    ensures r.None? <==>
              pointsData.JObj? && var point := Get(pointsData.fields, "point", EmptyList);
              (point.JNull? || point.JBool? || point.JNum?)
    ensures pointsData.JObj? && Get(pointsData.fields, "point", EmptyList).JStr? ==>
              r.Some? && |r.value| == |Get(pointsData.fields, "point", EmptyList).s|
  {
    match pointsData
    case JObj(m) =>
      var point := Get(m, "point", EmptyList);
      if point.JObj? then Some([point]) else Iterate(point)
    case JList(xs) => Some(xs)
    case _ => Some([])
  }

  /** For any dict `m`: a `point` object becomes a one-element list; a
      `point` list is used as it is, whatever its length and whatever else
      `m` holds; a missing `point` gives no points; a string `point` is
      iterated character by character; a `point` that cannot be iterated
      raises. A bare list is used as it is, and any other `points` value
      gives no points. */
  lemma PointShapesAgree(m: map<string, JValue>, xs: seq<JValue>)
    ensures "point" in m && m["point"].JObj? ==> NormalisePoints(JObj(m)) == Some([m["point"]])
    ensures "point" in m && m["point"].JList? ==> NormalisePoints(JObj(m)) == Some(m["point"].items)
    ensures "point" !in m ==> NormalisePoints(JObj(m)) == Some([])
    ensures "point" in m && m["point"].JStr? ==>
              var s := m["point"].s;
              NormalisePoints(JObj(m)).Some?
                && |NormalisePoints(JObj(m)).value| == |s|
                && forall i :: 0 <= i < |s| ==> NormalisePoints(JObj(m)).value[i] == JStr([s[i]])
    ensures "point" in m && (m["point"].JNull? || m["point"].JBool? || m["point"].JNum?) ==>
              NormalisePoints(JObj(m)).None?
    ensures NormalisePoints(JList(xs)) == Some(xs)
    ensures forall other: JValue :: !other.JObj? && !other.JList? ==> NormalisePoints(other) == Some([])
  {
  }

  /** The points of a reply body; None where `.get` or the iteration raises. */
  function PointsOf(data: JValue): Option<seq<JValue>>
  {
    if !data.JObj? then None
    else
      var stopFinder := Get(data.fields, "stopFinder", EmptyObj);
      if !stopFinder.JObj? then None
      else NormalisePoints(Get(stopFinder.fields, "points", EmptyObj))
  }

  function RefOf(p: map<string, JValue>): JValue
  {
    Get(p, "ref", EmptyObj)
  }

  /** An entry that survives the filter: a dict of kind "stop" with a truthy
      name and a `ref` dict with a truthy id. */
  predicate IsStationEntry(p: JValue)
  {
    && p.JObj?
    && Get(p.fields, "anyType", JNull) == JStr("stop")
    && Truthy(Get(p.fields, "name", JStr("")))
    && RefOf(p.fields).JObj?
    && Truthy(Get(RefOf(p.fields).fields, "id", JNull))
  }

  /** The record appended for a surviving entry: its own name and ref id. */
  function StationOf(p: JValue): (s: Station)
    requires IsStationEntry(p)
    ensures "name" in p.fields && s.name == p.fields["name"] && Truthy(s.name)
    ensures "ref" in p.fields && "id" in p.fields["ref"].fields && s.id == p.fields["ref"].fields["id"] && Truthy(s.id)
  {
    Station(Get(p.fields, "name", JStr("")), Get(RefOf(p.fields).fields, "id", JNull))
  }

  /** The stations of a points sequence, in order (the loop's `results`). */
  function StationsOf(points: seq<JValue>): seq<Station>
    decreases |points|
  {
    if |points| == 0 then []
    else
      var last := points[|points| - 1];
      StationsOf(points[..|points| - 1]) + (if IsStationEntry(last) then [StationOf(last)] else [])
  }

  /** Positions in `points` of the entries `StationsOf` keeps. */
  function StationIndices(points: seq<JValue>): seq<nat>
    decreases |points|
  {
    if |points| == 0 then []
    else
      StationIndices(points[..|points| - 1]) + (if IsStationEntry(points[|points| - 1]) then [|points| - 1] else [])
  }

  /** The station list is the order-preserving subsequence of the points that
      are stations: element k is `StationOf` the k-th station entry. */
  lemma {:induction false} StationsOfPicks(points: seq<JValue>)
    ensures |StationsOf(points)| == |StationIndices(points)| <= |points|
    ensures forall k :: 0 <= k < |StationIndices(points)| ==>
              && StationIndices(points)[k] < |points|
              && IsStationEntry(points[StationIndices(points)[k]])
              && StationsOf(points)[k] == StationOf(points[StationIndices(points)[k]])
    decreases |points|
  {
    if |points| > 0 {
      var init := points[..|points| - 1];
      StationsOfPicks(init);
      var idx, idx0 := StationIndices(points), StationIndices(init);
      forall k | 0 <= k < |idx|
        ensures idx[k] < |points| && IsStationEntry(points[idx[k]])
        ensures StationsOf(points)[k] == StationOf(points[idx[k]])
      {
        if k < |idx0| {
          assert idx[k] == idx0[k];
          assert init[idx0[k]] == points[idx[k]];
        }
      }
    }
  }

  /** The picked positions are strictly increasing, and every station entry
      is picked. */
  lemma {:induction false} StationIndicesOrderedAndComplete(points: seq<JValue>)
    ensures forall k, l :: 0 <= k < l < |StationIndices(points)| ==> StationIndices(points)[k] < StationIndices(points)[l]
    ensures forall k :: 0 <= k < |StationIndices(points)| ==> StationIndices(points)[k] < |points|
    ensures forall i :: 0 <= i < |points| && IsStationEntry(points[i]) ==> i in StationIndices(points)
    decreases |points|
  {
    if |points| > 0 {
      var init := points[..|points| - 1];
      StationIndicesOrderedAndComplete(init);
      forall i | 0 <= i < |init| && IsStationEntry(points[i])
        ensures i in StationIndices(points)
      {
        assert init[i] == points[i];
      }
    }
  }

  /** Points that are a plain string are iterated character by character and
      none of them is a dict, so no station comes out of them. */
  lemma {:induction false} StringPointsYieldNoStations(s: string)
    ensures Iterate(JStr(s)).Some? && StationsOf(Iterate(JStr(s)).value) == []
  {
    NonDictPointsYieldNoStations(Iterate(JStr(s)).value);
  }

  lemma {:induction false} NonDictPointsYieldNoStations(points: seq<JValue>)
    requires forall i :: 0 <= i < |points| ==> !points[i].JObj?
    ensures StationsOf(points) == []
    decreases |points|
  {
    if |points| > 0 {
      NonDictPointsYieldNoStations(points[..|points| - 1]);
    }
  }

  /** `get_points_by_name` after the request: a falsy body gives no stations,
      a body whose `stopFinder`/`points` cannot be read gives the wrapped
      processing error, and otherwise the station entries of the points. */
  method GetPointsByName(reply: Transport) returns (r: Result<seq<Station>, ApiError>)
    ensures Fetch(reply).Err? ==> r == Err(Fetch(reply).error)
    ensures Fetch(reply).Ok? && !Truthy(Fetch(reply).value) ==> r == Ok([])
    ensures Fetch(reply).Ok? && Truthy(Fetch(reply).value) && PointsOf(Fetch(reply).value).None? ==>
              r == Err(ProcessingFailed)
    ensures Fetch(reply).Ok? && Truthy(Fetch(reply).value) && PointsOf(Fetch(reply).value).Some? ==>
              r == Ok(StationsOf(PointsOf(Fetch(reply).value).value))
  {
    var fetched := Fetch(reply);
    if fetched.Err? {
      return Err(fetched.error);
    }
    var data := fetched.value;
    if !Truthy(data) {
      return Ok([]);
    }
    var normalised := PointsOf(data);
    if normalised.None? {
      return Err(ProcessingFailed);
    }
    var points := normalised.value;
    var results: seq<Station> := [];
    for i := 0 to |points|
      invariant results == StationsOf(points[..i])
    {
      assert points[..i + 1][..i] == points[..i];
      var p := points[i];
      if !p.JObj? {
        continue;
      }
      if Get(p.fields, "anyType", JNull) != JStr("stop") {
        continue;
      }
      var rawName := Get(p.fields, "name", JStr(""));
      if !Truthy(rawName) {
        continue;
      }
      var ref := Get(p.fields, "ref", EmptyObj);
      if !ref.JObj? {
        continue;
      }
      var stationId := Get(ref.fields, "id", JNull);
      if !Truthy(stationId) {
        continue;
      }
      results := results + [Station(rawName, stationId)];
    }
    assert points[..|points|] == points;
    return Ok(results);
  }

  // ---------------------------------------------------------------------
  // Departure board (`get_departures_by_station_id`)
  // ---------------------------------------------------------------------

  /** The record appended per departure; missing fields become placeholders. */
  datatype Departure = Departure(
    line: JValue,
    direction: JValue,
    countdown: JValue,
    realtime: bool,
    dateTime: JValue,
    realDateTime: JValue)
  {
    /** The dict the source appends, as the coordinators receive it. */
    function ToJson(): JValue
    {
      JObj(map[
        "line" := line,
        "direction" := direction,
        "countdown" := countdown,
        "realtime" := JBool(realtime),
        "dateTime" := dateTime,
        "realDateTime" := realDateTime])
    }
  }

  /** A `(line_id, dir)` pair of the line filter. */
  type LinePair = (JValue, JValue)

  /** An `allowed_lines` entry `l` for which `(l["line_id"], l["dir"])` can be
      built and hashed. */
  predicate IsFilterEntry(l: JValue)
  {
    && l.JObj?
    && "line_id" in l.fields && "dir" in l.fields
    && Hashable(l.fields["line_id"]) && Hashable(l.fields["dir"])
  }

  /** The set `{(l["line_id"], l["dir"]) for l in allowed_lines}`; None when
      building it raises for some entry. */
  function AllowedPairs(allowedLines: seq<JValue>): (r: Option<set<LinePair>>)
    ensures r.Some? <==> forall l :: l in allowedLines ==> IsFilterEntry(l)
    ensures r.Some? ==> forall l :: l in allowedLines ==> (l.fields["line_id"], l.fields["dir"]) in r.value
    ensures r.Some? ==> forall pr :: pr in r.value ==>
              exists l :: l in allowedLines && IsFilterEntry(l) && pr == (l.fields["line_id"], l.fields["dir"])
    ensures r.Some? && |allowedLines| > 0 ==> |r.value| > 0
  {
    if forall l :: l in allowedLines ==> IsFilterEntry(l) then
      var pairs := set l | l in allowedLines && IsFilterEntry(l) :: (l.fields["line_id"], l.fields["dir"]);
      assert |allowedLines| > 0 ==> allowedLines[0] in allowedLines;
      Some(pairs)
    else None
  }

  /** `(servingLine.liErgRiProj.line, servingLine.liErgRiProj.direction)` with
      `{}` for a missing level and None for a missing leaf; None when a level
      that `.get` is called on is not a dict. */
  function ProjPair(dep: JValue): Option<LinePair>
  {
    if !dep.JObj? then None
    else
      var serving := Get(dep.fields, "servingLine", EmptyObj);
      if !serving.JObj? then None
      else
        var proj := Get(serving.fields, "liErgRiProj", EmptyObj);
        if !proj.JObj? then None
        else Some((Get(proj.fields, "line", JNull), Get(proj.fields, "direction", JNull)))
  }

  /** The record for a departure entry, with "?", "Unbekannt", "?" and false
      standing in for a missing line, direction, countdown and realtime flag. */
  function DepartureOf(dep: JValue): Departure
    requires ProjPair(dep).Some?
  {
    var serving := Get(dep.fields, "servingLine", EmptyObj);
    Departure(
      Get(serving.fields, "number", JStr("?")),
      Get(serving.fields, "direction", JStr("Unbekannt")),
      Get(dep.fields, "countdown", JStr("?")),
      Truthy(Get(dep.fields, "realtime", JBool(false))),
      Get(dep.fields, "dateTime", JNull),
      Get(dep.fields, "realDateTime", JNull))
  }

  /** What one pass of the departure loop does with an entry. */
  datatype Step = Skip | Emit(departure: Departure) | Raise

  /** Whether `allowed` filters at all: the source tests the set's
      truthiness before it hashes the pair, so an empty set filters nothing. */
  predicate Filters(allowed: Option<set<LinePair>>)
  {
    allowed.Some? && |allowed.value| > 0
  }

  /** One loop pass. `FilterOf` builds Some only from a non-empty
      `allowed_lines`, but an empty set is also read as no filter, as the
      truthiness test in the source does. */
  function DepartureStep(dep: JValue, allowed: Option<set<LinePair>>): (r: Step)
    ensures r.Emit? ==> ProjPair(dep).Some? && r.departure == DepartureOf(dep)
    ensures !Filters(allowed) ==> !r.Skip?
  {
    match ProjPair(dep)
    case None => Raise
    case Some(pair) =>
      if Filters(allowed) && !(Hashable(pair.0) && Hashable(pair.1)) then Raise
      else if Filters(allowed) && pair !in allowed.value then Skip
      else Emit(DepartureOf(dep))
  }

  /** An empty allowed set behaves exactly like no filter. */
  lemma EmptyFilterIsNoFilter(dep: JValue)
    ensures DepartureStep(dep, Some({})) == DepartureStep(dep, None)
    ensures DepartureStep(dep, None).Emit? <==> ProjPair(dep).Some?
  {
  }

  /** An entry raises exactly when one of `dep`, `servingLine` and
      `liErgRiProj` is not a dict, or, under a filter, when its pair cannot
      be hashed for the set lookup. */
  lemma DepartureStepRaises(dep: JValue, allowed: Option<set<LinePair>>)
    ensures DepartureStep(dep, allowed).Raise? <==>
              || ProjPair(dep).None?
              || (Filters(allowed) && !(Hashable(ProjPair(dep).value.0) && Hashable(ProjPair(dep).value.1)))
    ensures ProjPair(dep).None? <==>
              || !dep.JObj?
              || !Get(dep.fields, "servingLine", EmptyObj).JObj?
              || !Get(Get(dep.fields, "servingLine", EmptyObj).fields, "liErgRiProj", EmptyObj).JObj?
  {
  }

  /** Under a filter an entry is kept exactly when its own pair is in the set:
      the same line with another direction, or the same direction on another
      line, is dropped. */
  lemma FilterMatchesExactPair(dep: JValue, allowed: set<LinePair>, pair: LinePair)
    requires |allowed| > 0
    requires ProjPair(dep) == Some(pair) && Hashable(pair.0) && Hashable(pair.1)
    ensures DepartureStep(dep, Some(allowed)).Emit? <==> pair in allowed
    ensures !DepartureStep(dep, Some(allowed)).Raise?
  {
  }

  /** An entry without `servingLine` is not dropped: with no filter it yields
      line "?" and direction "Unbekannt". */
  lemma MissingServingLineGivesPlaceholders(dep: JValue)
    requires dep.JObj? && "servingLine" !in dep.fields
    ensures DepartureStep(dep, None).Emit?
    ensures DepartureStep(dep, None).departure.line == JStr("?")
    ensures DepartureStep(dep, None).departure.direction == JStr("Unbekannt")
    ensures "countdown" !in dep.fields ==> DepartureStep(dep, None).departure.countdown == JStr("?")
    ensures "realtime" !in dep.fields ==> !DepartureStep(dep, None).departure.realtime
  {
  }

  /** Under a filter, the same entry is looked up as the pair
      `(None, None)`: it is kept only when that pair is allowed. */
  lemma MissingServingLineUnderFilter(dep: JValue, allowed: set<LinePair>)
    requires dep.JObj? && "servingLine" !in dep.fields && |allowed| > 0
    ensures ProjPair(dep) == Some((JNull, JNull))
    ensures DepartureStep(dep, Some(allowed)).Skip? <==> (JNull, JNull) !in allowed
    ensures DepartureStep(dep, Some(allowed)).Emit? <==> (JNull, JNull) in allowed
  {
  }

  /** The loop's state after a prefix of the list: the records so far and
      whether an exception has ended the loop. */
  datatype Board = Board(departures: seq<Departure>, aborted: bool)

  function Scan(entries: seq<JValue>, allowed: Option<set<LinePair>>): (b: Board)
    ensures |b.departures| <= |entries|
    decreases |entries|
  {
    if |entries| == 0 then Board([], false)
    else
      var prev := Scan(entries[..|entries| - 1], allowed);
      if prev.aborted then prev
      else
        match DepartureStep(entries[|entries| - 1], allowed)
        case Skip => prev
        case Emit(d) => Board(prev.departures + [d], false)
        case Raise => Board(prev.departures, true)
  }

  /** Positions of the entries whose records `Scan` keeps. */
  function ScanIndices(entries: seq<JValue>, allowed: Option<set<LinePair>>): seq<nat>
    decreases |entries|
  {
    if |entries| == 0 then []
    else
      var init := entries[..|entries| - 1];
      if Scan(init, allowed).aborted then ScanIndices(init, allowed)
      else if DepartureStep(entries[|entries| - 1], allowed).Emit? then ScanIndices(init, allowed) + [|entries| - 1]
      else ScanIndices(init, allowed)
  }

  /** One more pass of the loop, before it has raised. */
  lemma ScanExtend(entries: seq<JValue>, allowed: Option<set<LinePair>>, i: nat)
    requires i < |entries| && !Scan(entries[..i], allowed).aborted
    ensures Scan(entries[..i + 1], allowed) ==
              match DepartureStep(entries[i], allowed)
              case Skip => Scan(entries[..i], allowed)
              case Emit(d) => Board(Scan(entries[..i], allowed).departures + [d], false)
              case Raise => Board(Scan(entries[..i], allowed).departures, true)
  {
    assert entries[..i + 1][..i] == entries[..i];
  }

  /** The loop ends early exactly when some entry raises. */
  lemma {:induction false} ScanAbortsIffSomeEntryRaises(entries: seq<JValue>, allowed: Option<set<LinePair>>)
    ensures Scan(entries, allowed).aborted <==>
              exists i :: 0 <= i < |entries| && DepartureStep(entries[i], allowed).Raise?
    decreases |entries|
  {
    if |entries| > 0 {
      var init := entries[..|entries| - 1];
      ScanAbortsIffSomeEntryRaises(init, allowed);
      assert forall i :: 0 <= i < |init| ==> init[i] == entries[i];
      if DepartureStep(entries[|entries| - 1], allowed).Raise? {
        assert 0 <= |entries| - 1 < |entries|;
      }
    }
  }

  /** Every entry before the first raise whose step emits a record is kept:
      with `ScanPicks`, the records are exactly those of the emitting
      entries up to the first raise. */
  lemma {:induction false} ScanComplete(entries: seq<JValue>, allowed: Option<set<LinePair>>, i: nat)
    requires i < |entries| && !Scan(entries[..i], allowed).aborted
    requires DepartureStep(entries[i], allowed).Emit?
    ensures i in ScanIndices(entries, allowed)
    decreases |entries|
  {
    var init := entries[..|entries| - 1];
    if i == |entries| - 1 {
      assert init == entries[..i];
    } else {
      assert init[..i] == entries[..i];
      assert init[i] == entries[i];
      ScanComplete(init, allowed, i);
    }
  }

  /** Each record is the record of an emitted entry, in list order. */
  lemma {:induction false} ScanPicks(entries: seq<JValue>, allowed: Option<set<LinePair>>)
    ensures |Scan(entries, allowed).departures| == |ScanIndices(entries, allowed)| <= |entries|
    ensures forall k :: 0 <= k < |ScanIndices(entries, allowed)| ==>
              && ScanIndices(entries, allowed)[k] < |entries|
              && DepartureStep(entries[ScanIndices(entries, allowed)[k]], allowed)
                   == Emit(Scan(entries, allowed).departures[k])
    ensures forall k, l :: 0 <= k < l < |ScanIndices(entries, allowed)| ==>
              ScanIndices(entries, allowed)[k] < ScanIndices(entries, allowed)[l]
    decreases |entries|
  {
    if |entries| > 0 {
      var init := entries[..|entries| - 1];
      ScanPicks(init, allowed);
      var idx, idx0 := ScanIndices(entries, allowed), ScanIndices(init, allowed);
      forall k | 0 <= k < |idx|
        ensures idx[k] < |entries|
        ensures DepartureStep(entries[idx[k]], allowed) == Emit(Scan(entries, allowed).departures[k])
      {
        if k < |idx0| {
          assert idx[k] == idx0[k];
          assert init[idx0[k]] == entries[idx[k]];
        }
      }
    }
  }

  /** With a line filter, every returned departure comes from an entry whose
      exact `(line, direction)` pair is in the allowed set. */
  lemma FilteredDeparturesHaveAllowedPairs(entries: seq<JValue>, allowed: set<LinePair>)
    requires |allowed| > 0
    ensures |Scan(entries, Some(allowed)).departures| == |ScanIndices(entries, Some(allowed))|
    ensures forall k :: 0 <= k < |ScanIndices(entries, Some(allowed))| ==> ScanIndices(entries, Some(allowed))[k] < |entries|
    ensures forall k :: 0 <= k < |ScanIndices(entries, Some(allowed))| ==>
              var dep := entries[ScanIndices(entries, Some(allowed))[k]];
              ProjPair(dep).Some? && ProjPair(dep).value in allowed
                && Scan(entries, Some(allowed)).departures[k] == DepartureOf(dep)
  {
    ScanPicks(entries, Some(allowed));
  }

  /** Without a filter, a list whose entries all have dict-shaped
      `servingLine`/`liErgRiProj` (missing counts as `{}`) yields one record
      per entry, in order. */
  lemma {:induction false} UnfilteredScanIsOneToOne(entries: seq<JValue>)
    requires forall i :: 0 <= i < |entries| ==> ProjPair(entries[i]).Some?
    ensures !Scan(entries, None).aborted
    ensures |Scan(entries, None).departures| == |entries|
    ensures forall k :: 0 <= k < |entries| ==> Scan(entries, None).departures[k] == DepartureOf(entries[k])
    decreases |entries|
  {
    if |entries| > 0 {
      var init := entries[..|entries| - 1];
      assert forall i :: 0 <= i < |init| ==> init[i] == entries[i];
      UnfilteredScanIsOneToOne(init);
    }
  }

  /** The records gathered after any prefix of the list are a prefix of the
      final records: an exception only cuts the result short. */
  lemma {:induction false} ScanGrowsByPrefix(entries: seq<JValue>, allowed: Option<set<LinePair>>, i: nat)
    requires i <= |entries|
    ensures Scan(entries[..i], allowed).departures <= Scan(entries, allowed).departures
    ensures Scan(entries[..i], allowed).aborted ==> Scan(entries, allowed) == Scan(entries[..i], allowed)
    decreases |entries| - i
  {
    if i < |entries| {
      ScanGrowsByPrefix(entries, allowed, i + 1);
      assert entries[..i + 1][..i] == entries[..i];
    } else {
      assert entries[..i] == entries;
    }
  }

  /** The first entry whose processing raises ends the loop: the result is
      exactly what was gathered before it, and nothing after it contributes. */
  lemma StopsAtFirstRaise(entries: seq<JValue>, allowed: Option<set<LinePair>>, j: nat)
    requires j < |entries| && DepartureStep(entries[j], allowed) == Raise
    requires !Scan(entries[..j], allowed).aborted
    ensures Scan(entries, allowed) == Board(Scan(entries[..j], allowed).departures, true)
  {
    assert entries[..j + 1][..j] == entries[..j];
    ScanGrowsByPrefix(entries, allowed, j + 1);
  }

  /** The filter of a request: None for "no filter", or the allowed pairs. */
  function FilterOf(allowedLines: seq<JValue>): Option<Option<set<LinePair>>>
  {
    if |allowedLines| == 0 then Some(None)
    else
      match AllowedPairs(allowedLines)
      case None => None
      case Some(pairs) => Some(Some(pairs))
  }

  /** `get_departures_by_station_id` after the request. `allowedLines` is
      `allowed_lines` with None given as the empty list. */
  function DepartureBoard(reply: Transport, allowedLines: seq<JValue>): (r: Result<seq<Departure>, ApiError>)
    ensures r.Ok? && |r.value| > 0 ==>
              && Fetch(reply).Ok? && Fetch(reply).value.JObj?
              && "departureList" in Fetch(reply).value.fields
              && Fetch(reply).value.fields["departureList"].JList?
              && |r.value| <= |Fetch(reply).value.fields["departureList"].items|
  {
    match Fetch(reply)
    case Err(e) => Err(e)
    case Ok(data) =>
      if !Truthy(data) || !data.JObj? then Ok([])
      else
        var departureList := Get(data.fields, "departureList", EmptyList);
        if !departureList.JList? then Ok([])
        else
          match FilterOf(allowedLines)
          case None => Ok([])
          case Some(allowed) => Ok(Scan(departureList.items, allowed).departures)
  }

  /** Once the request succeeded the departure board never fails: a falsy or
      malformed body, a bad filter and an exception in the loop all end in a
      (possibly empty) list. Request errors pass through unchanged. */
  lemma DepartureBoardOnlyFailsInRequest(reply: Transport, allowedLines: seq<JValue>)
    ensures DepartureBoard(reply, allowedLines).Err? <==> Fetch(reply).Err?
    ensures Fetch(reply).Err? ==> DepartureBoard(reply, allowedLines) == Err(Fetch(reply).error)
    ensures Fetch(reply).Ok? && (!Truthy(Fetch(reply).value) || !Fetch(reply).value.JObj?) ==>
              DepartureBoard(reply, allowedLines) == Ok([])
    ensures Fetch(reply).Ok? && FilterOf(allowedLines).None? ==> DepartureBoard(reply, allowedLines) == Ok([])
    ensures Fetch(reply).Ok? && Fetch(reply).value.JObj?
              && !Get(Fetch(reply).value.fields, "departureList", EmptyList).JList? ==>
              DepartureBoard(reply, allowedLines) == Ok([])
  {
  }

  method GetDeparturesByStationId(reply: Transport, allowedLines: seq<JValue>)
    returns (r: Result<seq<Departure>, ApiError>)
    ensures r == DepartureBoard(reply, allowedLines)
  {
    var departures: seq<Departure> := [];
    var fetched := Fetch(reply);
    if fetched.Err? {
      return Err(fetched.error);
    }
    var data := fetched.value;
    if !Truthy(data) {
      return Ok(departures);
    }
    if !data.JObj? {
      return Ok(departures);
    }
    var departureList := Get(data.fields, "departureList", EmptyList);
    if !departureList.JList? {
      return Ok(departures);
    }
    var allowed: Option<set<LinePair>> := None;
    if |allowedLines| > 0 {
      var pairs := AllowedPairs(allowedLines);
      if pairs.None? {
        return Ok(departures);
      }
      allowed := Some(pairs.value);
    }
    var entries := departureList.items;
    assert FilterOf(allowedLines) == Some(allowed);
    assert DepartureBoard(reply, allowedLines) == Ok(Scan(entries, allowed).departures);
    var filtering := allowed.Some? && |allowed.value| > 0;
    assert filtering == Filters(allowed);
    for i := 0 to |entries|
      invariant !Scan(entries[..i], allowed).aborted
      invariant departures == Scan(entries[..i], allowed).departures
    {
      ScanExtend(entries, allowed, i);
      var dep := entries[i];
      if !dep.JObj? {
        StopsAtFirstRaise(entries, allowed, i);
        return Ok(departures);
      }
      var serving := Get(dep.fields, "servingLine", EmptyObj);
      if !serving.JObj? {
        StopsAtFirstRaise(entries, allowed, i);
        return Ok(departures);
      }
      var proj := Get(serving.fields, "liErgRiProj", EmptyObj);
      if !proj.JObj? {
        StopsAtFirstRaise(entries, allowed, i);
        return Ok(departures);
      }
      var lineId := Get(proj.fields, "line", JNull);
      var dirCode := Get(proj.fields, "direction", JNull);
      assert ProjPair(dep) == Some((lineId, dirCode));
      if filtering {
        if !(Hashable(lineId) && Hashable(dirCode)) {
          StopsAtFirstRaise(entries, allowed, i);
          return Ok(departures);
        }
        if (lineId, dirCode) !in allowed.value {
          continue;
        }
      }
      assert DepartureStep(dep, allowed) == Emit(DepartureOf(dep));
      departures := departures + [Departure(
        Get(serving.fields, "number", JStr("?")),
        Get(serving.fields, "direction", JStr("Unbekannt")),
        Get(dep.fields, "countdown", JStr("?")),
        Truthy(Get(dep.fields, "realtime", JBool(false))),
        Get(dep.fields, "dateTime", JNull),
        Get(dep.fields, "realDateTime", JNull))];
    }
    assert entries[..|entries|] == entries;
    return Ok(departures);
  }

  /** What awaiting `get_departures_by_station_id` gives a coordinator:
      the list of departure dicts, or an exception. */
  datatype Refresh = Returned(departures: seq<JValue>) | Raised(error: ApiError)

  /** The departure board as the coordinators receive it. */
  function RefreshOf(board: Result<seq<Departure>, ApiError>): (r: Refresh)
    ensures board.Ok? ==> r.Returned? && |r.departures| == |board.value|
    ensures board.Ok? ==> forall k :: 0 <= k < |board.value| ==> r.departures[k] == board.value[k].ToJson()
    ensures board.Err? ==> r == Raised(board.error)
  {
    match board
    case Ok(deps) => Returned(seq(|deps|, k requires 0 <= k < |deps| => deps[k].ToJson()))
    case Err(e) => Raised(e)
  }

  // ---------------------------------------------------------------------
  // Serving lines (`get_serving_lines`)
  // ---------------------------------------------------------------------

  /** `servingLines.lines` of the reply when it is a list, otherwise []; a
      truthy body (or `servingLines`) that is not a dict raises. */
  function GetServingLines(reply: Transport): (r: Result<seq<JValue>, ApiError>)
    ensures Fetch(reply).Err? ==> r == Err(Fetch(reply).error)
    ensures Fetch(reply).Ok? && !Truthy(Fetch(reply).value) ==> r == Ok([])
    ensures r.Err? && Fetch(reply).Ok? ==> r == Err(AttributeFailure)
    ensures Fetch(reply).Ok? && Truthy(Fetch(reply).value) && !Fetch(reply).value.JObj? ==> r == Err(AttributeFailure)
    ensures Fetch(reply).Ok? && Truthy(Fetch(reply).value) && Fetch(reply).value.JObj? ==>
              var serving := Get(Fetch(reply).value.fields, "servingLines", EmptyObj);
              && (!serving.JObj? ==> r == Err(AttributeFailure))
              && (serving.JObj? ==>
                    var lines := Get(serving.fields, "lines", EmptyList);
                    r == Ok(if lines.JList? then lines.items else []))
    ensures r.Ok? && |r.value| > 0 ==>
              var data := Fetch(reply).value;
              && data.JObj? && "servingLines" in data.fields
              && data.fields["servingLines"].JObj?
              && "lines" in data.fields["servingLines"].fields
              && data.fields["servingLines"].fields["lines"] == JList(r.value)
  {
    match Fetch(reply)
    case Err(e) => Err(e)
    case Ok(data) =>
      if !Truthy(data) then Ok([])
      else if !data.JObj? then Err(AttributeFailure)
      else
        var serving := Get(data.fields, "servingLines", EmptyObj);
        if !serving.JObj? then Err(AttributeFailure)
        else
          var lines := Get(serving.fields, "lines", EmptyList);
          if lines.JList? then Ok(lines.items) else Ok([])
  }
}
