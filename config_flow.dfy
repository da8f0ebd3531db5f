/** The setup and options flows of custom_components/kvv_departure_monitor/config_flow.py:
    choosing a station from a search result, turning the station's serving
    lines into selectable options, storing the selection, and validating
    the refresh interval. Form rendering is reduced to the values shown. */
module ConfigFlow {
  import opened Outcomes
  import opened Json
  import opened PyStr
  import Api
  import Sensor

  /** A stored serving line: `{"line": number, "line_id": ..., "dir": ...}`. */
  datatype LineChoice = LineChoice(line: JValue, lineId: JValue, dir: JValue)

  /** The data of the created config entry. */
  datatype EntryData = EntryData(stopName: JValue, stationId: JValue, servingLines: seq<LineChoice>)

  /** Exceptions that escape a step. */
  datatype FlowError =
    | KeyMissing      // `mapping[key]` with an absent key
    | NotADict        // `.get` on a value that is not a dict
    | Unhashable      // a list or dict used as a dict key

  /** What a step hands back to the host. */
  datatype FlowResult =
    | ShowUserForm(errors: map<string, string>)
    | ShowStationForm(stations: set<JValue>)
    | ShowLinesForm(errors: map<string, string>, options: map<string, string>)
    | CreateEntry(title: string, data: EntryData)
    | Abort(reason: string)
    | Failed(error: FlowError)

  // ---------------------------------------------------------------------
  // station_mapping
  // ---------------------------------------------------------------------

  /** `{p["name"]: p["id"] for p in found_points}`; None when a name cannot
      be a dict key. */
  function StationMapping(points: seq<Api.Station>): (m: Option<map<JValue, JValue>>)
    ensures m.Some? <==> forall i :: 0 <= i < |points| ==> Hashable(points[i].name)
    decreases |points|
  {
    if |points| == 0 then Some(map[])
    else
      var last := points[|points| - 1];
      match StationMapping(points[..|points| - 1])
      case None => None
      case Some(m) => if Hashable(last.name) then Some(m[last.name := last.id]) else None
  }

  /** The mapping's names are exactly the found names, and a name maps to the
      id of the last station carrying it. */
  lemma {:induction false} StationMappingLastWins(points: seq<Api.Station>, i: nat)
    requires StationMapping(points).Some?
    requires i < |points|
    requires forall j :: i < j < |points| ==> points[j].name != points[i].name
    ensures points[i].name in StationMapping(points).value
    ensures StationMapping(points).value[points[i].name] == points[i].id
    decreases |points|
  {
    if i < |points| - 1 {
      var init := points[..|points| - 1];
      assert forall j :: i < j < |init| ==> init[j] == points[j];
      StationMappingLastWins(init, i);
    }
  }

  lemma {:induction false} StationMappingKeys(points: seq<Api.Station>)
    requires StationMapping(points).Some?
    ensures forall n :: n in StationMapping(points).value ==> exists i :: 0 <= i < |points| && points[i].name == n
    decreases |points|
  {
    if |points| > 0 {
      var init := points[..|points| - 1];
      StationMappingKeys(init);
      forall n | n in StationMapping(points).value
        ensures exists i :: 0 <= i < |points| && points[i].name == n
      {
        if n == points[|points| - 1].name {
          assert points[|points| - 1].name == n;
        } else {
          var i :| 0 <= i < |init| && init[i].name == n;
          assert points[i].name == n;
        }
      }
    }
  }

  /** The station step without input: back to the search form when nothing
      was found, otherwise a choice among the found names. */
  function StationForm(points: seq<Api.Station>): FlowResult
  {
    if |points| == 0 then ShowUserForm(map[])
    else
      match StationMapping(points)
      case None => Failed(Unhashable)
      case Some(m) => ShowStationForm(m.Keys)
  }

  // ---------------------------------------------------------------------
  // Serving-line options (`async_step_lines`)
  // ---------------------------------------------------------------------

  /** `f"{number} → {destination}"` */
  function Label(number: JValue, destination: JValue): string
  {
    Str(number) + " → " + Str(destination)
  }

  /** What the loop does with one raw serving line. */
  datatype LineEntry = NotADictEntry | Incomplete | Complete(optionLabel: string, choice: LineChoice)

  /** A stored choice has a truthy line number, line id and direction; a
      dict-shaped entry whose four fields are all truthy is stored. */
  function ClassifyLine(entry: JValue): (r: LineEntry)
    ensures r.Complete? ==> Truthy(r.choice.line) && Truthy(r.choice.lineId) && Truthy(r.choice.dir)
    ensures entry.JObj? ==>
              var mode := Get(entry.fields, "mode", EmptyObj);
              mode.JObj? ==>
                var diva := Get(mode.fields, "diva", EmptyObj);
                var number := Get(mode.fields, "number", JNull);
                var destination := Get(mode.fields, "destination", JNull);
                diva.JObj? ==>
                  var lineId := Get(diva.fields, "line", JNull);
                  var dirCode := Get(diva.fields, "dir", JNull);
                  Truthy(lineId) && Truthy(dirCode) && Truthy(number) && Truthy(destination) ==>
                    r == Complete(Label(number, destination), LineChoice(number, lineId, dirCode))
  {
    if !entry.JObj? then NotADictEntry
    else
      var mode := Get(entry.fields, "mode", EmptyObj);
      if !mode.JObj? then NotADictEntry
      else
        var diva := Get(mode.fields, "diva", EmptyObj);
        if !diva.JObj? then NotADictEntry
        else
          var lineId := Get(diva.fields, "line", JNull);
          var dirCode := Get(diva.fields, "dir", JNull);
          var number := Get(mode.fields, "number", JNull);
          var destination := Get(mode.fields, "destination", JNull);
          if !(Truthy(lineId) && Truthy(dirCode) && Truthy(number) && Truthy(destination)) then Incomplete
          else Complete(Label(number, destination), LineChoice(number, lineId, dirCode))
  }

  /** An entry raises exactly when it, its `mode` or its `diva` is not a
      dict; otherwise it is skipped or stored. */
  lemma ClassifyLineRaises(entry: JValue)
    ensures ClassifyLine(entry).NotADictEntry? <==>
              || !entry.JObj?
              || !Get(entry.fields, "mode", EmptyObj).JObj?
              || !Get(Get(entry.fields, "mode", EmptyObj).fields, "diva", EmptyObj).JObj?
  {
  }

  /** An entry yields an option only when `mode.diva.line`, `mode.diva.dir`,
      `mode.number` and `mode.destination` are all present and truthy; the
      option is labelled "number → destination" and stores those values. */
  lemma CompleteEntryHasAllFields(entry: JValue)
    requires ClassifyLine(entry).Complete?
    ensures entry.JObj? && "mode" in entry.fields
    ensures var mode := entry.fields["mode"];
      && mode.JObj? && "diva" in mode.fields && mode.fields["diva"].JObj?
      && "number" in mode.fields && "destination" in mode.fields
      && "line" in mode.fields["diva"].fields && "dir" in mode.fields["diva"].fields
      && Truthy(mode.fields["number"]) && Truthy(mode.fields["destination"])
      && Truthy(mode.fields["diva"].fields["line"]) && Truthy(mode.fields["diva"].fields["dir"])
      && ClassifyLine(entry).optionLabel == Label(mode.fields["number"], mode.fields["destination"])
      && ClassifyLine(entry).choice
           == LineChoice(mode.fields["number"], mode.fields["diva"].fields["line"], mode.fields["diva"].fields["dir"])
  {
  }

  /** A dict entry without `mode`, or whose `mode` has no `diva`, counts as
      `{}` there and is skipped rather than raising. */
  lemma MissingModeOrDivaIsSkipped(entry: JValue)
    requires entry.JObj?
    requires "mode" !in entry.fields
             || (entry.fields["mode"].JObj? && "diva" !in entry.fields["mode"].fields)
    ensures ClassifyLine(entry) == Incomplete
  {
  }

  /** The loop's state after a prefix of the raw lines: `self._line_map` and
      whether an exception has ended the step. */
  datatype LineScan = LineScan(lineMap: map<string, LineChoice>, failed: bool)

  function ScanLines(raw: seq<JValue>): LineScan
    decreases |raw|
  {
    if |raw| == 0 then LineScan(map[], false)
    else
      var prev := ScanLines(raw[..|raw| - 1]);
      if prev.failed then prev
      else
        match ClassifyLine(raw[|raw| - 1])
        case NotADictEntry => LineScan(prev.lineMap, true)
        case Incomplete => prev
        case Complete(optionLabel, choice) => LineScan(prev.lineMap[optionLabel := choice], false)
  }

  /** One more pass of the loop, before it has raised. */
  lemma ScanLinesExtend(raw: seq<JValue>, i: nat)
    requires i < |raw| && !ScanLines(raw[..i]).failed
    ensures ScanLines(raw[..i + 1]) ==
              match ClassifyLine(raw[i])
              case NotADictEntry => LineScan(ScanLines(raw[..i]).lineMap, true)
              case Incomplete => ScanLines(raw[..i])
              case Complete(optionLabel, choice) => LineScan(ScanLines(raw[..i]).lineMap[optionLabel := choice], false)
  {
    assert raw[..i + 1][..i] == raw[..i];
  }

  /** The step raises exactly when some entry is not dict-shaped. */
  lemma {:induction false} LinesFailIffSomeEntryMalformed(raw: seq<JValue>)
    ensures ScanLines(raw).failed <==> exists i :: 0 <= i < |raw| && ClassifyLine(raw[i]).NotADictEntry?
    decreases |raw|
  {
    if |raw| > 0 {
      var init := raw[..|raw| - 1];
      LinesFailIffSomeEntryMalformed(init);
      assert forall i :: 0 <= i < |init| ==> init[i] == raw[i];
      if ClassifyLine(raw[|raw| - 1]).NotADictEntry? {
        assert 0 <= |raw| - 1 < |raw|;
      }
    }
  }

  /** `options`: every label maps to itself. */
  function OptionsOf(lineMap: map<string, LineChoice>): map<string, string>
  {
    map optionLabel | optionLabel in lineMap :: optionLabel
  }

  lemma OptionsOfStore(lineMap: map<string, LineChoice>, optionLabel: string, choice: LineChoice)
    ensures OptionsOf(lineMap[optionLabel := choice]) == OptionsOf(lineMap)[optionLabel := optionLabel]
  {
  }

  lemma OptionsOfEmpty(lineMap: map<string, LineChoice>)
    ensures |OptionsOf(lineMap)| == 0 <==> |lineMap| == 0
  {
    if |lineMap| != 0 {
      var k :| k in lineMap;
      assert k in OptionsOf(lineMap);
    } else {
      assert lineMap == map[];
      assert OptionsOf(lineMap) == map[];
    }
  }

  /** Labels of the complete entries among `raw`. */
  function CompleteLabels(raw: seq<JValue>): set<string>
    decreases |raw|
  {
    if |raw| == 0 then {}
    else
      var last := ClassifyLine(raw[|raw| - 1]);
      CompleteLabels(raw[..|raw| - 1]) + (if last.Complete? then {last.optionLabel} else {})
  }

  /** A label is among `CompleteLabels` exactly when some complete entry
      carries it. */
  lemma {:induction false} CompleteLabelsMembers(raw: seq<JValue>, optionLabel: string)
    ensures optionLabel in CompleteLabels(raw) <==>
              exists i :: 0 <= i < |raw| && ClassifyLine(raw[i]).Complete?
                && ClassifyLine(raw[i]).optionLabel == optionLabel
    decreases |raw|
  {
    if |raw| > 0 {
      var init := raw[..|raw| - 1];
      CompleteLabelsMembers(init, optionLabel);
      assert forall i :: 0 <= i < |init| ==> init[i] == raw[i];
      var last := ClassifyLine(raw[|raw| - 1]);
      if last.Complete? && last.optionLabel == optionLabel {
        assert ClassifyLine(raw[|raw| - 1]).Complete?;
      }
    }
  }

  /** Without a failure, the line map has one key per distinct label of a
      complete entry, and nothing else. */
  lemma {:induction false} LineMapKeysAreCompleteLabels(raw: seq<JValue>)
    requires !ScanLines(raw).failed
    ensures ScanLines(raw).lineMap.Keys == CompleteLabels(raw)
    decreases |raw|
  {
    if |raw| > 0 {
      LineMapKeysAreCompleteLabels(raw[..|raw| - 1]);
    }
  }

  /** When two entries share a label, the later one wins. */
  lemma {:induction false} LaterEntryWins(raw: seq<JValue>, i: nat)
    requires !ScanLines(raw).failed
    requires i < |raw| && ClassifyLine(raw[i]).Complete?
    requires forall j :: i < j < |raw| && ClassifyLine(raw[j]).Complete? ==>
               ClassifyLine(raw[j]).optionLabel != ClassifyLine(raw[i]).optionLabel
    ensures ClassifyLine(raw[i]).optionLabel in ScanLines(raw).lineMap
    ensures ScanLines(raw).lineMap[ClassifyLine(raw[i]).optionLabel] == ClassifyLine(raw[i]).choice
    decreases |raw|
  {
    if i < |raw| - 1 {
      var init := raw[..|raw| - 1];
      assert forall j :: i < j < |init| ==> init[j] == raw[j];
      assert init[i] == raw[i];
      LaterEntryWins(init, i);
    }
  }

  /** Every stored line has a truthy line number, line id and direction. */
  lemma {:induction false} StoredLinesAreComplete(raw: seq<JValue>)
    ensures forall optionLabel :: optionLabel in ScanLines(raw).lineMap ==>
              var c := ScanLines(raw).lineMap[optionLabel];
              Truthy(c.line) && Truthy(c.lineId) && Truthy(c.dir)
    decreases |raw|
  {
    if |raw| > 0 {
      StoredLinesAreComplete(raw[..|raw| - 1]);
    }
  }

  /** The first entry that is not dict-shaped ends the step, with the line
      map as it was just before that entry. */
  lemma {:induction false} LinesStopAtFirstMalformed(raw: seq<JValue>, j: nat)
    requires j < |raw| && ClassifyLine(raw[j]) == NotADictEntry
    requires !ScanLines(raw[..j]).failed
    ensures ScanLines(raw) == LineScan(ScanLines(raw[..j]).lineMap, true)
    decreases |raw| - j
  {
    if j == |raw| - 1 {
      assert raw[..j] == raw[..|raw| - 1];
    } else {
      var init := raw[..|raw| - 1];
      assert init[..j] == raw[..j];
      assert init[j] == raw[j];
      LinesStopAtFirstMalformed(init, j);
    }
  }

  /** `[self._line_map[k] for k in selected]`; None when a label is unknown. */
  function SelectLines(lineMap: map<string, LineChoice>, selected: seq<string>): (r: Option<seq<LineChoice>>)
    ensures r.Some? <==> forall k :: 0 <= k < |selected| ==> selected[k] in lineMap
    ensures r.Some? ==> |r.value| == |selected|
    ensures r.Some? ==> forall k :: 0 <= k < |selected| ==> r.value[k] == lineMap[selected[k]]
  {
    if forall k :: 0 <= k < |selected| ==> selected[k] in lineMap then
      Some(seq(|selected|, k requires 0 <= k < |selected| => lineMap[selected[k]]))
    else None
  }

  /** `raw` after the serving-lines request: its lines, or [] when it raised. */
  function RawLines(servingLines: Result<seq<JValue>, Api.ApiError>): seq<JValue>
  {
    if servingLines.Ok? then servingLines.value else []
  }

  /** `errors` once the request and the emptiness check have run. */
  function LinesErrors(servingLines: Result<seq<JValue>, Api.ApiError>): map<string, string>
  {
    var afterRequest := if servingLines.Err? then map["base" := "api_error"] else map[];
    if |RawLines(servingLines)| == 0 then afterRequest["base" := "no_lines_found"] else afterRequest
  }

  /** A failed request ends with "no_lines_found", which overwrites
      "api_error"; a request that returned lines reports no error. */
  lemma LinesErrorsOverwrite(servingLines: Result<seq<JValue>, Api.ApiError>)
    ensures servingLines.Err? ==> LinesErrors(servingLines) == map["base" := "no_lines_found"]
    ensures servingLines.Ok? && |servingLines.value| > 0 ==> LinesErrors(servingLines) == map[]
    ensures "api_error" !in LinesErrors(servingLines).Values
  {
  }

  // ---------------------------------------------------------------------
  // The flow object
  // ---------------------------------------------------------------------

  /** `ExampleConfigFlow`: the fields the steps fill in. */
  class ExampleConfigFlow {
    var searchName: Option<string>
    var foundPoints: seq<Api.Station>
    var selectedStationId: JValue
    var selectedStationName: JValue
    var lineMap: map<string, LineChoice>

    constructor ()
      ensures searchName == None && foundPoints == []
      ensures selectedStationId == JNull && selectedStationName == JNull && lineMap == map[]
    {
      searchName := None;
      foundPoints := [];
      selectedStationId := JNull;
      selectedStationName := JNull;
      lineMap := map[];
    }

    /** `async_step_user` with the outcome of the station search. */
    method UserStep(userInput: Option<string>, search: Result<seq<Api.Station>, Api.ApiError>)
      returns (res: FlowResult)
      modifies this
      ensures userInput.None? ==>
                res == ShowUserForm(map[]) && foundPoints == old(foundPoints) && searchName == old(searchName)
      ensures userInput.Some? ==> searchName == userInput
      ensures userInput.Some? && search.Err? ==>
                res == ShowUserForm(map["base" := "api_error"]) && foundPoints == old(foundPoints)
      ensures userInput.Some? && search.Ok? ==> foundPoints == search.value
      ensures userInput.Some? && search.Ok? && |search.value| == 0 ==>
                res == ShowUserForm(map["base" := "no_points_found"])
      ensures userInput.Some? && search.Ok? && |search.value| > 0 && !StationForm(search.value).Failed? ==>
                res == StationForm(search.value)
      ensures userInput.Some? && search.Ok? && |search.value| > 0 && StationForm(search.value).Failed? ==>
                res == ShowUserForm(map["base" := "api_error"])
      ensures selectedStationId == old(selectedStationId) && selectedStationName == old(selectedStationName)
      ensures lineMap == old(lineMap)
    {
      var errors: map<string, string> := map[];
      if userInput.Some? {
        searchName := userInput;
        match search {
          case Ok(points) =>
            foundPoints := points;
            if |foundPoints| == 0 {
              errors := errors["base" := "no_points_found"];
            } else {
              // continues with `async_step_station()` without input; an
              // exception raised there is caught by the same handler
              var next := StationForm(foundPoints);
              if !next.Failed? {
                return next;
              }
              errors := errors["base" := "api_error"];
            }
          case Err(_) =>
            errors := errors["base" := "api_error"];
        }
      }
      return ShowUserForm(errors);
    }

    /** `async_step_station`. A chosen station is stored and the flow goes on
        to the lines step, whose serving-lines request yields `servingLines`. */
    method StationStep(userInput: Option<JValue>, servingLines: Result<seq<JValue>, Api.ApiError>)
      returns (res: FlowResult)
      modifies this
      ensures foundPoints == old(foundPoints) && searchName == old(searchName)
      ensures userInput.None? || |foundPoints| == 0 || StationMapping(foundPoints).None? ==>
                && res == StationForm(foundPoints)
                && selectedStationId == old(selectedStationId) && selectedStationName == old(selectedStationName)
                && lineMap == old(lineMap)
      ensures userInput.Some? && |foundPoints| > 0 && StationMapping(foundPoints).Some? ==>
                if userInput.value !in StationMapping(foundPoints).value then
                  && res == Failed(KeyMissing)
                  && selectedStationId == old(selectedStationId) && selectedStationName == old(selectedStationName)
                  && lineMap == old(lineMap)
                else
                  && selectedStationName == userInput.value
                  && selectedStationId == StationMapping(foundPoints).value[userInput.value]
                  && (!Truthy(selectedStationId) ==> res == Abort("station_not_set") && lineMap == old(lineMap))
                  && (Truthy(selectedStationId) ==> lineMap == ScanLines(RawLines(servingLines)).lineMap)
                  && (Truthy(selectedStationId) && ScanLines(RawLines(servingLines)).failed ==>
                        res == Failed(NotADict))
                  && (Truthy(selectedStationId) && !ScanLines(RawLines(servingLines)).failed ==>
                        res == ShowLinesForm(LinesErrors(servingLines), OptionsOf(lineMap)))
    {
      if |foundPoints| == 0 {
        return ShowUserForm(map[]);
      }
      var stationMapping := StationMapping(foundPoints);
      if stationMapping.None? {
        return Failed(Unhashable);
      }
      if userInput.Some? {
        var selectedName := userInput.value;
        if selectedName !in stationMapping.value {
          return Failed(KeyMissing);
        }
        var selectedId := stationMapping.value[selectedName];
        selectedStationName := selectedName;
        selectedStationId := selectedId;
        res := LinesStep(servingLines, None);
        return;
      }
      return ShowStationForm(stationMapping.value.Keys);
    }

    /** `async_step_lines` with the outcome of the serving-lines request and
        the labels the user selected, if any. */
    method LinesStep(servingLines: Result<seq<JValue>, Api.ApiError>, userInput: Option<seq<string>>)
      returns (res: FlowResult)
      modifies this
      ensures foundPoints == old(foundPoints) && searchName == old(searchName)
      ensures selectedStationId == old(selectedStationId) && selectedStationName == old(selectedStationName)
      ensures !Truthy(selectedStationId) ==> res == Abort("station_not_set") && lineMap == old(lineMap)
      ensures Truthy(selectedStationId) ==>
                var scan := ScanLines(RawLines(servingLines));
                && lineMap == scan.lineMap
                && (scan.failed ==> res == Failed(NotADict))
                && (!scan.failed && |lineMap| == 0 ==> res == ShowLinesForm(LinesErrors(servingLines), map[]))
                && (!scan.failed && |lineMap| > 0 && userInput.None? ==>
                      res == ShowLinesForm(LinesErrors(servingLines), OptionsOf(lineMap)))
                && (!scan.failed && |lineMap| > 0 && userInput.Some? ==>
                      res == match SelectLines(lineMap, userInput.value)
                             case None => Failed(KeyMissing)
                             case Some(selected) =>
                               CreateEntry("KVV: " + Str(selectedStationName),
                                           EntryData(selectedStationName, selectedStationId, selected)))
    {
      var errors: map<string, string> := map[];
      if !Truthy(selectedStationId) {
        return Abort("station_not_set");
      }
      var raw: seq<JValue> := [];
      match servingLines {
        case Ok(lines) => raw := lines;
        case Err(_) => errors := errors["base" := "api_error"];
      }
      if |raw| == 0 {
        errors := errors["base" := "no_lines_found"];
      }
      assert raw == RawLines(servingLines) && errors == LinesErrors(servingLines);
      var options: map<string, string> := map[];
      lineMap := map[];
      for i := 0 to |raw|
        invariant !ScanLines(raw[..i]).failed
        invariant lineMap == ScanLines(raw[..i]).lineMap
        invariant options == OptionsOf(lineMap)
        invariant foundPoints == old(foundPoints) && searchName == old(searchName)
        invariant selectedStationId == old(selectedStationId) && selectedStationName == old(selectedStationName)
      {
        ScanLinesExtend(raw, i);
        var entry := raw[i];
        if !entry.JObj? {
          LinesStopAtFirstMalformed(raw, i);
          return Failed(NotADict);
        }
        var mode := Get(entry.fields, "mode", EmptyObj);
        if !mode.JObj? {
          LinesStopAtFirstMalformed(raw, i);
          return Failed(NotADict);
        }
        var diva := Get(mode.fields, "diva", EmptyObj);
        if !diva.JObj? {
          LinesStopAtFirstMalformed(raw, i);
          return Failed(NotADict);
        }
        var lineId := Get(diva.fields, "line", JNull);
        var dirCode := Get(diva.fields, "dir", JNull);
        var number := Get(mode.fields, "number", JNull);
        var destination := Get(mode.fields, "destination", JNull);
        if !(Truthy(lineId) && Truthy(dirCode) && Truthy(number) && Truthy(destination)) {
          assert ClassifyLine(entry) == Incomplete;
          continue;
        }
        var optionLabel := Label(number, destination);
        assert ClassifyLine(entry) == Complete(optionLabel, LineChoice(number, lineId, dirCode));
        OptionsOfStore(lineMap, optionLabel, LineChoice(number, lineId, dirCode));
        options := options[optionLabel := optionLabel];
        lineMap := lineMap[optionLabel := LineChoice(number, lineId, dirCode)];
      }
      assert raw[..|raw|] == raw;
      OptionsOfEmpty(lineMap);
      if |options| == 0 {
        return ShowLinesForm(errors, options);
      }
      if userInput.Some? {
        var selected := SelectLines(lineMap, userInput.value);
        if selected.None? {
          return Failed(KeyMissing);
        }
        return CreateEntry("KVV: " + Str(selectedStationName),
                           EntryData(selectedStationName, selectedStationId, selected.value));
      }
      return ShowLinesForm(errors, options);
    }
  }

  // ---------------------------------------------------------------------
  // Options flow: the refresh interval
  // ---------------------------------------------------------------------

  /** `vol.Coerce(int)`: ints as they are, booleans as 0/1, strings through
      `int()`; None, lists and dicts are refused. */
  function CoerceInt(v: JValue): (r: Option<int>)
    ensures r.None? <==> v.JNull? || v.JList? || v.JObj? || (v.JStr? && ParseInt(v.s).None?)
    ensures v.JNum? ==> r == Some(v.n)
    ensures v.JStr? ==> r == ParseInt(v.s)
    ensures v.JBool? ==> r == Some(if v.b then 1 else 0)
  {
    match v
    case JNum(n) => Some(n)
    case JBool(b) => Some(if b then 1 else 0)
    case JStr(s) => ParseInt(s)
    case _ => None
  }

  /** `vol.All(vol.Coerce(int), vol.Range(min=10, max=300))` */
  function ValidInterval(v: JValue): (r: Option<int>)
    ensures r.Some? ==> 10 <= r.value <= 300 && CoerceInt(v) == r
    ensures CoerceInt(v).Some? && 10 <= CoerceInt(v).value <= 300 ==> r == CoerceInt(v)
  {
    match CoerceInt(v)
    case None => None
    case Some(n) => if 10 <= n <= 300 then Some(n) else None
  }

  /** An interval is accepted, as a number or as its decimal text, exactly
      when it lies in [10, 300]. */
  lemma IntervalAcceptedIffInRange(n: int)
    ensures ValidInterval(JNum(n)).Some? <==> 10 <= n <= 300
    ensures ValidInterval(JStr(IntToString(n))) == (if 10 <= n <= 300 then Some(n) else None)
  {
    ParseIntOfIntToString(n);
  }

  /** What the options step hands back. */
  datatype OptionsResult =
    | ShowOptionsForm(defaultInterval: JValue)
    | CreateOptions(options: map<string, JValue>)
    | RejectInput

  /** `KVVOptionsFlowHandler.async_step_init`: without input the form shows
      the current interval (or the default); a submitted value passes the
      schema and is stored coerced, or is rejected. */
  function OptionsInit(current: map<string, JValue>, defaultInterval: int, submitted: Option<JValue>): (r: OptionsResult)
    ensures submitted.None? ==> r == ShowOptionsForm(Sensor.UpdateInterval(current, defaultInterval))
    ensures submitted.Some? ==> (r.CreateOptions? <==> ValidInterval(submitted.value).Some?)
    ensures submitted.Some? && !r.CreateOptions? ==> r == RejectInput
    ensures r.CreateOptions? ==>
              submitted.Some? && r.options == map["update_interval" := JNum(ValidInterval(submitted.value).value)]
  {
    match submitted
    case None => ShowOptionsForm(Sensor.UpdateInterval(current, defaultInterval))
    case Some(v) =>
      match ValidInterval(v)
      case None => RejectInput
      case Some(n) => CreateOptions(map["update_interval" := JNum(n)])
  }

  /** An interval stored by the options flow is what the coordinator then
      uses, and it lies in [10, 300]. */
  lemma StoredIntervalReachesCoordinator(current: map<string, JValue>, defaultInterval: int, v: JValue)
    requires OptionsInit(current, defaultInterval, Some(v)).CreateOptions?
    ensures var stored := OptionsInit(current, defaultInterval, Some(v)).options;
      && Sensor.UpdateInterval(stored, defaultInterval).JNum?
      && 10 <= Sensor.UpdateInterval(stored, defaultInterval).n <= 300
      && Sensor.UpdateInterval(stored, defaultInterval) == JNum(CoerceInt(v).value)
  {
  }
}
