# KVV departure monitor — a Dafny model

This project models the logic of the KVV departure monitor, a Home Assistant
integration that polls the KVV (Karlsruhe) EFA transit API. It covers the
client that turns upstream JSON into station and departure records, the two
coordinator variants that refresh departures, the sensors that display them,
and the setup/options flows that build the stored line filter and refresh
interval. Decoded JSON is the datatype `Json.JValue`. Python's truthiness,
`dict.get(key, default)` and `str()` are written out in `Json`.

Modules, one per source file plus helpers:

- `Outcomes` — `Option` and `Result`. Raised exceptions become `Err`/`None` values.
- `PyStr` — `str(int)`, `int(str)`, `str.zfill`, and the `in` test for substrings.
- `Json` — the `JValue` datatype, truthiness, `.get`, hashability and `str()`.
- `Api` — `custom_components/kvv_departure_monitor/api.py`:
  - the `_get` acceptance check;
  - station search;
  - the departure board, with its line filter and its partial result on exception;
  - serving-line extraction.
- `LegacySensor` — `KVV_Departure_Monitor/custom_components/KVV_Departure_Monitor/sensor.py`:
  - the caching coordinator, a class whose `UpdateData` updates `lastSuccessfulData` and `apiStatus`;
  - `native_value` and `extra_state_attributes`.
- `Sensor` — `custom_components/kvv_departure_monitor/sensor.py`:
  - the stateless coordinator;
  - the refresh interval;
  - the `HH:MM` `native_value`.
- `ConfigFlow` — `custom_components/kvv_departure_monitor/config_flow.py`:
  - `station_mapping`;
  - the serving-line option loop and the selection;
  - the user, station and lines steps, as a class;
  - the interval validator of the options flow.

The loops of `get_points_by_name`, `get_departures_by_station_id` and
`async_step_lines` are `method`s with loops (`Api.GetPointsByName`,
`Api.GetDeparturesByStationId`, `ConfigFlow.ExampleConfigFlow.LinesStep`).
Each is proved equal to a specification function (`Api.StationsOf`,
`Api.Scan`, `ConfigFlow.ScanLines`) written as "the result for the list
without its last element, then the last element". The loop invariant is then
`acc == Spec(xs[..i])`, and the lemmas about those functions state the
properties. The loop of the legacy `extra_state_attributes`
(`LegacySensor.ExtraStateAttributes`) is specified item by item instead. The
comprehensions (`station_mapping`, the selected lines and the filter set) are
functions: `ConfigFlow.StationMapping`, `ConfigFlow.SelectLines` and
`Api.AllowedPairs`.

In these places the code behaves differently from what a reader might
expect:
- Without a line filter, a departure entry without `servingLine` is not skipped. It produces a record with line "?" and direction "Unbekannt" (`Api.MissingServingLineGivesPlaceholders`). Under a filter the same entry is looked up as the pair `(None, None)`, so it is normally dropped; it is kept only when that pair is in the allowed set (`Api.MissingServingLineUnderFilter`).
- An empty allowed set filters nothing: the loop tests the set's truthiness before the lookup (`Api.EmptyFilterIsNoFilter`).
- The departure loop ends early when an entry, its `servingLine` or its `liErgRiProj` is not a dict. Under a line filter it also ends early when the entry's `(line, direction)` pair cannot be hashed for the set lookup, for example because one of them is a list. Everything after that entry is lost too (`Api.DepartureStepRaises`, `Api.StopsAtFirstRaise`).
- The two coordinators really do differ. The legacy one keeps the last non-empty list and marks an empty result "unreachable". The other one exposes `[]` after a failure and does not cache (`Sensor.StatelessForgetsWhatLegacyKeeps`).

## Model

| member | source | states |
|---|---|---|
| `PyStr.IntToString` | custom_components/kvv_departure_monitor/sensor.py:89-90 | `str()` of an int is an optional minus followed by digits, without leading zeros, and a one-digit int is one character |
| `PyStr.ParseIntOfIntToString` | custom_components/kvv_departure_monitor/config_flow.py:216 | `int(str(n)) == n`, the round trip that `vol.Coerce(int)` relies on for decimal text |
| `PyStr.ParseIntRejectsNoDigits` | custom_components/kvv_departure_monitor/config_flow.py:216 | `int()` refuses "" and a lone sign |
| `PyStr.ZFill` | custom_components/kvv_departure_monitor/sensor.py:89-90 | `zfill(width)` keeps strings already that wide. Otherwise the result is exactly `width` long: the sign stays in front, then '0' padding, then the rest of the input |
| `PyStr.ZFillTwo` | custom_components/kvv_departure_monitor/sensor.py:89-90 | `zfill(2)` gives at least two characters, puts "0" before one digit, and leaves "??" unchanged |
| `PyStr.Contains` | custom_components/kvv_departure_monitor/api.py:27-30 | the `in` test on strings holds exactly when the needle occurs at some position |
| `Api.Fetch` | custom_components/kvv_departure_monitor/api.py:20-40 | the body is passed on iff status is 200 and the Content-Type value contains "application/json" or "text/json", the integration's own test. Otherwise the result is the status error, the content-type error, the timeout or the client error |
| `Api.ApplicationJsonAccepted` | custom_components/kvv_departure_monitor/api.py:26-30 | "application/json" followed by any parameters is accepted |
| `Api.ShortContentTypeRefused` | custom_components/kvv_departure_monitor/api.py:26-30 | a missing Content-Type (the "" default) or any shorter than "text/json" is refused |
| `Api.NormalisePoints` | custom_components/kvv_departure_monitor/api.py:57-67 | the points cannot be read (a TypeError, wrapped) exactly when `point` is None, a boolean or a number. A string `point` gives one point per character |
| `Api.PointShapesAgree` | custom_components/kvv_departure_monitor/api.py:57-67 | for any dict, whatever its other keys: a `point` object becomes a one-element list, and a `point` list is used as it is. A missing `point` gives no points, a string `point` gives one one-character string per character, and a None, boolean or number `point` raises. A bare list is used as it is, and any other `points` value gives no points |
| `Api.StationOf` | custom_components/kvv_departure_monitor/api.py:78-95 | a kept entry yields exactly `{name, id}` from its own `name` and `ref.id`, both truthy |
| `Api.StationsOfPicks` | custom_components/kvv_departure_monitor/api.py:69-96 | each returned station is `StationOf` the entry at the matching picked position, that entry is a real stop with name and id, and there are never more stations than points |
| `Api.StationIndicesOrderedAndComplete` | custom_components/kvv_departure_monitor/api.py:69-96 | picked positions rise strictly, so order is kept, and every entry that is a stop with name and id is picked |
| `Api.NonDictPointsYieldNoStations` | custom_components/kvv_departure_monitor/api.py:70-72 | entries that are not dicts are all skipped |
| `Api.StringPointsYieldNoStations` | custom_components/kvv_departure_monitor/api.py:60-72 | a string `point` is iterated character by character and yields no station |
| `Api.GetPointsByName` | custom_components/kvv_departure_monitor/api.py:52-99 | request errors pass through. A falsy body gives []. A body whose `stopFinder`/`points` cannot be read gives the wrapped processing error. Otherwise the result is the station list of the normalised points |
| `Api.AllowedPairs` | custom_components/kvv_departure_monitor/api.py:137-139 | the filter set is exactly the `(line_id, dir)` pairs of the allowed lines. It is non-empty for a non-empty list, and absent when an entry lacks a key or is unhashable |
| `Api.DepartureStep` | custom_components/kvv_departure_monitor/api.py:141-161 | without a filter, or with an empty allowed set, an entry is never skipped. An entry that yields a record yields exactly the record built from its own fields |
| `Api.DepartureStepRaises` | custom_components/kvv_departure_monitor/api.py:141-150 | an entry raises iff it, its `servingLine` or its `liErgRiProj` is not a dict, or, under a non-empty filter, its `(line, direction)` pair is unhashable |
| `Api.EmptyFilterIsNoFilter` | custom_components/kvv_departure_monitor/api.py:149 | an empty allowed set gives the same step as no filter, and without a filter an entry yields a record iff its pair can be read |
| `Api.FilterMatchesExactPair` | custom_components/kvv_departure_monitor/api.py:146-150 | under a non-empty filter, a well-formed entry is kept iff its exact `(line, direction)` pair is in the set |
| `Api.MissingServingLineGivesPlaceholders` | custom_components/kvv_departure_monitor/api.py:142-160 | without a filter, an entry without `servingLine` is kept, with line "?" and direction "Unbekannt". A missing countdown becomes "?" and a missing realtime becomes false |
| `Api.MissingServingLineUnderFilter` | custom_components/kvv_departure_monitor/api.py:142-149 | under a non-empty filter, an entry without `servingLine` has the pair `(None, None)`. It is skipped iff that pair is not allowed, and kept iff it is |
| `Api.Scan` | custom_components/kvv_departure_monitor/api.py:141-162 | the loop never produces more records than there are entries |
| `Api.ScanAbortsIffSomeEntryRaises` | custom_components/kvv_departure_monitor/api.py:141-166 | the loop ends early iff some entry raises |
| `Api.ScanComplete` | custom_components/kvv_departure_monitor/api.py:141-162 | every entry before the first raise that yields a record is among the kept positions. With `Api.ScanPicks`, the records are exactly those of the emitting entries up to the first raise |
| `Api.ScanPicks` | custom_components/kvv_departure_monitor/api.py:141-162 | each returned departure is the record of an emitted entry, and the entries appear in list order |
| `Api.FilteredDeparturesHaveAllowedPairs` | custom_components/kvv_departure_monitor/api.py:137-150 | with a non-empty filter, every returned departure comes from an entry whose exact pair is in the allowed set |
| `Api.UnfilteredScanIsOneToOne` | custom_components/kvv_departure_monitor/api.py:141-162 | without a filter and with dict-shaped entries, there is one record per entry, in order |
| `Api.ScanGrowsByPrefix` | custom_components/kvv_departure_monitor/api.py:141-166 | the records gathered after any prefix are a prefix of the final records. Once the loop has raised, nothing more is added |
| `Api.StopsAtFirstRaise` | custom_components/kvv_departure_monitor/api.py:164-166 | an exception in the loop returns exactly the departures gathered before it |
| `Api.DepartureBoard` | custom_components/kvv_departure_monitor/api.py:124-162 | a non-empty board comes from a dict body whose `departureList` is a list, and it has no more records than that list has entries |
| `Api.DepartureBoardOnlyFailsInRequest` | custom_components/kvv_departure_monitor/api.py:124-166 | the board fails iff the request failed, with the same error. A falsy body, a body that is not a dict, a `departureList` that is not a list, and a malformed filter each give [] |
| `Api.GetDeparturesByStationId` | custom_components/kvv_departure_monitor/api.py:124-166 | the method with its loop computes exactly `DepartureBoard` |
| `Api.RefreshOf` | custom_components/kvv_departure_monitor/api.py:152-161 | the coordinators receive one dict per record, in order, or the request's exception |
| `Api.GetServingLines` | custom_components/kvv_departure_monitor/api.py:186-196 | request errors pass through. A falsy body gives []. A truthy body that is not a dict raises, and so does a `servingLines` value that is not a dict. Otherwise the result is the list at `servingLines.lines` when it is a list, and [] when it is not |
| `LegacySensor.DataCoordinator.constructor` | KVV_Departure_Monitor/custom_components/KVV_Departure_Monitor/sensor.py:40-43 | the cache starts as [] and the status as "unknown" |
| `LegacySensor.DataCoordinator.UpdateData` | KVV_Departure_Monitor/custom_components/KVV_Departure_Monitor/sensor.py:45-66 | a non-empty list replaces the cache, sets "ok" and is returned. An empty list or an exception keeps the cache, sets "unreachable" and returns the cache. The cache/status invariant over the whole history is kept |
| `LegacySensor.CacheKeptThroughFailures` | KVV_Departure_Monitor/custom_components/KVV_Departure_Monitor/sensor.py:57-66 | any run of empty results and exceptions leaves the cache unchanged |
| `LegacySensor.CacheEmptyIffNothingFresh` | KVV_Departure_Monitor/custom_components/KVV_Departure_Monitor/sensor.py:42-66 | the cache is [] iff no refresh so far returned a non-empty list |
| `LegacySensor.CacheIsMostRecentFresh` | KVV_Departure_Monitor/custom_components/KVV_Departure_Monitor/sensor.py:53-56 | the cache is the most recent non-empty result |
| `LegacySensor.StatusFollowsLastOutcome` | KVV_Departure_Monitor/custom_components/KVV_Departure_Monitor/sensor.py:43-63 | the status is "unknown" iff there has been no refresh, and "ok" iff the last outcome was a non-empty list. Otherwise it is "unreachable" |
| `LegacySensor.FirstRefreshFailing` | KVV_Departure_Monitor/custom_components/KVV_Departure_Monitor/sensor.py:62-66 | a failing first refresh leaves [] and "unreachable" |
| `LegacySensor.NativeValue` | KVV_Departure_Monitor/custom_components/KVV_Departure_Monitor/sensor.py:84-94 | "Keine Abfahrten" iff data is None or empty. Otherwise the text is `line → direction (countdown Min)` of the first departure, with "?", "Unbekannt" and "?" for missing fields |
| `LegacySensor.MissingCountdownShowsQuestionMark` | KVV_Departure_Monitor/custom_components/KVV_Departure_Monitor/sensor.py:92-93 | a departure without a countdown shows as "(? Min)" |
| `LegacySensor.FreshDataIsAlwaysShown` | KVV_Departure_Monitor/custom_components/KVV_Departure_Monitor/sensor.py:84-94 | after any non-empty refresh, the exposed data never shows the "Keine Abfahrten" placeholder again |
| `LegacySensor.ExtraStateAttributes` | KVV_Departure_Monitor/custom_components/KVV_Departure_Monitor/sensor.py:97-117 | the attributes carry station, id and status name. `abfahrten` has one item per departure in the same order, with line/direction/countdown/realtime renamed. None data counts as [] |
| `Sensor.UpdateData` | custom_components/kvv_departure_monitor/sensor.py:55-67 | the API result is returned unchanged, and an exception gives [] |
| `Sensor.StatelessForgetsWhatLegacyKeeps` | custom_components/kvv_departure_monitor/sensor.py:55-67 | after a failure this coordinator exposes [], while the legacy one still holds its last non-empty list |
| `Sensor.UpdateInterval` | custom_components/kvv_departure_monitor/sensor.py:44-46 | the interval is the `update_interval` option when set, otherwise the default |
| `Sensor.ClockFieldShape` | custom_components/kvv_departure_monitor/sensor.py:89-90 | hour and minute are at least two wide. A missing field shows "??", a one-digit number or digit string gets a leading "0", and wider strings stay as they are |
| `Sensor.NativeValue` | custom_components/kvv_departure_monitor/sensor.py:80-98 | "Keine Daten" iff there is no data, and "Unbekannt" iff the first departure's countdown is missing or None. Otherwise the text is `line → direction HH:MM in countdown Min`, with the zero-filled clock fields of `Sensor.ClockFieldShape` and "?" for a missing line or direction |
| `ConfigFlow.StationMapping` | custom_components/kvv_departure_monitor/config_flow.py:70 | the name→id dict can be built iff every name is hashable |
| `ConfigFlow.StationMappingLastWins` | custom_components/kvv_departure_monitor/config_flow.py:70 | each found name is a key, mapped to the id of the last station with that name |
| `ConfigFlow.StationMappingKeys` | custom_components/kvv_departure_monitor/config_flow.py:70 | every key is the name of some found station |
| `ConfigFlow.ClassifyLine` | custom_components/kvv_departure_monitor/config_flow.py:129-157 | a dict-shaped entry whose `mode.diva.line`, `mode.diva.dir`, `mode.number` and `mode.destination` are all truthy is stored as "number → destination" with `{line: number, line_id, dir}`, and every stored choice has those three fields truthy |
| `ConfigFlow.ClassifyLineRaises` | custom_components/kvv_departure_monitor/config_flow.py:129-131 | a serving line raises iff it, its `mode` or its `diva` is not a dict |
| `ConfigFlow.CompleteEntryHasAllFields` | custom_components/kvv_departure_monitor/config_flow.py:129-157 | an option exists only if `mode.diva.line`, `mode.diva.dir`, `mode.number` and `mode.destination` are present and truthy. It is labelled "number → destination" and stores `{line: number, line_id, dir}` |
| `ConfigFlow.MissingModeOrDivaIsSkipped` | custom_components/kvv_departure_monitor/config_flow.py:130-148 | a missing `mode` or `diva` counts as {} and the entry is skipped, not raised on |
| `ConfigFlow.CompleteLabelsMembers` | custom_components/kvv_departure_monitor/config_flow.py:147-151 | a label is offered iff some complete entry carries it |
| `ConfigFlow.LineMapKeysAreCompleteLabels` | custom_components/kvv_departure_monitor/config_flow.py:129-157 | the line map's keys are exactly the labels of the complete entries |
| `ConfigFlow.LaterEntryWins` | custom_components/kvv_departure_monitor/config_flow.py:153-157 | when labels collide, the later entry's line is stored |
| `ConfigFlow.StoredLinesAreComplete` | custom_components/kvv_departure_monitor/config_flow.py:147-157 | every stored line has a truthy number, line id and direction |
| `ConfigFlow.LinesFailIffSomeEntryMalformed` | custom_components/kvv_departure_monitor/config_flow.py:129-131 | the lines step raises in its loop iff some serving line is not dict-shaped |
| `ConfigFlow.LinesStopAtFirstMalformed` | custom_components/kvv_departure_monitor/config_flow.py:129-131 | the first entry that is not dict-shaped raises, and the line map stays as it was before that entry |
| `ConfigFlow.SelectLines` | custom_components/kvv_departure_monitor/config_flow.py:162-165 | the selected labels are translated through the line map in selection order, and an unknown label raises |
| `ConfigFlow.LinesErrorsOverwrite` | custom_components/kvv_departure_monitor/config_flow.py:111-119 | a failed serving-lines request ends with `errors["base"] == "no_lines_found"`, which overwrites "api_error" |
| `ConfigFlow.ExampleConfigFlow.constructor` | custom_components/kvv_departure_monitor/config_flow.py:24-30 | the flow starts with no search, no points and no selected station |
| `ConfigFlow.ExampleConfigFlow.UserStep` | custom_components/kvv_departure_monitor/config_flow.py:32-58 | without input nothing changes and the empty form is shown. Otherwise the search name and result are stored. No result gives "no_points_found". A failed search, or an exception in the station step it calls, gives "api_error". Otherwise the flow moves on to the station choice |
| `ConfigFlow.ExampleConfigFlow.StationStep` | custom_components/kvv_departure_monitor/config_flow.py:60-95 | with no points, the flow goes back to the search form. A chosen name is translated through `station_mapping` and stored, and then the lines step runs. An unknown name raises. The search fields are never touched, and the selection and line map stay as they were on every path that returns or raises before assigning them |
| `ConfigFlow.ExampleConfigFlow.LinesStep` | custom_components/kvv_departure_monitor/config_flow.py:97-180 | it aborts with "station_not_set" when no station is selected. It rebuilds the line map from the serving lines. Its result is the form, the created entry exactly `{stop_name, station_id, serving_lines}`, or the exception |
| `ConfigFlow.CoerceInt` | custom_components/kvv_departure_monitor/config_flow.py:216 | `vol.Coerce(int)` refuses None, lists, dicts and strings that `int()` cannot parse. It takes numbers as they are, booleans as 0/1, and strings through `int()` |
| `ConfigFlow.ValidInterval` | custom_components/kvv_departure_monitor/config_flow.py:216 | a value is accepted iff `int()` coercion succeeds and gives 10 ≤ n ≤ 300 |
| `ConfigFlow.IntervalAcceptedIffInRange` | custom_components/kvv_departure_monitor/config_flow.py:216 | a number, or its decimal text, is accepted exactly when it lies in [10, 300] |
| `ConfigFlow.OptionsInit` | custom_components/kvv_departure_monitor/config_flow.py:198-216 | without input the form shows the stored interval, or the default. A submitted value is stored iff it passes the schema, and then only as the coerced `update_interval`. Otherwise it is rejected |
| `ConfigFlow.StoredIntervalReachesCoordinator` | custom_components/kvv_departure_monitor/config_flow.py:198-216 | an interval stored by the options flow lies in [10, 300], and it is exactly what the coordinator reads back |

## Left out

- `Api.ContentType`: looks up the exact key "Content-Type". The HTTP client's header lookup ignores case, so a reply whose header is spelled "content-type" is refused here but accepted by the source.
- `Api.Fetch`: the HTTP client's `json()` checks the content type again and expects an `application/…json` media type. So a reply the integration's substring test lets through, such as "text/json", fails there with a client error, which the source reports as "Fehler bei der API-Anfrage". The model passes such a body on.
- HTTP plumbing of `_get`: the aiohttp session, the request parameters, the 15-second timeout, `response.text()` and JSON decoding. A request is the `Api.Transport` value handed in. A body that is not JSON is not modelled.
- The Home Assistant lifecycle: `async_setup_entry` in both sensor files, `__init__.py`, `hass.data`, and platform forwarding.
- The `DataUpdateCoordinator` machinery: scheduling, `async_request_refresh`, listeners and `async_on_remove`. The model covers one update step. The coordinator's `data` is passed to the display functions as a value (`None` before the first refresh).
- Logging, the rendering of forms, and `async_show_form`/`async_create_entry`. Only the values handed to them are modelled, as `FlowResult`/`OptionsResult`.
- The options step itself stores `user_input` as it receives it (custom_components/kvv_departure_monitor/config_flow.py:200-202). The coercion and range check of its schema are applied by the host's flow manager before the step runs. `ConfigFlow.OptionsInit` folds that validation into the step.
- The older config flow in custom_components/KVV_Departure_Monitor/config_flow.py. It duplicates the name→id mapping.
- `DEFAULT_UPDATE_INTERVAL` comes from the package's constants module, which is not modelled, so it is a parameter.
- The `api.py` imported by the legacy sensor is not part of this model. That coordinator is given the outcome of a departure request as an `Api.Refresh`.
- `extra_state_attributes` of custom_components/kvv_departure_monitor/sensor.py:103-105. It reads `self._station_name`, which is never assigned (line 75 assigns a local `self_station_name`), so it always raises.
- JSON numbers are integers. Floats and `str()` of a float are not modelled.
- Python equality across types (`True == 1`) is not modelled. Values compare structurally.
- `Json.Str`: `str()` of a list or dict renders as "[...]"/"{...}", not Python's repr.
- `PyStr.ParseInt`: models `int()` on an optional sign and ASCII digits only. Surrounding whitespace, underscores and non-ASCII digits are refused here but accepted by Python.
- `ConfigFlow.ExampleConfigFlow.StationStep`: the order of the station choices is not kept (a set), and neither is the order of the line options (a map). The form lists both in insertion order.
- `Sensor.NativeValue` requires the first departure, and its `dateTime`, to be dicts: the code calls `.get` on both without a check. The API can deliver `dateTime` as None, and then the property raises. That exception is not modelled.
- `LegacySensor.NativeValue` requires the first departure to be a dict, for the same reason.
- `LegacySensor.ExtraStateAttributes` requires every departure to be a dict, for the same reason.
