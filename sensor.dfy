/** The coordinator and sensor of custom_components/kvv_departure_monitor/sensor.py:
    a coordinator that keeps nothing between refreshes, its refresh
    interval, and the "next departure" text. */
module Sensor {
  import opened Outcomes
  import opened Json
  import opened PyStr
  import Api
  import LegacySensor

  /** `_async_update_data`: the departure list as returned, or [] when the
      request raised. */
  function UpdateData(outcome: Api.Refresh): (data: seq<JValue>)
    ensures outcome.Returned? ==> data == outcome.departures
    ensures outcome.Raised? ==> data == []
  {
    match outcome
    case Returned(departures) => departures
    case Raised(_) => []
  }

  /** The two coordinators disagree after a failure: this one exposes [],
      the legacy one keeps showing its last non-empty list. */
  lemma StatelessForgetsWhatLegacyKeeps(history: seq<Api.Refresh>, i: nat, failure: Api.Refresh)
    requires i < |history| && LegacySensor.IsFresh(history[i])
    requires failure.Raised?
    ensures UpdateData(failure) == []
    ensures LegacySensor.CacheAfter(history + [failure]) != []
  {
    LegacySensor.CacheEmptyIffNothingFresh(history);
    assert (history + [failure])[..|history|] == history;
  }

  /** The refresh interval in seconds: the entry option "update_interval"
      when it is set, otherwise the integration default. */
  function UpdateInterval(options: map<string, JValue>, defaultInterval: int): (seconds: JValue)
    ensures "update_interval" in options ==> seconds == options["update_interval"]
    ensures "update_interval" !in options ==> seconds == JNum(defaultInterval)
  {
    Get(options, "update_interval", JNum(defaultInterval))
  }

  /** `native_value` calls `.get` on the first departure and on its
      `dateTime` without checking either; both must be dicts. */
  predicate Renderable(data: Option<seq<JValue>>)
  {
    data.Some? && |data.value| > 0 ==>
      data.value[0].JObj? && Get(data.value[0].fields, "dateTime", JNull).JObj?
  }

  /** `str(dt.get(key, "??")).zfill(2)` */
  function ClockField(dt: map<string, JValue>, key: string): string
  {
    ZFill(Str(Get(dt, key, JStr("??"))), 2)
  }

  /** Hour and minute are at least two characters wide: a missing field
      shows "??", a single-digit number or digit string gains a leading "0",
      and a wider value is kept as it is. */
  lemma ClockFieldShape(dt: map<string, JValue>, key: string)
    ensures |ClockField(dt, key)| >= 2
    ensures key !in dt ==> ClockField(dt, key) == "??"
    ensures key in dt && dt[key].JNum? && 0 <= dt[key].n < 10 ==>
              ClockField(dt, key) == ['0', DigitChar(dt[key].n)]
    ensures key in dt && dt[key].JStr? && |dt[key].s| == 1 && IsDigit(dt[key].s[0]) ==>
              ClockField(dt, key) == ['0', dt[key].s[0]]
    ensures key in dt && dt[key].JStr? && |dt[key].s| >= 2 ==> ClockField(dt, key) == dt[key].s
  {
    ZFillTwo(Str(Get(dt, key, JStr("??"))));
  }

  /** `native_value`: "Keine Daten" exactly when there is no data,
      "Unbekannt" exactly when the first departure's countdown is missing or
      None, and otherwise "<line> → <direction> <hour>:<minute> in
      <countdown> Min" for the first departure. */
  function NativeValue(data: Option<seq<JValue>>): (r: string)
    requires Renderable(data)
    ensures r == "Keine Daten" <==> data.None? || |data.value| == 0
    ensures r == "Unbekannt" <==>
              data.Some? && |data.value| > 0 && Get(data.value[0].fields, "countdown", JNull) == JNull
    ensures data.Some? && |data.value| > 0 && Get(data.value[0].fields, "countdown", JNull) != JNull ==>
              var first := data.value[0].fields;
              var dt := Get(first, "dateTime", JNull).fields;
              r == Str(Get(first, "line", JStr("?"))) + " → " + Str(Get(first, "direction", JStr("?")))
                   + " " + ClockField(dt, "hour") + ":" + ClockField(dt, "minute")
                   + " in " + Str(Get(first, "countdown", JNull)) + " Min"
  {
    if data.None? || |data.value| == 0 then "Keine Daten"
    else
      var first := data.value[0].fields;
      var dt := Get(first, "dateTime", JNull).fields;
      var hour := ClockField(dt, "hour");
      var minute := ClockField(dt, "minute");
      var countdown := Get(first, "countdown", JNull);
      var line := Get(first, "line", JStr("?"));
      var direction := Get(first, "direction", JStr("?"));
      if countdown != JNull then
        var text := Str(line) + " → " + Str(direction) + " " + hour + ":" + minute + " in " + Str(countdown) + " Min";
        assert text[|text| - 4..] == " Min";
        assert "Keine Daten"[7..] != " Min";
        assert "Unbekannt"[5..] != " Min";
        text
      else
        "Unbekannt"
  }
}
