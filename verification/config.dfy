/** Configuration refresh: overriding fields of the application configuration
    from a parsed JSON object, normalising min/max pairs, and rate-limiting
    refreshes. Fetching over HTTP and the JSON parser are outside the model: a
    parsed document is a map from keys to values, or None when parsing failed. */
module Config {
  import opened Word32
  import opened Defs
  import opened Options

  /** A parsed JSON value as far as the configuration reads it. */
  datatype JsonValue = JNum(n: int) | JBool(b: bool) | JArray(items: seq<int>)

  type JsonObject = map<string, JsonValue>


  /** The application configuration of this revision. */
  datatype ApplicationConfig = ApplicationConfig(
    enableControl: bool,
    mainLoopMs: U32,
    updateConfigMs: U32,
    maxClosingTries: int,
    doorClosingTimeMs: U32,
    timeBetweenClosingAttemptsMs: U32,
    doorClosingSwitchPressMs: U32,
    maxDoorOpenMs: U32,
    minDoorOpenMs: U32,
    minNotifyPeriodMs: U32,
    debounceReadCount: int,
    debounceReadPauseMs: U32,
    debugLog: bool,
    postLog: bool,
    keepClosedFromTo: ClockWindow,
    sensorRangeValues: Ranges)

  // ---------------------------------------------------------------------------
  // Conversions of the JSON library; a value of another kind reads as 0/false.

  /** Conversion to a signed 32-bit `int`. */
  function ToInt32(x: int): (r: int)
    ensures -0x8000_0000 <= r < 0x8000_0000
    ensures -0x8000_0000 <= x < 0x8000_0000 ==> r == x
  {
    (x + 0x8000_0000) % Modulus - 0x8000_0000
  }

  function AsInt(v: JsonValue): int {
    match v
    case JNum(n) => ToInt32(n)
    case JBool(b) => if b then 1 else 0
    case JArray(_) => 0
  }

  function AsULong(v: JsonValue): U32 {
    match v
    case JNum(n) => Wrap32(n)
    case JBool(b) => if b then 1 else 0
    case JArray(_) => 0
  }

  function AsBool(v: JsonValue): bool {
    match v
    case JNum(n) => n != 0
    case JBool(b) => b
    case JArray(_) => false
  }

  /** Element `i` of an array value, as `int`; 0 when missing. */
  function Element(v: JsonValue, i: nat): int {
    if v.JArray? && i < |v.items| then ToInt32(v.items[i]) else 0
  }

  // ---------------------------------------------------------------------------
  // updateValue, both overloads

  /** The field after the unscaled update: the key's value when present. */
  function UpdateValue<T>(json: JsonObject, key: string, current: T, convert: JsonValue -> T): (r: T)
    ensures key !in json ==> r == current
    ensures key in json ==> r == convert(json[key])
  {
    if key in json then convert(json[key]) else current
  }

  /** The field after the scaled update of an `unsigned long`: the key's value
      times the multiplier, in 32-bit arithmetic, when present. */
  function UpdateScaled(json: JsonObject, key: string, current: U32, multiplier: nat): (r: U32)
    ensures key !in json ==> r == current
    ensures key in json ==> r == Wrap32(AsULong(json[key]) * multiplier)
    ensures key in json && AsULong(json[key]) * multiplier < Modulus ==> r == AsULong(json[key]) * multiplier
  {
    if key in json then Wrap32(AsULong(json[key]) * multiplier) else current
  }

  /** Updating twice from the same document is the same as updating once. */
  lemma UpdateValueIdempotent<T>(json: JsonObject, key: string, current: T, convert: JsonValue -> T)
    ensures UpdateValue(json, key, UpdateValue(json, key, current, convert), convert) ==
            UpdateValue(json, key, current, convert)
  {
  }

  // ---------------------------------------------------------------------------
  // checkAndSwapValues

  function Min(a: int, b: int): int { if a <= b then a else b }
  function Max(a: int, b: int): int { if a <= b then b else a }

  /** Put a min/max pair in order; `reported` says whether a configuration
      error is sent (exactly when the pair was reversed). */
  method CheckAndSwapValues(valMin: int, valMax: int) returns (newMin: int, newMax: int, reported: bool)
    ensures newMin <= newMax
    ensures newMin == Min(valMin, valMax) && newMax == Max(valMin, valMax)
    ensures multiset{newMin, newMax} == multiset{valMin, valMax}
    ensures reported <==> valMax < valMin
    ensures !reported ==> newMin == valMin && newMax == valMax
  {
    newMin, newMax, reported := valMin, valMax, false;
    if newMax < newMin {
      var t := newMax;
      newMax := newMin;
      newMin := t;
      reported := true;
    }
  }

  // ---------------------------------------------------------------------------
  // parseConfig

  /** A sensor range as read from the document when its key is present, before
      it is put in order. */
  function RangeRead(json: JsonObject, key: string, current: Range): Range {
    if key in json then Range(Element(json[key], 0), Element(json[key], 1)) else current
  }

  /** A sensor range as read from the document (when present), then ordered. */
  function RangeUpdate(json: JsonObject, key: string, current: Range): Range {
    var r := RangeRead(json, key, current);
    Range(Min(r.lo, r.hi), Max(r.lo, r.hi))
  }

  /** The configuration after the plain field updates of a parse, before any
      pair is put in order. */
  function FieldsUpdated(c: ApplicationConfig, json: JsonObject): ApplicationConfig {
    c.(enableControl := UpdateValue(json, "EnableControl", c.enableControl, AsBool),
       mainLoopMs := UpdateScaled(json, "MainLoopSec", c.mainLoopMs, 1000),
       updateConfigMs := UpdateScaled(json, "UpdateConfigSec", c.updateConfigMs, 1000),
       maxClosingTries := UpdateValue(json, "MaxClosingTries", c.maxClosingTries, AsInt),
       doorClosingTimeMs := UpdateScaled(json, "DoorClosingTimeSec", c.doorClosingTimeMs, 1000),
       timeBetweenClosingAttemptsMs :=
         UpdateScaled(json, "TimeBetweenClosingAttemptsMin", c.timeBetweenClosingAttemptsMs, 60 * 1000),
       doorClosingSwitchPressMs := UpdateValue(json, "DoorClosingSwitchPressMs", c.doorClosingSwitchPressMs, AsULong),
       maxDoorOpenMs := UpdateScaled(json, "MaxDoorOpenMin", c.maxDoorOpenMs, 60 * 1000),
       minDoorOpenMs := UpdateScaled(json, "MinDoorOpenMin", c.minDoorOpenMs, 60 * 1000),
       minNotifyPeriodMs := UpdateScaled(json, "MinNotifyPeriodSec", c.minNotifyPeriodMs, 1000),
       debounceReadCount := UpdateValue(json, "DebounceReadCount", c.debounceReadCount, AsInt),
       debounceReadPauseMs := UpdateValue(json, "DebounceReadPauseMs", c.debounceReadPauseMs, AsULong),
       debugLog := UpdateValue(json, "DebugLog", c.debugLog, AsBool),
       postLog := UpdateValue(json, "PostLog", c.postLog, AsBool))
  }

  /** The configuration after a successful parse of `json`. */
  function ParsedConfig(c: ApplicationConfig, json: JsonObject): ApplicationConfig {
    var u := FieldsUpdated(c, json);
    var window := if "KeepClosedFromTo" in json
                  then ClockWindow(Element(json["KeepClosedFromTo"], 0), Element(json["KeepClosedFromTo"], 1))
                  else c.keepClosedFromTo;
    u.(minDoorOpenMs := Min(u.minDoorOpenMs, u.maxDoorOpenMs),
       maxDoorOpenMs := Max(u.minDoorOpenMs, u.maxDoorOpenMs),
       keepClosedFromTo := window,
       sensorRangeValues := ParsedRanges(c.sensorRangeValues, json))
  }

  /** The three sensor ranges after a parse, each read when its key is
      present and then ordered. */
  function ParsedRanges(ranges: Ranges, json: JsonObject): Ranges {
    [RangeUpdate(json, "PinRangeDoorOpen", ranges[DoorOpen]),
     RangeUpdate(json, "PinRangeDoorClosed", ranges[DoorClosed]),
     RangeUpdate(json, "PinRangeDoorAjar", ranges[DoorAjar])]
  }

  /** The number of configuration errors a successful parse reports: one per
      min/max pair found reversed before it was put in order. */
  function ParseErrors(c: ApplicationConfig, json: JsonObject): nat {
    var u := FieldsUpdated(c, json);
    (if u.maxDoorOpenMs < u.minDoorOpenMs then 1 else 0) +
    RangeErrors(c.sensorRangeValues, json)
  }

  /** The number of sensor ranges found reversed as read. */
  function RangeErrors(ranges: Ranges, json: JsonObject): nat {
    (if RangeRead(json, "PinRangeDoorOpen", ranges[DoorOpen]).Ordered() then 0 else 1) +
    (if RangeRead(json, "PinRangeDoorClosed", ranges[DoorClosed]).Ordered() then 0 else 1) +
    (if RangeRead(json, "PinRangeDoorAjar", ranges[DoorAjar]).Ordered() then 0 else 1)
  }

  /** A parse that reports no error stores every value exactly as read: the
      durations as updated and each sensor range as given (or kept). */
  lemma NoErrorsMeansAsRead(c: ApplicationConfig, json: JsonObject)
    ensures ParseErrors(c, json) <= 4
    ensures ParseErrors(c, json) == 0 <==>
      var p := ParsedConfig(c, json);
      var u := FieldsUpdated(c, json);
      p.minDoorOpenMs == u.minDoorOpenMs && p.maxDoorOpenMs == u.maxDoorOpenMs &&
      p.sensorRangeValues[DoorOpen] == RangeRead(json, "PinRangeDoorOpen", c.sensorRangeValues[DoorOpen]) &&
      p.sensorRangeValues[DoorClosed] == RangeRead(json, "PinRangeDoorClosed", c.sensorRangeValues[DoorClosed]) &&
      p.sensorRangeValues[DoorAjar] == RangeRead(json, "PinRangeDoorAjar", c.sensorRangeValues[DoorAjar])
  {
  }

  /** Whether a parsed configuration satisfies the normalisation: the open
      durations ordered and every sensor range ordered. */
  predicate Normalised(c: ApplicationConfig) {
    c.minDoorOpenMs <= c.maxDoorOpenMs &&
    forall i :: 0 <= i < DoorStateCount ==> c.sensorRangeValues[i].Ordered()
  }

  /** After a successful parse the durations and every sensor range are in
      order, while the keep-closed window is taken as given, so a window that
      spans midnight survives. */
  lemma ParsedConfigNormalised(c: ApplicationConfig, json: JsonObject)
    ensures Normalised(ParsedConfig(c, json))
    ensures "KeepClosedFromTo" in json ==>
              ParsedConfig(c, json).keepClosedFromTo ==
              ClockWindow(Element(json["KeepClosedFromTo"], 0), Element(json["KeepClosedFromTo"], 1))
    ensures "KeepClosedFromTo" !in json ==> ParsedConfig(c, json).keepClosedFromTo == c.keepClosedFromTo
  {
  }

  /** A document without keys changes nothing in a configuration that is
      already normalised. */
  lemma EmptyDocumentKeepsNormalisedConfig(c: ApplicationConfig)
    requires Normalised(c)
    ensures ParsedConfig(c, map[]) == c
  {
    var r := ParsedConfig(c, map[]);
    assert r.sensorRangeValues[0] == c.sensorRangeValues[0];
    assert r.sensorRangeValues[1] == c.sensorRangeValues[1];
    assert r.sensorRangeValues[2] == c.sensorRangeValues[2];
    assert r.sensorRangeValues == c.sensorRangeValues;
  }

  /** Applying the same document twice may not give the same configuration as
      applying it once: when only the minimum is given and it exceeds the
      current maximum, the first parse swaps the pair and the second parse
      overwrites the swapped-in minimum again. */
  lemma RepeatedParseMayDiffer(c: ApplicationConfig)
    requires c.minDoorOpenMs == 60000 && c.maxDoorOpenMs == 120000
    ensures var json := map["MinDoorOpenMin" := JNum(10)];
      ParsedConfig(c, json).minDoorOpenMs == 120000 &&
      ParsedConfig(c, json).maxDoorOpenMs == 600000 &&
      ParsedConfig(ParsedConfig(c, json), json).minDoorOpenMs == 600000
  {
  }

  // ---------------------------------------------------------------------------
  // updateConfig's rate limit

  /** Whether a refresh goes ahead: when forced, or once a full period has
      elapsed since the last attempt (unsigned subtraction across a wrap). */
  predicate RefreshDue(force: bool, lastUpdateMs: U32, nowMs: U32, periodMs: U32) {
    force || Sub32(nowMs, lastUpdateMs) >= periodMs
  }

  /** After an attempt at t0, an unforced refresh is refused for exactly one
      period, whether or not the attempt succeeded. */
  lemma RefreshSpacing(t0: U32, d: U32, periodMs: U32)
    ensures RefreshDue(false, t0, Add32(t0, d), periodMs) <==> d >= periodMs
  {
    ElapsedAfterAdd(t0, d);
  }

  /** The configuration of the application, and when it was last refreshed. */
  class ConfigStore {
    var appConfig: ApplicationConfig
    var lastConfigUpdate: U32

    constructor (initial: ApplicationConfig)
      ensures appConfig == initial && lastConfigUpdate == 0
    {
      appConfig := initial;
      lastConfigUpdate := 0;
    }

    /** Apply a parsed document (None: it did not parse). Returns how many
        configuration errors were reported: one for a document that did not
        parse, otherwise one per min/max pair that had to be swapped. */
    method ParseConfig(json: Option<JsonObject>) returns (errors: nat)
      modifies this`appConfig
      ensures json.None? ==> appConfig == old(appConfig) && errors == 1
      ensures json.Some? ==> appConfig == ParsedConfig(old(appConfig), json.value) && Normalised(appConfig)
      ensures json.Some? ==> errors == ParseErrors(old(appConfig), json.value)
    {
      if json.None? {
        return 1;
      }
      var config := json.value;
      ghost var c0 := appConfig;
      ghost var target := ParsedConfig(c0, config);
      UpdateFields(config);

      ghost var u := appConfig;
      var lo, hi, reported := CheckAndSwapValues(appConfig.minDoorOpenMs, appConfig.maxDoorOpenMs);
      appConfig := appConfig.(minDoorOpenMs := lo, maxDoorOpenMs := hi);
      errors := if reported then 1 else 0;
      assert errors == if u.maxDoorOpenMs < u.minDoorOpenMs then 1 else 0;

      if "KeepClosedFromTo" in config {
        var ja := config["KeepClosedFromTo"];
        appConfig := appConfig.(keepClosedFromTo := ClockWindow(Element(ja, 0), Element(ja, 1)));
      }
      assert appConfig == target.(sensorRangeValues := c0.sensorRangeValues);

      var swaps := UpdateSensorRanges(config);
      errors := errors + swaps;
      ParsedConfigNormalised(c0, config);
    }

    /** The plain field updates of a parse, one `updateValue` per field. */
    method UpdateFields(config: JsonObject)
      modifies this`appConfig
      ensures appConfig == FieldsUpdated(old(appConfig), config)
    {
      appConfig := appConfig.(enableControl := UpdateValue(config, "EnableControl", appConfig.enableControl, AsBool));
      appConfig := appConfig.(mainLoopMs := UpdateScaled(config, "MainLoopSec", appConfig.mainLoopMs, 1000));
      appConfig := appConfig.(updateConfigMs := UpdateScaled(config, "UpdateConfigSec", appConfig.updateConfigMs, 1000));
      appConfig := appConfig.(maxClosingTries := UpdateValue(config, "MaxClosingTries", appConfig.maxClosingTries, AsInt));
      appConfig := appConfig.(doorClosingTimeMs := UpdateScaled(config, "DoorClosingTimeSec", appConfig.doorClosingTimeMs, 1000));
      appConfig := appConfig.(timeBetweenClosingAttemptsMs :=
        UpdateScaled(config, "TimeBetweenClosingAttemptsMin", appConfig.timeBetweenClosingAttemptsMs, 60 * 1000));
      appConfig := appConfig.(doorClosingSwitchPressMs :=
        UpdateValue(config, "DoorClosingSwitchPressMs", appConfig.doorClosingSwitchPressMs, AsULong));
      appConfig := appConfig.(maxDoorOpenMs := UpdateScaled(config, "MaxDoorOpenMin", appConfig.maxDoorOpenMs, 60 * 1000));
      appConfig := appConfig.(minDoorOpenMs := UpdateScaled(config, "MinDoorOpenMin", appConfig.minDoorOpenMs, 60 * 1000));
      appConfig := appConfig.(minNotifyPeriodMs := UpdateScaled(config, "MinNotifyPeriodSec", appConfig.minNotifyPeriodMs, 1000));
      appConfig := appConfig.(debounceReadCount := UpdateValue(config, "DebounceReadCount", appConfig.debounceReadCount, AsInt));
      appConfig := appConfig.(debounceReadPauseMs :=
        UpdateValue(config, "DebounceReadPauseMs", appConfig.debounceReadPauseMs, AsULong));
      appConfig := appConfig.(debugLog := UpdateValue(config, "DebugLog", appConfig.debugLog, AsBool));
      appConfig := appConfig.(postLog := UpdateValue(config, "PostLog", appConfig.postLog, AsBool));
    }

    /** Read the three sensor ranges, each followed by its ordering check;
        returns how many had to be swapped. */
    method UpdateSensorRanges(config: JsonObject) returns (swaps: nat)
      modifies this`appConfig
      ensures appConfig == old(appConfig).(sensorRangeValues := ParsedRanges(old(appConfig).sensorRangeValues, config))
      ensures swaps == RangeErrors(old(appConfig).sensorRangeValues, config)
    {
      ghost var r0 := appConfig.sensorRangeValues;
      swaps := 0;
      var swapped := UpdateSensorRange(config, "PinRangeDoorOpen", DoorOpen);
      if swapped { swaps := swaps + 1; }
      swapped := UpdateSensorRange(config, "PinRangeDoorClosed", DoorClosed);
      if swapped { swaps := swaps + 1; }
      swapped := UpdateSensorRange(config, "PinRangeDoorAjar", DoorAjar);
      if swapped { swaps := swaps + 1; }
      assert appConfig.sensorRangeValues == ParsedRanges(r0, config);
    }

    /** Read one sensor range from the document when its key is present, then
        put it in order; returns whether it had to be swapped. */
    method UpdateSensorRange(config: JsonObject, key: string, ndx: int) returns (swapped: bool)
      requires 0 <= ndx < DoorStateCount
      modifies this`appConfig
      ensures appConfig == old(appConfig).(sensorRangeValues :=
                old(appConfig).sensorRangeValues[ndx := RangeUpdate(config, key, old(appConfig).sensorRangeValues[ndx])])
      ensures swapped <==> !RangeRead(config, key, old(appConfig).sensorRangeValues[ndx]).Ordered()
    {
      var range := appConfig.sensorRangeValues[ndx];
      if key in config {
        var ja := config[key];
        range := Range(Element(ja, 0), Element(ja, 1));
      }
      var from, to, reported := CheckAndSwapValues(range.lo, range.hi);
      appConfig := appConfig.(sensorRangeValues := appConfig.sensorRangeValues[ndx := Range(from, to)]);
      swapped := reported;
    }

    /** The rate-limit gate of a refresh: returns whether the fetch goes
        ahead, and records the attempt time before it does. */
    method UpdateConfig(force: bool, nowMs: U32) returns (fetch: bool)
      modifies this`lastConfigUpdate
      ensures fetch <==> RefreshDue(force, old(lastConfigUpdate), nowMs, appConfig.updateConfigMs)
      ensures fetch ==> lastConfigUpdate == nowMs
      ensures !fetch ==> lastConfigUpdate == old(lastConfigUpdate)
    {
      if !force && Sub32(nowMs, lastConfigUpdate) < appConfig.updateConfigMs {
        return false;
      }
      lastConfigUpdate := nowMs;
      fetch := true;
    }
  }
}
