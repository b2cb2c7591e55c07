/**
  The request handling of the web controller with the HTTP framework stripped away: each
  endpoint takes the decoded JSON body and answers with a status and a JSON object. The
  global LED controller is `controller` (null when it failed to initialise) and the global
  list of scheduled patterns is `scheduled`, a JSON value because an import may replace it
  with anything.
*/
module WebApp {
  import opened Builtins
  import opened Text
  import opened LedController

  datatype Json =
    | JNull
    | JBool(flag: bool)
    | JInt(number: int)
    | JFloat(fraction: real)
    | JString(str: string)
    | JArray(items: seq<Json>)
    | JObject(fields: map<string, Json>)

  /**
    What a handler answers: a 200 JSON object, an `{"error": message}` object with a
    status, or the 500 the handler's catch-all produces from a Python exception (whose
    text is not modelled).
  */
  datatype Response =
    | Ok(body: map<string, Json>)
    | Rejected(status: nat, message: string)
    | Raised

  function Status(r: Response): nat
  {
    match r
    case Ok(_) => 200
    case Rejected(status, _) => status
    case Raised => 500
  }

  const NotInitialized := "LED controller not initialized"
  const InvalidPattern := "Invalid pattern"
  const BrightnessOutOfRange := "Brightness must be between 0 and 255"
  const SpeedOutOfRange := "Speed must be between 0.1 and 10.0"
  const InvalidTime := "Invalid time format. Use HH:MM"
  const InvalidIndex := "Invalid pattern index"

  const Success: map<string, Json> := map["success" := JBool(true)]

  /** `data.get(key, default)` on an object body. */
  function Field(data: Json, key: string, otherwise: Json): Json
  {
    if data.JObject? && key in data.fields then data.fields[key] else otherwise
  }

  // ---------------------------------------------------------------------------
  // Validators

  /** `isinstance(v, int)`: JSON integers, and booleans, which Python counts as integers. */
  function Integer(v: Json): (i: Option<int>)
    ensures i.Some? <==> v.JInt? || v.JBool?
  {
    match v
    case JInt(n) => Some(n)
    case JBool(b) => Some(if b then 1 else 0)
    case _ => None
  }

  /** `isinstance(v, (int, float))`. */
  function Numeric(v: Json): (x: Option<real>)
    ensures x.Some? <==> v.JInt? || v.JBool? || v.JFloat?
  {
    match v
    case JFloat(f) => Some(f)
    case _ => if Integer(v).Some? then Some(Integer(v).value as real) else None
  }

  /** The number a setter receives for `v`, keeping Python's `int`/`float` distinction. */
  function AsNumber(v: Json): (n: Option<Number>)
    ensures n.Some? <==> Numeric(v).Some?
    ensures n.Some? ==> n.value.Value() == Numeric(v).value
    ensures n.Some? ==> (n.value.Int? <==> Integer(v).Some?)
  {
    match v
    case JInt(n) => Some(Int(n))
    case JBool(b) => Some(Int(if b then 1 else 0))
    case JFloat(f) => Some(Float(f))
    case _ => None
  }

  /**
    The brightness check: an integer (a boolean included) within 0..255. Whatever it lets
    through the controller's own clamp leaves as it is.
  */
  function BrightnessValue(v: Json): (b: Option<int>)
    ensures b.Some? <==> Integer(v).Some? && 0 <= Integer(v).value <= 255
    ensures b.Some? ==> b.value == Integer(v).value && Clamp(b.value, 0, 255) == b.value
  {
    match Integer(v)
    case Some(n) => if n < 0 || n > 255 then None else Some(n)
    case None => None
  }

  /**
    The speed check: a number within [0.1, 10.0]. Whatever it lets through the
    controller's own clamp leaves as it is.
  */
  function SpeedValue(v: Json): (s: Option<real>)
    ensures s.Some? <==> Numeric(v).Some? && 0.1 <= Numeric(v).value <= 10.0
    ensures s.Some? ==> s.value == Numeric(v).value && ClampReal(s.value, 0.1, 10.0) == s.value
  {
    match Numeric(v)
    case Some(x) => if x < 0.1 || x > 10.0 then None else Some(x)
    case None => None
  }

  /** Membership in the list of pattern values: only a string naming a pattern passes. */
  function PatternValue(v: Json): (p: Option<PatternType>)
    ensures p.Some? ==> v == JString(PatternName(p.value))
  {
    if v.JString? then PatternOf(v.str) else None
  }

  /** Every pattern's own value passes the pattern check. */
  lemma PatternValueAcceptsEveryPattern(p: PatternType)
    ensures PatternValue(JString(PatternName(p))) == Some(p)
  {
    PatternOfName(p);
  }

  /**
    `hour, minute = map(int, time_str.split(':'))` followed by the range check: exactly two
    parts, each a decimal `int()` literal within its digit limit, the hour in 0..23 and the
    minute in 0..59.
  */
  function ParseTime(timeStr: string): (t: Option<(int, int)>)
    ensures t.Some? ==> 0 <= t.value.0 <= 23 && 0 <= t.value.1 <= 59
    ensures t.Some? ==> |Split(timeStr, ':')| == 2
  {
    var parts := Split(timeStr, ':');
    if |parts| != 2 then None
    else
      match (ParseDecimal(parts[0]), ParseDecimal(parts[1]))
      case (Some(hour), Some(minute)) =>
        if 0 <= hour <= 23 && 0 <= minute <= 59 then Some((hour, minute)) else None
      case _ => None
  }

  /** The two-digit decimal spelling `f"{x:02d}"` of 0..99. */
  function TwoDigits(x: nat): (s: string)
    requires x < 100
    ensures |s| == 2 && forall k :: 0 <= k < 2 ==> '0' <= s[k] <= '9'
  {
    [HexDigit(x / 10), HexDigit(x % 10)]
  }

  lemma ParseTwoDigits(x: nat)
    requires x < 100
    ensures ParseDecimal(TwoDigits(x)) == Some(x)
  {
    var s := TwoDigits(x);
    assert IsDigit(s[0], 10) && IsDigit(s[1], 10);
    assert ValidDigits(s, 10);
    assert s[..1] == [s[0]];
    assert DigitsValue([s[0]], 10) == DigitValue(s[0]);
    assert DigitsValue(s, 10) == DigitsValue([s[0]], 10) * 10 + DigitValue(s[1]);
    assert DigitsValue(s, 10) == x;
    ParsePlainDigits(s, 10);
    assert ParseInt(s, 10) == Some(x);
    assert DigitCount(DigitsPart(Strip(s), 10)) <= 2;
  }

  /** Every clock time written `HH:MM` is accepted and read back as that hour and minute. */
  lemma ParseTimeRoundTrip(hour: nat, minute: nat)
    requires hour <= 23 && minute <= 59
    ensures ParseTime(TwoDigits(hour) + ":" + TwoDigits(minute)) == Some((hour, minute))
  {
    var h := TwoDigits(hour);
    var m := TwoDigits(minute);
    SplitTwo(h, m, ':');
    assert h + ":" + m == h + [':'] + m;
    ParseTwoDigits(hour);
    ParseTwoDigits(minute);
  }

  /** An hour field longer than `int()`'s digit limit, leading zeros included, is refused. */
  lemma ParseTimeDigitLimit(hh: string, mm: string)
    requires forall k :: 0 <= k < |hh| ==> '0' <= hh[k] <= '9'
    requires |hh| > MaxStrDigits
    requires forall k :: 0 <= k < |mm| ==> mm[k] != ':'
    ensures ParseTime(hh + ":" + mm) == None
  {
    SplitTwo(hh, mm, ':');
    assert hh + ":" + mm == hh + [':'] + mm;
    TooManyDigits(hh);
  }

  /** A time with a third field, such as `HH:MM:SS`, is refused whatever its numbers. */
  lemma ParseTimeRejectsSeconds(hh: string, mm: string, ss: string)
    requires forall k :: 0 <= k < |hh| ==> hh[k] != ':'
    requires forall k :: 0 <= k < |mm| ==> mm[k] != ':'
    requires forall k :: 0 <= k < |ss| ==> ss[k] != ':'
    ensures ParseTime(hh + ":" + mm + ":" + ss) == None
  {
    var s := hh + ":" + mm + ":" + ss;
    SplitTwo(mm, ss, ':');
    assert s == hh + [':'] + (mm + [':'] + ss);
    SplitConsPart(hh, mm + [':'] + ss, ':');
  }

  /** Splitting `a + sep + rest` with no sep in a puts a in front of the parts of rest. */
  lemma {:induction false} SplitConsPart(a: string, rest: string, sep: char)
    requires forall k :: 0 <= k < |a| ==> a[k] != sep
    ensures Split(a + [sep] + rest, sep) == [a] + Split(rest, sep)
  {
    if a == [] {
      assert a + [sep] + rest == [sep] + rest;
      assert ([sep] + rest)[1..] == rest;
    } else {
      SplitConsPart(a[1..], rest, sep);
      assert (a + [sep] + rest)[1..] == a[1..] + [sep] + rest;
      assert [a[0]] + a[1..] == a;
    }
  }

  // ---------------------------------------------------------------------------
  // The scheduled-pattern list

  /** `del items[index]`: the element at index goes, the ones after it move down by one. */
  function RemoveAt<T>(items: seq<T>, index: nat): (r: seq<T>)
    requires index < |items|
    ensures |r| == |items| - 1
    ensures forall k :: 0 <= k < index ==> r[k] == items[k]
    ensures forall k :: index <= k < |r| ==> r[k] == items[k + 1]
  {
    items[..index] + items[index + 1..]
  }

  /** Deleting the entry just appended gives back the list as it was. */
  lemma RemoveAppended<T>(items: seq<T>, x: T)
    ensures RemoveAt(items + [x], |items|) == items
  {
    var r := RemoveAt(items + [x], |items|);
    assert forall k :: 0 <= k < |items| ==> r[k] == items[k];
  }

  /** The entry `schedule_pattern` records. */
  function ScheduleEntry(patternName: string, timeStr: string, duration: Json, created: string): Json
  {
    JObject(map["pattern" := JString(patternName), "time" := JString(timeStr), "duration" := duration,
                "created" := JString(created)])
  }

  /** A snapshot of the controller settings the endpoints change. */
  datatype Settings = Settings(brightness: Number, pattern: PatternType, speed: real,
                               primary: ColorRGB, secondary: ColorRGB)

  function SettingsOf(c: LEDController): Settings
    reads c
  {
    Settings(c.brightness, c.currentPattern, c.animationSpeed, c.primaryColor, c.secondaryColor)
  }

  /** Python's `key in v`: dictionary keys, list elements or substrings; None where it raises. */
  function HasKey(v: Json, key: string): (has: Option<bool>)
    ensures has.Some? <==> v.JObject? || v.JArray? || v.JString?
    ensures v.JObject? ==> has == Some(key in v.fields)
  {
    match v
    case JObject(fields) => Some(key in fields)
    case JArray(items) => Some(JString(key) in items)
    case JString(s) => Some(HasSubstring(s, key))
    case _ => None
  }

  /**
    Whether `key` is present in `status`, with a value the controller setter takes. Any
    number passes the brightness clamp, but a strip refuses a `float` that survives it.
  */
  predicate SettingApplies(status: Json, key: string, hasController: bool, hasStrip: bool)
  {
    && HasKey(status, key).Some?
    && (HasKey(status, key).value ==>
          && hasController
          && status.JObject?
          && (if key == "brightness"
              then AsNumber(status.fields[key]).Some?
                   && (hasStrip ==> ClampBrightness(AsNumber(status.fields[key]).value).Int?)
              else if key == "animation_speed" then Numeric(status.fields[key]).Some?
              else PatternValue(status.fields[key]).Some?))
  }

  predicate StatusApplies(status: Json, hasController: bool, hasStrip: bool)
  {
    && SettingApplies(status, "brightness", hasController, hasStrip)
    && SettingApplies(status, "animation_speed", hasController, hasStrip)
    && SettingApplies(status, "current_pattern", hasController, hasStrip)
  }

  /** An import body the handler gets through without an exception. */
  predicate ImportSucceeds(data: Json, hasController: bool, hasStrip: bool)
  {
    && HasKey(data, "status").Some?
    && (HasKey(data, "status").value ==> data.JObject? && StatusApplies(data.fields["status"], hasController, hasStrip))
    && (HasKey(data, "scheduled_patterns") == Some(true) ==> data.JObject?)
  }

  /** The settings after a successful import of `status` onto `s`. */
  function ImportedSettings(s: Settings, status: Json, hasStrip: bool): Settings
    requires StatusApplies(status, true, hasStrip)
  {
    var s1 := if HasKey(status, "brightness").value
      then s.(brightness := ClampBrightness(AsNumber(status.fields["brightness"]).value)) else s;
    var s2 := if HasKey(status, "animation_speed").value
      then s1.(speed := ClampReal(Numeric(status.fields["animation_speed"]).value, 0.1, 10.0)) else s1;
    if HasKey(status, "current_pattern").value
    then s2.(pattern := PatternValue(status.fields["current_pattern"]).value) else s2
  }

  /** How `jsonify` writes a number. */
  function NumberJson(n: Number): Json
  {
    match n
    case Int(i) => JInt(i)
    case Float(x) => JFloat(x)
  }

  /** The `status` part of an export: brightness, speed and pattern as `get_status` reports them. */
  function ExportedStatus(s: Settings): Json
  {
    JObject(map["brightness" := NumberJson(s.brightness), "animation_speed" := JFloat(s.speed),
                "current_pattern" := JString(PatternName(s.pattern))])
  }

  /**
    Exporting and importing back the brightness, speed and pattern one has set restores
    them. A strip takes the brightness only when it is an `int`.
  */
  lemma ImportRestoresSettings(s: Settings, hasStrip: bool)
    requires s.brightness.Int? ==> 0 <= s.brightness.i <= 255
    requires s.brightness.Float? ==> !hasStrip && 0.0 < s.brightness.x < 255.0
    requires 0.1 <= s.speed <= 10.0
    ensures StatusApplies(ExportedStatus(s), true, hasStrip)
    ensures ImportedSettings(s, ExportedStatus(s), hasStrip) == s
  {
    PatternOfName(s.pattern);
  }

  class App {
    /** The global `led_controller`: null when it could not be created. */
    const controller: LEDController?
    /** The global `scheduled_patterns`. */
    var scheduled: Json

    ghost predicate Valid()
      reads this, controller, (if controller != null then controller.strip else null)
    {
      controller != null ==> controller.Valid()
    }

    constructor (controller: LEDController?)
      requires controller != null ==> controller.Valid()
      ensures this.controller == controller && scheduled == JArray([])
      ensures Valid()
    {
      this.controller := controller;
      scheduled := JArray([]);
    }

    /** `POST /api/pattern`. */
    method SetPattern(data: Json) returns (r: Response)
      requires Valid()
      modifies controller
      ensures Valid()
      ensures controller == null ==> r == Rejected(500, NotInitialized)
      ensures controller != null && !data.JObject? ==> r == Raised
      ensures controller != null && data.JObject? && PatternValue(Field(data, "pattern", JNull)).None? ==>
        r == Rejected(400, InvalidPattern)
      ensures controller != null && data.JObject? && PatternValue(Field(data, "pattern", JNull)).Some? ==>
        r == Ok(Success["pattern" := Field(data, "pattern", JNull)])
      ensures controller != null ==> (SettingsOf(controller) ==
        if r.Ok? then old(SettingsOf(controller)).(pattern := PatternValue(Field(data, "pattern", JNull)).value)
        else old(SettingsOf(controller)))
    {
      if controller == null {
        return Rejected(500, NotInitialized);
      }
      if !data.JObject? {
        return Raised;
      }
      var patternName := Field(data, "pattern", JNull);
      var pattern := PatternValue(patternName);
      if pattern.None? {
        return Rejected(400, InvalidPattern);
      }
      controller.SetPattern(pattern.value);
      return Ok(Success["pattern" := patternName]);
    }

    /** `POST /api/brightness`; a missing brightness means 128. */
    method SetBrightness(data: Json) returns (r: Response)
      requires Valid()
      modifies controller, (if controller != null then controller.strip else null)
      ensures Valid()
      ensures controller == null ==> r == Rejected(500, NotInitialized)
      ensures controller != null && !data.JObject? ==> r == Raised
      ensures controller != null && data.JObject? && BrightnessValue(Field(data, "brightness", JInt(128))).None? ==>
        r == Rejected(400, BrightnessOutOfRange)
      ensures controller != null && data.JObject? && BrightnessValue(Field(data, "brightness", JInt(128))).Some? ==>
        r == Ok(Success["brightness" := Field(data, "brightness", JInt(128))])
      ensures controller != null ==> (SettingsOf(controller) ==
        if r.Ok? then old(SettingsOf(controller)).(brightness := Int(BrightnessValue(Field(data, "brightness", JInt(128))).value))
        else old(SettingsOf(controller)))
      ensures controller != null && controller.strip != null && r.Ok? ==>
        controller.strip.stripBrightness == controller.brightness.i
      ensures controller != null && controller.strip != null && !r.Ok? ==>
        controller.strip.stripBrightness == old(controller.strip.stripBrightness)
      ensures controller != null && controller.strip != null ==>
        controller.strip.pixels == old(controller.strip.pixels) && controller.strip.shown == old(controller.strip.shown)
    {
      if controller == null {
        return Rejected(500, NotInitialized);
      }
      if !data.JObject? {
        return Raised;
      }
      var brightness := Field(data, "brightness", JInt(128));
      var value := BrightnessValue(brightness);
      if value.None? {
        return Rejected(400, BrightnessOutOfRange);
      }
      var raised := controller.SetBrightness(Int(value.value));
      return Ok(Success["brightness" := brightness]);
    }

    /** `POST /api/speed`; a missing speed means 1.0. */
    method SetSpeed(data: Json) returns (r: Response)
      requires Valid()
      modifies controller
      ensures Valid()
      ensures controller == null ==> r == Rejected(500, NotInitialized)
      ensures controller != null && !data.JObject? ==> r == Raised
      ensures controller != null && data.JObject? && SpeedValue(Field(data, "speed", JFloat(1.0))).None? ==>
        r == Rejected(400, SpeedOutOfRange)
      ensures controller != null && data.JObject? && SpeedValue(Field(data, "speed", JFloat(1.0))).Some? ==>
        r == Ok(Success["speed" := Field(data, "speed", JFloat(1.0))])
      ensures controller != null ==> (SettingsOf(controller) ==
        if r.Ok? then old(SettingsOf(controller)).(speed := SpeedValue(Field(data, "speed", JFloat(1.0))).value)
        else old(SettingsOf(controller)))
    {
      if controller == null {
        return Rejected(500, NotInitialized);
      }
      if !data.JObject? {
        return Raised;
      }
      var speed := Field(data, "speed", JFloat(1.0));
      var value := SpeedValue(speed);
      if value.None? {
        return Rejected(400, SpeedOutOfRange);
      }
      controller.SetAnimationSpeed(value.value);
      return Ok(Success["speed" := speed]);
    }

    /** `POST /api/clear`. */
    method ClearLeds() returns (r: Response)
      requires Valid()
      modifies (if controller != null then controller.strip else null)
      ensures Valid()
      ensures controller == null ==> r == Rejected(500, NotInitialized)
      ensures controller != null ==> r == Ok(Success)
      ensures controller != null && controller.strip != null ==>
        controller.strip.pixels == Repeat([Pack(Black)], controller.ledCount)
        && controller.strip.shown == old(controller.strip.shown) + [controller.strip.pixels]
    {
      if controller == null {
        return Rejected(500, NotInitialized);
      }
      controller.Clear();
      return Ok(Success);
    }

    /**
      `POST /api/schedule`. Registering the job with the scheduling library is outside the
      model; `scheduleAccepts` says whether the library takes the time string, and
      `created` is the current time in ISO format. A missing duration means 60.
    */
    method SchedulePattern(data: Json, scheduleAccepts: bool, created: string) returns (r: Response)
      modifies this
      ensures !data.JObject? ==> r == Raised
      ensures data.JObject? && PatternValue(Field(data, "pattern", JNull)).None? ==> r == Rejected(400, InvalidPattern)
      ensures data.JObject? && PatternValue(Field(data, "pattern", JNull)).Some? && !Field(data, "time", JNull).JString? ==>
        r == Raised
      ensures (data.JObject? && PatternValue(Field(data, "pattern", JNull)).Some? && Field(data, "time", JNull).JString?
        && ParseTime(Field(data, "time", JNull).str).None?) ==> r == Rejected(400, InvalidTime)
      ensures r.Ok? <==> (data.JObject? && PatternValue(Field(data, "pattern", JNull)).Some?
        && Field(data, "time", JNull).JString? && ParseTime(Field(data, "time", JNull).str).Some?
        && scheduleAccepts && old(scheduled).JArray?)
      ensures r.Ok? ==> scheduled == JArray(old(scheduled).items + [
        ScheduleEntry(Field(data, "pattern", JNull).str, Field(data, "time", JNull).str, Field(data, "duration", JInt(60)), created)])
      ensures r.Ok? ==> r == Ok(Success["scheduled" := JInt(|scheduled.items|)]) && |scheduled.items| == |old(scheduled).items| + 1
      ensures (data.JObject? && PatternValue(Field(data, "pattern", JNull)).Some? && Field(data, "time", JNull).JString?
        && ParseTime(Field(data, "time", JNull).str).Some? && !r.Ok?) ==> r == Raised
      ensures !r.Ok? ==> scheduled == old(scheduled)
    {
      if !data.JObject? {
        return Raised;
      }
      var patternName := Field(data, "pattern", JNull);
      var timeStr := Field(data, "time", JNull);
      var duration := Field(data, "duration", JInt(60));
      if PatternValue(patternName).None? {
        return Rejected(400, InvalidPattern);
      }
      if !timeStr.JString? {
        return Raised;
      }
      if ParseTime(timeStr.str).None? {
        return Rejected(400, InvalidTime);
      }
      if !scheduleAccepts {
        return Raised;
      }
      if !scheduled.JArray? {
        return Raised;
      }
      scheduled := JArray(scheduled.items + [ScheduleEntry(patternName.str, timeStr.str, duration, created)]);
      return Ok(Success["scheduled" := JInt(|scheduled.items|)]);
    }

    /**
      `DELETE /api/schedule/<index>`. On a list an index in range removes that entry and any
      other is refused with 400; an object or a string only gets past the length check to
      fail on the deletion, and any other value has no length.
    */
    method DeleteScheduled(index: int) returns (r: Response)
      modifies this
      ensures old(scheduled).JArray? && 0 <= index < |old(scheduled).items| ==>
        r == Ok(Success) && scheduled == JArray(RemoveAt(old(scheduled).items, index))
      ensures old(scheduled).JArray? && !(0 <= index < |old(scheduled).items|) ==>
        r == Rejected(400, InvalidIndex) && scheduled == old(scheduled)
      ensures old(scheduled).JObject? ==>
        r == (if 0 <= index < |old(scheduled).fields| then Raised else Rejected(400, InvalidIndex))
      ensures old(scheduled).JString? ==>
        r == (if 0 <= index < |old(scheduled).str| then Raised else Rejected(400, InvalidIndex))
      ensures !old(scheduled).JArray? && !old(scheduled).JObject? && !old(scheduled).JString? ==> r == Raised
      ensures !old(scheduled).JArray? ==> scheduled == old(scheduled)
    {
      match scheduled
      case JArray(items) =>
        if 0 <= index < |items| {
          scheduled := JArray(RemoveAt(items, index));
          return Ok(Success);
        }
        return Rejected(400, InvalidIndex);
      case JObject(fields) =>
        return if 0 <= index < |fields| then Raised else Rejected(400, InvalidIndex);
      case JString(s) =>
        return if 0 <= index < |s| then Raised else Rejected(400, InvalidIndex);
      case _ =>
        return Raised;
    }

    /**
      `POST /api/import`: the brightness, speed and pattern of `status` are applied in that
      order, then `scheduled_patterns` replaces the list wholesale. Keys are looked up with
      Python's `in`, so a list or string body is searched and fails only when it holds a key.
    */
    method ImportSettings(data: Json) returns (r: Response)
      requires Valid()
      modifies this, controller, (if controller != null then controller.strip else null)
      ensures Valid()
      ensures r.Ok? <==> ImportSucceeds(data, controller != null, controller != null && controller.strip != null)
      ensures r.Ok? ==> r == Ok(Success)
      ensures !r.Ok? ==> r == Raised && scheduled == old(scheduled)
      ensures r.Ok? ==> (scheduled ==
        if HasKey(data, "scheduled_patterns") == Some(true) then data.fields["scheduled_patterns"] else old(scheduled))
      ensures r.Ok? && controller != null ==> (SettingsOf(controller) ==
        if HasKey(data, "status") == Some(true) then ImportedSettings(old(SettingsOf(controller)), data.fields["status"], controller.strip != null)
        else old(SettingsOf(controller)))
    {
      var hasStatus := HasKey(data, "status");
      if hasStatus.None? {
        return Raised;
      }
      if hasStatus.value {
        if !data.JObject? {
          return Raised;
        }
        var status := data.fields["status"];
        var has := HasKey(status, "brightness");
        if has.None? {
          return Raised;
        }
        if has.value {
          if controller == null || !status.JObject? || AsNumber(status.fields["brightness"]).None? {
            return Raised;
          }
          var raised := controller.SetBrightness(AsNumber(status.fields["brightness"]).value);
          if raised {
            return Raised;
          }
        }
        has := HasKey(status, "animation_speed");
        if has.value {
          if controller == null || !status.JObject? || Numeric(status.fields["animation_speed"]).None? {
            return Raised;
          }
          controller.SetAnimationSpeed(Numeric(status.fields["animation_speed"]).value);
        }
        has := HasKey(status, "current_pattern");
        if has.value {
          if controller == null || !status.JObject? || PatternValue(status.fields["current_pattern"]).None? {
            return Raised;
          }
          controller.SetPattern(PatternValue(status.fields["current_pattern"]).value);
        }
      }
      if HasKey(data, "scheduled_patterns").value {
        if !data.JObject? {
          return Raised;
        }
        scheduled := data.fields["scheduled_patterns"];
      }
      return Ok(Success);
    }
  }
}
