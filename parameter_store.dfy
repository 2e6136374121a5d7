/**
 * The parameter store: the four settings the up-sot generator reads, with
 * setters that convert and clamp what they are given. The argument of a
 * setter is any value a caller can pass; `int`, `float` and `bool` are
 * modelled on it, and a conversion that raises leaves the state unchanged.
 */
module ParameterStore {
  import opened Options
  import opened Text
  import opened Timecode

  /** An argument as the caller passes it; a list or dictionary is known by its size only. */
  datatype Value =
    | IntValue(i: int)
    | RealValue(r: real)
    | BoolValue(b: bool)
    | StrValue(s: string)
    | NoneValue
    | Collection(size: nat)

  /** The stored settings. */
  datatype Parameters = Parameters(upSotsCount: int, sensitivity: real, sortByRelevance: bool, timecode: string)

  const DefaultTimecode: string := "00:00:00"

  /** The values a new store holds. */
  const Defaults: Parameters := Parameters(10, 0.5, false, DefaultTimecode)

  /** `int(x)` of a float: truncation toward zero. */
  function Truncate(r: real): (n: int)
    ensures r >= 0.0 ==> n as real <= r < n as real + 1.0
    ensures r < 0.0 ==> n as real - 1.0 < r <= n as real
  {
    if r >= 0.0 then r.Floor else -((-r).Floor)
  }

  /** `int(x)`; None where it raises `ValueError` or `TypeError`. */
  function ToInt(v: Value): Option<int> {
    match v
    case IntValue(i) => Some(i)
    case RealValue(r) => Some(Truncate(r))
    case BoolValue(b) => Some(if b then 1 else 0)
    case StrValue(s) => ParseInt(s)
    case NoneValue => None
    case Collection(_) => None
  }

  /** `float(x)`; None where it raises `ValueError` or `TypeError`. */
  function ToReal(v: Value): Option<real> {
    match v
    case IntValue(i) => Some(i as real)
    case RealValue(r) => Some(r)
    case BoolValue(b) => Some(if b then 1.0 else 0.0)
    case StrValue(s) => ParseReal(s)
    case NoneValue => None
    case Collection(_) => None
  }

  /** `bool(x)`: zero, the empty string, None and empty collections are false. */
  function Truthy(v: Value): bool {
    match v
    case IntValue(i) => i != 0
    case RealValue(r) => r != 0.0
    case BoolValue(b) => b
    case StrValue(s) => |s| > 0
    case NoneValue => false
    case Collection(size) => size > 0
  }

  /** `max(lo, min(hi, n))`. */
  function ClampInt(n: int, lo: int, hi: int): int {
    if n > hi then (if hi > lo then hi else lo) else if n > lo then n else lo
  }

  function ClampReal(x: real, lo: real, hi: real): real {
    if x > hi then (if hi > lo then hi else lo) else if x > lo then x else lo
  }

  /** The store after `set_up_sots_count(count)`. */
  function WithCount(p: Parameters, count: Value): Parameters {
    match ToInt(count)
    case None => p
    case Some(n) => p.(upSotsCount := ClampInt(n, 0, 30))
  }

  /** The store after `set_sensitivity(sensitivity)`. */
  function WithSensitivity(p: Parameters, sensitivity: Value): Parameters {
    match ToReal(sensitivity)
    case None => p
    case Some(x) => p.(sensitivity := ClampReal(x, 0.0, 1.0))
  }

  /** The store after `set_sort_by_relevance(flag)`. */
  function WithSortByRelevance(p: Parameters, flag: Value): Parameters {
    p.(sortByRelevance := Truthy(flag))
  }

  /** Whether `update_timecode` accepts the value: a string of the `HH:MM:SS` shape. */
  predicate AcceptedTimecode(v: Value) {
    v.StrValue? && WellFormedTimecode(v.s)
  }

  /** The store after `update_timecode(timecode)`. */
  function WithTimecode(p: Parameters, timecode: Value): Parameters {
    if AcceptedTimecode(timecode) then p.(timecode := timecode.s) else p
  }

  const CountKey: string := "up_sots_count"
  const SensitivityKey: string := "sensitivity"
  const SortKey: string := "sort_by_relevance"
  const TimecodeKey: string := "timecode"

  /** The store after `set_parameters(params)`: the four setters, each only when its key is present. */
  function ApplyParameters(p: Parameters, params: map<string, Value>): Parameters {
    var p1 := if CountKey in params then WithCount(p, params[CountKey]) else p;
    var p2 := if SensitivityKey in params then WithSensitivity(p1, params[SensitivityKey]) else p1;
    var p3 := if SortKey in params then WithSortByRelevance(p2, params[SortKey]) else p2;
    if TimecodeKey in params then WithTimecode(p3, params[TimecodeKey]) else p3
  }

  /** The ranges the setters keep the settings in. */
  predicate Valid(p: Parameters) {
    && 0 <= p.upSotsCount <= 30
    && 0.0 <= p.sensitivity <= 1.0
    && WellFormedTimecode(p.timecode)
  }

  class ParameterControls {
    var parameters: Parameters

    /** A store holding the defaults. */
    constructor()
      ensures parameters == Defaults
      ensures Valid(parameters)
    {
      parameters := Parameters(10, 0.5, false, "00:00:00");
      DefaultsValid();
    }

    /** The current settings; a value, so changing the result cannot change the store. */
    method GetParameters() returns (p: Parameters)
      ensures p == parameters
    {
      p := parameters;
    }

    /**
     * Sets the count, clamped to 0..30, and returns the stored count; an
     * argument `int` rejects leaves the store as it was.
     */
    method SetUpSotsCount(count: Value) returns (r: int)
      modifies this
      ensures parameters == WithCount(old(parameters), count)
      ensures r == parameters.upSotsCount
      ensures Valid(old(parameters)) ==> Valid(parameters)
    {
      if Valid(parameters) { SettersKeepValid(parameters, count); }
      var countInt := ToInt(count);
      if countInt.None? {
        return parameters.upSotsCount;
      }
      var n := ClampInt(countInt.value, 0, 30);
      parameters := parameters.(upSotsCount := n);
      r := n;
    }

    /**
     * Sets the sensitivity, clamped to 0.0..1.0, and returns the stored
     * value; an argument `float` rejects leaves the store as it was.
     */
    method SetSensitivity(sensitivity: Value) returns (r: real)
      modifies this
      ensures parameters == WithSensitivity(old(parameters), sensitivity)
      ensures r == parameters.sensitivity
      ensures Valid(old(parameters)) ==> Valid(parameters)
    {
      if Valid(parameters) { SettersKeepValid(parameters, sensitivity); }
      var sensReal := ToReal(sensitivity);
      if sensReal.None? {
        return parameters.sensitivity;
      }
      var x := ClampReal(sensReal.value, 0.0, 1.0);
      parameters := parameters.(sensitivity := x);
      r := x;
    }

    /** Stores the truth value of the argument and returns it. */
    method SetSortByRelevance(flag: Value) returns (r: bool)
      modifies this
      ensures parameters == WithSortByRelevance(old(parameters), flag)
      ensures r == parameters.sortByRelevance
      ensures Valid(old(parameters)) ==> Valid(parameters)
    {
      if Valid(parameters) { SettersKeepValid(parameters, flag); }
      parameters := parameters.(sortByRelevance := Truthy(flag));
      r := parameters.sortByRelevance;
    }

    /** Stores an `HH:MM:SS`-shaped string and returns the stored timecode. */
    method UpdateTimecode(timecode: Value) returns (r: string)
      modifies this
      ensures parameters == WithTimecode(old(parameters), timecode)
      ensures r == parameters.timecode
      ensures Valid(old(parameters)) ==> Valid(parameters)
    {
      if Valid(parameters) { TimecodeSetterKeepsValid(parameters, timecode); }
      if timecode.StrValue? && |timecode.s| == 8 {
        var parts := SplitOn(timecode.s, ':');
        if |parts| == 3 && IsDigits(parts[0]) && |parts[0]| == 2 && IsDigits(parts[1]) && |parts[1]| == 2
           && IsDigits(parts[2]) && |parts[2]| == 2 {
          parameters := parameters.(timecode := timecode.s);
          return timecode.s;
        }
      }
      r := parameters.timecode;
    }

    /** Puts the timecode back to 00:00:00 and returns it. */
    method ResetTimecode() returns (r: string)
      modifies this
      ensures parameters == old(parameters).(timecode := DefaultTimecode)
      ensures r == DefaultTimecode
      ensures Valid(old(parameters)) ==> Valid(parameters)
    {
      if Valid(parameters) { TimecodeSetterKeepsValid(parameters, NoneValue); }
      parameters := parameters.(timecode := "00:00:00");
      r := parameters.timecode;
    }

    /** Applies the setters of the keys present, in a fixed order, and returns the settings. */
    method SetParameters(params: map<string, Value>) returns (r: Parameters)
      modifies this
      ensures parameters == ApplyParameters(old(parameters), params)
      ensures r == parameters
      ensures Valid(old(parameters)) ==> Valid(parameters)
    {
      if "up_sots_count" in params {
        var _ := SetUpSotsCount(params["up_sots_count"]);
      }
      if "sensitivity" in params {
        var _ := SetSensitivity(params["sensitivity"]);
      }
      if "sort_by_relevance" in params {
        var _ := SetSortByRelevance(params["sort_by_relevance"]);
      }
      if "timecode" in params {
        var _ := UpdateTimecode(params["timecode"]);
      }
      r := GetParameters();
    }
  }

  // ---------------------------------------------------------------------------
  // Properties
  // ---------------------------------------------------------------------------

  /** The defaults are in range, and 00:00:00 has the accepted shape. */
  lemma DefaultsValid()
    ensures Valid(Defaults)
  {
    WellFormedTimecodeShape(DefaultTimecode);
  }

  /** Clamping lands in the range and leaves values already in it alone. */
  lemma ClampIntBounds(n: int, lo: int, hi: int)
    requires lo <= hi
    ensures lo <= ClampInt(n, lo, hi) <= hi
    ensures lo <= n <= hi ==> ClampInt(n, lo, hi) == n
    ensures n < lo ==> ClampInt(n, lo, hi) == lo
    ensures n > hi ==> ClampInt(n, lo, hi) == hi
  {
  }

  lemma ClampRealBounds(x: real, lo: real, hi: real)
    requires lo <= hi
    ensures lo <= ClampReal(x, lo, hi) <= hi
    ensures lo <= x <= hi ==> ClampReal(x, lo, hi) == x
    ensures x < lo ==> ClampReal(x, lo, hi) == lo
    ensures x > hi ==> ClampReal(x, lo, hi) == hi
  {
  }

  /**
   * Setting the count: a convertible argument stores its clamped integer, in
   * 0..30; any other leaves the store as it was. Nothing but the count changes.
   */
  lemma CountSetting(p: Parameters, count: Value)
    ensures var q := WithCount(p, count);
      && q.(upSotsCount := p.upSotsCount) == p
      && (ToInt(count).None? ==> q == p)
      && (ToInt(count).Some? ==> 0 <= q.upSotsCount <= 30 && q.upSotsCount == ClampInt(ToInt(count).value, 0, 30))
  {
  }

  /**
   * Setting the sensitivity: a convertible argument stores its clamped value,
   * in 0.0..1.0; any other leaves the store as it was.
   */
  lemma SensitivitySetting(p: Parameters, sensitivity: Value)
    ensures var q := WithSensitivity(p, sensitivity);
      && q.(sensitivity := p.sensitivity) == p
      && (ToReal(sensitivity).None? ==> q == p)
      && (ToReal(sensitivity).Some? ==> 0.0 <= q.sensitivity <= 1.0 && q.sensitivity == ClampReal(ToReal(sensitivity).value, 0.0, 1.0))
  {
  }

  /** The conversions reject exactly None, collections and the strings that are not numbers. */
  lemma ConversionFailures(v: Value)
    ensures ToInt(v).None? <==> v.NoneValue? || v.Collection? || (v.StrValue? && ParseInt(v.s).None?)
    ensures ToReal(v).None? <==> v.NoneValue? || v.Collection? || (v.StrValue? && ParseReal(v.s).None?)
  {
  }

  /** `int()` of a float drops the fraction toward zero: 2.7 gives 2 and -2.7 gives -2. */
  lemma TruncateExamples()
    ensures ToInt(RealValue(2.7)) == Some(2)
    ensures ToInt(RealValue(-2.7)) == Some(-2)
    ensures WithCount(Defaults, RealValue(45.9)).upSotsCount == 30
    ensures WithCount(Defaults, IntValue(-3)).upSotsCount == 0
  {
  }

  /** Every string `int()` accepts is accepted by `float()` with the same value. */
  lemma DigitStringsConvertAlike(s: string)
    requires IsDigits(s)
    ensures ToInt(StrValue(s)) == Some(DigitsValue(s))
    ensures ToReal(StrValue(s)) == Some(DigitsValue(s) as real)
  {
    StripNoSpaces(s);
    assert !IsSign(s[0]);
    ParseRealOfDigits(s);
  }

  /** The stored flag is the truth value of the argument, and nothing else changes. */
  lemma SortSetting(p: Parameters, flag: Value)
    ensures WithSortByRelevance(p, flag).sortByRelevance == Truthy(flag)
    ensures WithSortByRelevance(p, flag).(sortByRelevance := p.sortByRelevance) == p
    ensures (flag.BoolValue? ==> Truthy(flag) == flag.b)
  {
  }

  /**
   * A timecode is stored exactly when it is a string of two digits, a colon,
   * two digits, a colon and two digits; otherwise the store is unchanged.
   */
  lemma TimecodeSetting(p: Parameters, timecode: Value)
    ensures var q := WithTimecode(p, timecode);
      && q.(timecode := p.timecode) == p
      && (AcceptedTimecode(timecode) ==> q.timecode == timecode.s)
      && (!AcceptedTimecode(timecode) ==> q == p)
    ensures AcceptedTimecode(timecode) <==> timecode.StrValue? && DigitPairsShape(timecode.s)
  {
    if timecode.StrValue? {
      WellFormedTimecodeShape(timecode.s);
    }
  }

  /** No range check: 99:99:99 is accepted; a value that is not a string is not. */
  lemma TimecodeExamples()
    ensures AcceptedTimecode(StrValue("99:99:99"))
    ensures !AcceptedTimecode(IntValue(0))
  {
    WellFormedTimecodeShape("99:99:99");
  }

  /** A missing leading zero or another separator is rejected: 1:02:03 and 00-00-00. */
  lemma TimecodeRejections()
    ensures !AcceptedTimecode(StrValue("1:02:03"))
    ensures !AcceptedTimecode(StrValue("00-00-00"))
  {
    WellFormedTimecodeShape("1:02:03");
    WellFormedTimecodeShape("00-00-00");
  }

  /** A key that is absent leaves its setting alone; a present one gets what its setter gives. */
  lemma ApplyParametersFields(p: Parameters, params: map<string, Value>)
    ensures var q := ApplyParameters(p, params);
      && q.upSotsCount == (if CountKey in params then WithCount(p, params[CountKey]).upSotsCount else p.upSotsCount)
      && q.sensitivity == (if SensitivityKey in params then WithSensitivity(p, params[SensitivityKey]).sensitivity else p.sensitivity)
      && q.sortByRelevance == (if SortKey in params then Truthy(params[SortKey]) else p.sortByRelevance)
      && q.timecode == (if TimecodeKey in params then WithTimecode(p, params[TimecodeKey]).timecode else p.timecode)
  {
  }

  /** An empty request changes nothing. */
  lemma ApplyNothing(p: Parameters)
    ensures ApplyParameters(p, map[]) == p
  {
  }

  /** Sending the same request twice has the effect of sending it once. */
  lemma ApplyIdempotent(p: Parameters, params: map<string, Value>)
    ensures ApplyParameters(ApplyParameters(p, params), params) == ApplyParameters(p, params)
  {
    var q := ApplyParameters(p, params);
    ApplyParametersFields(p, params);
    ApplyParametersFields(q, params);
    if CountKey in params {
      var c := ToInt(params[CountKey]);
      if c.Some? {
        ClampIntBounds(c.value, 0, 30);
        ClampIntBounds(ClampInt(c.value, 0, 30), 0, 30);
      }
    }
    if SensitivityKey in params {
      var x := ToReal(params[SensitivityKey]);
      if x.Some? {
        ClampRealBounds(x.value, 0.0, 1.0);
        ClampRealBounds(ClampReal(x.value, 0.0, 1.0), 0.0, 1.0);
      }
    }
  }

  /** Each setter keeps the settings in range, so every reachable store stays valid. */
  lemma SettersKeepValid(p: Parameters, v: Value)
    requires Valid(p)
    ensures Valid(WithCount(p, v))
    ensures Valid(WithSensitivity(p, v))
    ensures Valid(WithSortByRelevance(p, v))
    ensures Valid(WithTimecode(p, v))
    ensures Valid(p.(timecode := DefaultTimecode))
  {
    TimecodeSetterKeepsValid(p, v);
  }

  lemma TimecodeSetterKeepsValid(p: Parameters, v: Value)
    requires Valid(p)
    ensures Valid(WithTimecode(p, v))
    ensures Valid(p.(timecode := DefaultTimecode))
  {
    DefaultsValid();
  }

  lemma ApplyKeepsValid(p: Parameters, params: map<string, Value>)
    requires Valid(p)
    ensures Valid(ApplyParameters(p, params))
  {
    var p1 := if CountKey in params then WithCount(p, params[CountKey]) else p;
    SettersKeepValid(p, if CountKey in params then params[CountKey] else NoneValue);
    var p2 := if SensitivityKey in params then WithSensitivity(p1, params[SensitivityKey]) else p1;
    SettersKeepValid(p1, if SensitivityKey in params then params[SensitivityKey] else NoneValue);
    var p3 := if SortKey in params then WithSortByRelevance(p2, params[SortKey]) else p2;
    SettersKeepValid(p2, if SortKey in params then params[SortKey] else NoneValue);
    SettersKeepValid(p3, if TimecodeKey in params then params[TimecodeKey] else NoneValue);
  }
}
