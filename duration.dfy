/** Durations typed by an administrator or a user ("7d", "12h", "30m") and the
    label printed back for a stored duration in seconds. */
module Duration {
  import opened Common

  const SecondsPerDay := 86400
  const SecondsPerHour := 3600
  const SecondsPerMinute := 60

  function UnitSeconds(u: char): nat {
    if u == 'd' then SecondsPerDay
    else if u == 'h' then SecondsPerHour
    else if u == 'm' then SecondsPerMinute
    else 0
  }

  predicate IsUnit(u: char) { u == 'd' || u == 'h' || u == 'm' }

  function Scale(n: Option<int>, k: nat): Option<int> {
    match n
    case None => None
    case Some(v) => Some(v * k)
  }

  /** `parse_duration_to_seconds`: lower-case and strip the text; a final `d`,
      `h` or `m` selects the unit and the rest must parse with Python's
      `int()`; anything else gives None. */
  function ParseDuration(raw: string): Option<int> {
    var t := Strip(Lower(raw));
    if |t| > 0 && IsUnit(t[|t| - 1]) then Scale(PyInt(t[..|t| - 1]), UnitSeconds(t[|t| - 1]))
    else None
  }

  /** The label shown for a key duration: whole days when the duration is a
      positive multiple of a day, else whole hours when it is a positive
      multiple of an hour, else minutes rounded down (Python `//`, which for a
      positive divisor is Dafny's `/`). */
  function DurationLabel(s: int): string {
    if s % SecondsPerDay == 0 && s >= SecondsPerDay then IntToString(s / SecondsPerDay) + "d"
    else if s % SecondsPerHour == 0 && s >= SecondsPerHour then IntToString(s / SecondsPerHour) + "h"
    else IntToString(s / SecondsPerMinute) + "m"
  }

  /** A string of digits followed by a unit letter parses to digits times the unit. */
  lemma ParseDurationOfDigits(ds: string, u: char)
    requires IsDigits(ds) && IsUnit(u)
    ensures ParseDuration(ds + [u]) == Some(DigitsValue(ds) * UnitSeconds(u))
  {
    var t := ds + [u];
    LowerUnchanged(t);
    StripUnchanged(t);
    assert t[..|t| - 1] == ds;
    PyIntOfDigits(ds);
  }

  /** Without a unit letter at the end there is no duration. */
  lemma ParseDurationNeedsUnit(raw: string)
    requires Strip(Lower(raw)) == "" || !IsUnit(Last(Strip(Lower(raw))))
    ensures ParseDuration(raw) == None
  {
  }

  function Last(t: string): char
    requires t != ""
  {
    t[|t| - 1]
  }

  lemma IntToStringShape(i: int)
    ensures |IntToString(i)| > 0
    ensures forall k :: 0 <= k < |IntToString(i)| ==> IsDigit(IntToString(i)[k]) || IntToString(i)[k] == '-'
    ensures IsDigit(IntToString(i)[|IntToString(i)| - 1])
  {
    if i < 0 {
      NatToStringDigits(-i);
    } else {
      NatToStringDigits(i);
    }
  }

  lemma ParseLabel(q: int, u: char)
    requires IsUnit(u)
    ensures ParseDuration(IntToString(q) + [u]) == Some(q * UnitSeconds(u))
  {
    var p := IntToString(q);
    var t := p + [u];
    IntToStringShape(q);
    assert forall k :: 0 <= k < |t| ==> !('A' <= t[k] <= 'Z') by {
      forall k | 0 <= k < |t| ensures !('A' <= t[k] <= 'Z') {
        if k < |p| { assert t[k] == p[k]; }
      }
    }
    LowerUnchanged(t);
    assert t[0] == p[0];
    StripUnchanged(t);
    assert t[..|t| - 1] == p;
    PyIntOfIntToString(q);
  }

  lemma MultipleOfMinute(q: int, k: nat)
    requires k == SecondsPerDay || k == SecondsPerHour
    ensures (q * k) % SecondsPerMinute == 0
  {
    if k == SecondsPerDay {
      assert q * k == 60 * (q * 1440);
      MinuteMultiple(q * k, q * 1440);
    } else {
      assert q * k == 60 * (q * 60);
      MinuteMultiple(q * k, q * 60);
    }
  }

  lemma MinuteMultiple(x: int, m: int)
    requires x == 60 * m
    ensures x % SecondsPerMinute == 0
  {
  }

  lemma DayLabel(s: int)
    requires s % SecondsPerDay == 0 && s >= SecondsPerDay
    ensures ParseDuration(DurationLabel(s)) == Some(s) && s % SecondsPerMinute == 0
  {
    var q := s / SecondsPerDay;
    assert DurationLabel(s) == IntToString(q) + "d";
    ParseLabel(q, 'd');
    assert s == q * SecondsPerDay;
    MultipleOfMinute(q, SecondsPerDay);
  }

  lemma HourLabel(s: int)
    requires !(s % SecondsPerDay == 0 && s >= SecondsPerDay)
    requires s % SecondsPerHour == 0 && s >= SecondsPerHour
    ensures ParseDuration(DurationLabel(s)) == Some(s) && s % SecondsPerMinute == 0
  {
    var q := s / SecondsPerHour;
    assert DurationLabel(s) == IntToString(q) + "h";
    ParseLabel(q, 'h');
    assert s == q * SecondsPerHour;
    MultipleOfMinute(q, SecondsPerHour);
  }

  lemma MinuteLabel(s: int)
    requires !(s % SecondsPerDay == 0 && s >= SecondsPerDay)
    requires !(s % SecondsPerHour == 0 && s >= SecondsPerHour)
    ensures ParseDuration(DurationLabel(s)) == Some(s - s % SecondsPerMinute)
  {
    assert DurationLabel(s) == IntToString(s / SecondsPerMinute) + "m";
    MinutesParse(s);
  }

  lemma MinutesParse(s: int)
    ensures ParseDuration(IntToString(s / SecondsPerMinute) + "m") == Some(s - s % SecondsPerMinute)
  {
    var q := s / SecondsPerMinute;
    ParseLabel(q, 'm');
    DivMod(s, SecondsPerMinute);
  }

  lemma DivMod(s: int, k: nat)
    requires k > 0
    ensures (s / k) * k == s - s % k
  {
  }

  /** Parsing the label of a duration gives it back, rounded down to whole
      minutes (exactly, for a whole number of minutes). */
  lemma LabelRoundTrip(s: int)
    ensures ParseDuration(DurationLabel(s)) == Some(s - s % SecondsPerMinute)
  {
    if s % SecondsPerDay == 0 && s >= SecondsPerDay {
      DayLabel(s);
    } else if s % SecondsPerHour == 0 && s >= SecondsPerHour {
      HourLabel(s);
    } else {
      MinuteLabel(s);
    }
  }
}
