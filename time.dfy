// Durations written as "<digits><unit>" (s, m, h, d) and their English rendering.

module Time {
  import opened Common

  const SECOND_MS: nat := 1000
  const MINUTE_MS: nat := 60000
  const HOUR_MS: nat := 3600000
  const DAY_MS: nat := 86400000

  /** A unit letter the duration pattern accepts, in either case. */
  predicate IsUnit(u: char)
  {
    var l := LowerChar(u);
    l == 's' || l == 'm' || l == 'h' || l == 'd'
  }

  /** Milliseconds per unit, looked up after lower-casing the letter. */
  function UnitMs(u: char): nat
    requires IsUnit(u)
  {
    match LowerChar(u)
    case 's' => SECOND_MS
    case 'm' => MINUTE_MS
    case 'h' => HOUR_MS
    case _ => DAY_MS
  }

  /** The trimmed text is one or more ASCII digits followed by one unit letter. */
  predicate DurationShape(t: string)
  {
    |t| >= 2 && AllDigits(t[..|t| - 1]) && IsUnit(t[|t| - 1])
  }

  /** The digits-then-unit pattern applied to already trimmed text. */
  function ParseTrimmed(t: string): (r: Option<nat>)
    ensures r.Some? <==> DurationShape(t)
  {
    if DurationShape(t) then Some(DigitsValue(t[..|t| - 1]) * UnitMs(t[|t| - 1])) else None
  }

  /**
   * parseDuration: null for a missing or empty input and for any text that is
   * not digits-then-unit once surrounding whitespace is removed.
   */
  function ParseDuration(input: Option<string>): (r: Option<nat>)
    ensures !Truthy(input) ==> r == None
    ensures r.Some? <==> Truthy(input) && DurationShape(Trim(input.value))
  {
    if !Truthy(input) then None else ParseTrimmed(Trim(input.value))
  }

  /** Any padding, any digit string, any unit letter: the value is n times the unit. */
  lemma ParseDurationAccepts(pre: string, n: nat, u: char, post: string)
    requires AllSpace(pre) && AllSpace(post) && IsUnit(u)
    ensures ParseDuration(Some(pre + NatToString(n) + [u] + post)) == Some(n * UnitMs(u))
  {
    var core := NatToString(n) + [u];
    assert pre + NatToString(n) + [u] + post == pre + core + post;
    UnitNotSpace(u);
    DigitNotSpace(core[0]);
    TrimPadded(pre, core, post);
    assert core[..|core| - 1] == NatToString(n);
    DigitsValueOfNatToString(n);
  }

  /** Text that ends in a digit, with no unit letter after it, never parses ("10", "h10"). */
  lemma ParseDurationNeedsTrailingUnit(s: string)
    requires Trim(s) != [] && IsDigit(Trim(s)[|Trim(s)| - 1])
    ensures ParseDuration(Some(s)) == None
  {
  }

  // ------------------------------------------------------------ formatting

  datatype Components = Components(days: nat, hours: nat, minutes: nat, seconds: nat)

  lemma ModDayHour(x: nat)
    ensures (x % DAY_MS) % HOUR_MS == x % HOUR_MS
    ensures x == (x / DAY_MS) * DAY_MS + ((x % DAY_MS) / HOUR_MS) * HOUR_MS + x % HOUR_MS
  {
  }

  lemma ModHourMinute(x: nat)
    ensures x % HOUR_MS == ((x % HOUR_MS) / MINUTE_MS) * MINUTE_MS + x % MINUTE_MS
  {
  }

  lemma ModMinuteSecond(x: nat)
    ensures x % MINUTE_MS == ((x % MINUTE_MS) / SECOND_MS) * SECOND_MS + x % SECOND_MS
  {
  }

  /** Whole days, then the hours, minutes and seconds left over, by floor division. */
  function Breakdown(ms: nat): Components
  {
    Components(ms / DAY_MS, (ms % DAY_MS) / HOUR_MS, (ms % HOUR_MS) / MINUTE_MS, (ms % MINUTE_MS) / SECOND_MS)
  }

  /** The components are in range and add back up to the duration less its sub-second part. */
  lemma BreakdownExact(ms: nat)
    ensures var c := Breakdown(ms);
      c.hours < 24 && c.minutes < 60 && c.seconds < 60
      && c.days * DAY_MS + c.hours * HOUR_MS + c.minutes * MINUTE_MS + c.seconds * SECOND_MS == ms - ms % SECOND_MS
  {
    ModDayHour(ms);
    ModHourMinute(ms);
    ModMinuteSecond(ms);
  }

  /** "<n> <unit>" with an "s" exactly when n is not 1. */
  function Phrase(n: nat, unit: string): string
  {
    NatToString(n) + " " + unit + (if n != 1 then "s" else "")
  }

  function Phrases(c: Components): seq<string>
  {
    (if c.days > 0 then [Phrase(c.days, "day")] else [])
    + (if c.hours > 0 then [Phrase(c.hours, "hour")] else [])
    + (if c.minutes > 0 then [Phrase(c.minutes, "minute")] else [])
    + (if c.seconds > 0 then [Phrase(c.seconds, "second")] else [])
  }

  /** formatDuration: "0 seconds" for a missing or non-positive value. */
  function FormatDuration(ms: Option<int>): (r: string)
    ensures ms.None? || ms.value <= 0 ==> r == "0 seconds"
  {
    if ms.None? || ms.value <= 0 then "0 seconds"
    else Join(Phrases(Breakdown(ms.value)), ", ")
  }

  /** A positive duration renders as the empty string exactly when it is under one second. */
  lemma FormatDurationEmptyIffSubSecond(ms: int)
    requires ms > 0
    ensures FormatDuration(Some(ms)) == "" <==> ms < SECOND_MS
  {
    var c := Breakdown(ms);
    BreakdownExact(ms);
    var ps := Phrases(c);
    if ms < SECOND_MS {
      assert c == Components(0, 0, 0, 0);
      assert ps == [];
    } else {
      assert c.days > 0 || c.hours > 0 || c.minutes > 0 || c.seconds > 0;
      assert ps != [] && ps[0] != "";
      assert |Join(ps, ", ")| >= |ps[0]|;
    }
  }

  /** The largest count a single unit can carry before it spills into the next one. */
  predicate FitsOneUnit(n: nat, u: char)
    requires IsUnit(u)
  {
    match LowerChar(u)
    case 's' => n < 60
    case 'm' => n < 60
    case 'h' => n < 24
    case _ => true
  }

  function UnitName(u: char): string
    requires IsUnit(u)
  {
    match LowerChar(u)
    case 's' => "second"
    case 'm' => "minute"
    case 'h' => "hour"
    case _ => "day"
  }

  lemma BreakdownOfOneUnit(n: nat, u: char)
    requires IsUnit(u) && FitsOneUnit(n, u)
    ensures Breakdown(n * UnitMs(u)) == match LowerChar(u)
      case 's' => Components(0, 0, 0, n)
      case 'm' => Components(0, 0, n, 0)
      case 'h' => Components(0, n, 0, 0)
      case _ => Components(n, 0, 0, 0)
  {
    match LowerChar(u)
    case 's' => BreakdownExact(n * 1000); assert Breakdown(n * 1000) == Components(0, 0, 0, n);
    case 'm' => BreakdownExact(n * 60000); assert Breakdown(n * 60000) == Components(0, 0, n, 0);
    case 'h' => BreakdownExact(n * 3600000); assert Breakdown(n * 3600000) == Components(0, n, 0, 0);
    case _ => BreakdownExact(n * 86400000); assert Breakdown(n * 86400000) == Components(n, 0, 0, 0);
  }

  lemma OneUnitPositive(n: nat, u: char)
    requires n > 0 && IsUnit(u)
    ensures n * UnitMs(u) > 0
  {
    var ms := n * UnitMs(u);
    match LowerChar(u)
    case 's' => assert ms == n * 1000;
    case 'm' => assert ms == n * 60000;
    case 'h' => assert ms == n * 3600000;
    case _ => assert ms == n * 86400000;
  }

  lemma UnitNotSpace(u: char)
    requires IsUnit(u)
    ensures !IsJsSpace(u)
  {
  }

  lemma ParseDurationUnpadded(n: nat, u: char)
    requires IsUnit(u)
    ensures ParseDuration(Some(NatToString(n) + [u])) == Some(n * UnitMs(u))
  {
    var digits := NatToString(n);
    var core := digits + [u];
    UnitNotSpace(u);
    DigitNotSpace(digits[0]);
    assert core[0] == digits[0];
    TrimUnpadded(core);
    assert core[..|core| - 1] == digits;
    DigitsValueOfNatToString(n);
  }

  lemma FormatOneUnit(n: nat, u: char)
    requires n > 0 && IsUnit(u) && FitsOneUnit(n, u)
    ensures FormatDuration(Some(n * UnitMs(u))) == Phrase(n, UnitName(u))
  {
    OneUnitPositive(n, u);
    BreakdownOfOneUnit(n, u);
    assert Phrases(Breakdown(n * UnitMs(u))) == [Phrase(n, UnitName(u))];
  }

  /** Parsing "2h" and formatting the result gives "2 hours", for every unit. */
  lemma FormatParseRoundTrip(n: nat, u: char)
    requires n > 0 && IsUnit(u) && FitsOneUnit(n, u)
    ensures FormatDuration(ParseDuration(Some(NatToString(n) + [u]))) == Phrase(n, UnitName(u))
  {
    ParseDurationUnpadded(n, u);
    FormatOneUnit(n, u);
  }
}
