/** The texts inside a grid document: numbers, times of day, dates, durations,
    weekdays (src/grid_toml.rs:849-1021, src/grid_index.rs:330-377). */
module GridText {
  import opened Base
  import opened Resolver

  // =====================================================================
  // Numbers
  // =====================================================================

  predicate IsDigit(c: char) { '0' <= c <= '9' }

  predicate AllDigits(s: string) { forall c <- s :: IsDigit(c) }

  function Decimal(n: nat): string {
    (if n < 10 then "" else Decimal(n / 10)) + [(48 + n % 10) as char]
  }

  function Value(s: string): nat
    requires AllDigits(s)
  {
    if s == "" then 0
    else
      assert s[|s| - 1] in s;
      10 * Value(s[..|s| - 1]) + (s[|s| - 1] as int - 48)
  }

  /** `s.parse::<uN>()`: digits, after an optional plus sign, up to `max`. */
  function ParseUInt(s: string, max: nat): Option<nat> {
    var digits := if s != "" && s[0] == '+' then s[1..] else s;
    if digits == "" || !AllDigits(digits) || Value(digits) > max then None else Some(Value(digits))
  }

  /** `{:0width}`. */
  function Padded(n: nat, width: nat): string { WithZeros(Max(0, width - |Decimal(n)|), Decimal(n)) }

  function WithZeros(k: nat, s: string): string { if k == 0 then s else ['0'] + WithZeros(k - 1, s) }

  lemma OneMoreDigit(s: string, c: char)
    requires AllDigits(s) && IsDigit(c)
    ensures AllDigits(s + [c]) && Value(s + [c]) == 10 * Value(s) + (c as int - 48)
  {
    assert (s + [c])[..|s|] == s;
  }

  lemma {:induction false} DecimalIsRead(n: nat)
    ensures AllDigits(Decimal(n)) && Value(Decimal(n)) == n && Decimal(n) != ""
    ensures n > 0 ==> Decimal(n)[0] != '0'
    decreases n
  {
    var before := if n < 10 then "" else Decimal(n / 10);
    if n >= 10 { DecimalIsRead(n / 10); }
    OneMoreDigit(before, (48 + n % 10) as char);
  }

  lemma {:induction false} DecimalLength(n: nat, k: nat, bound: nat)
    requires n < bound && IsTenTo(k, bound) && k > 0
    ensures |Decimal(n)| <= k
    decreases k
  {
    if n >= 10 { DecimalLength(n / 10, k - 1, bound / 10); }
  }

  lemma PowersOfTen()
    ensures IsTenTo(2, 100) && IsTenTo(4, 10000)
  {
    assert IsTenTo(1, 10);
    assert IsTenTo(3, 1000);
  }

  predicate IsTenTo(k: nat, bound: nat) {
    if k == 0 then bound == 1 else bound % 10 == 0 && IsTenTo(k - 1, bound / 10)
  }

  lemma PaddedIsRead(n: nat, width: nat)
    ensures AllDigits(Padded(n, width)) && Value(Padded(n, width)) == n && Padded(n, width) != ""
    ensures |Padded(n, width)| == Max(width, |Decimal(n)|)
  {
    DecimalIsRead(n);
    LeadingZeros(Max(0, width - |Decimal(n)|), Decimal(n));
  }

  lemma {:induction false} LeadingZeros(k: nat, s: string)
    requires AllDigits(s)
    ensures AllDigits(WithZeros(k, s)) && Value(WithZeros(k, s)) == Value(s) && |WithZeros(k, s)| == k + |s|
    decreases k
  {
    if k > 0 {
      LeadingZeros(k - 1, s);
      LeadingZero(WithZeros(k - 1, s));
    }
  }

  lemma {:induction false} LeadingZero(s: string)
    requires AllDigits(s)
    ensures AllDigits(['0'] + s) && Value(['0'] + s) == Value(s)
    decreases |s|
  {
    if s != "" {
      var init := s[..|s| - 1];
      assert (['0'] + s)[..|s|] == ['0'] + init;
      LeadingZero(init);
    }
  }

  lemma PaddedParses(n: nat, width: nat, max: nat)
    requires n <= max
    ensures ParseUInt(Padded(n, width), max) == Some(n)
  {
    PaddedIsRead(n, width);
    assert Padded(n, width)[0] in Padded(n, width);
  }

  // =====================================================================
  // Cutting texts
  // =====================================================================

  function SplitOnce(s: string, c: char): Option<(string, string)> {
    if s == "" then None
    else if s[0] == c then Some(("", s[1..]))
    else
      match SplitOnce(s[1..], c)
      case None => None
      case Some((a, b)) => Some(([s[0]] + a, b))
  }

  function Split(s: string, c: char): seq<string>
    decreases |s|
  {
    SplitOnceShortens(s, c);
    match SplitOnce(s, c)
    case None => [s]
    case Some((a, b)) => [a] + Split(b, c)
  }

  lemma {:induction false} SplitOnceShortens(s: string, c: char)
    ensures var cut := SplitOnce(s, c); cut.Some? ==> s == cut.value.0 + [c] + cut.value.1 && c !in cut.value.0
    ensures SplitOnce(s, c).None? <==> c !in s
    decreases |s|
  {
    if s != "" { SplitOnceShortens(s[1..], c); }
  }

  lemma {:induction false} SplitOnceCuts(a: string, c: char, b: string)
    requires c !in a
    ensures SplitOnce(a + [c] + b, c) == Some((a, b))
    decreases |a|
  {
    if a == "" {
      assert (a + [c] + b)[1..] == b;
    } else {
      SplitOnceCuts(a[1..], c, b);
      assert (a + [c] + b)[1..] == a[1..] + [c] + b;
      assert [a[0]] + a[1..] == a;
    }
  }

  lemma SplitThree(x: string, y: string, z: string, c: char)
    requires c !in x && c !in y && c !in z
    ensures Split(x + [c] + (y + [c] + z), c) == [x, y, z]
  {
    SplitOnceCuts(x, c, y + [c] + z);
    SplitOnceCuts(y, c, z);
    SplitOnceShortens(z, c);
    assert Split(z, c) == [z];
    assert Split(y + [c] + z, c) == [y] + [z];
  }

  /** Unicode white space, as `str::trim` sees it. */
  predicate IsSpace(c: char) {
    var n := c as int;
    || 9 <= n <= 13 || n == 32 || n == 0x85 || n == 0xA0 || n == 0x1680 || 0x2000 <= n <= 0x200A
    || n == 0x2028 || n == 0x2029 || n == 0x202F || n == 0x205F || n == 0x3000
  }

  function TrimStart(s: string): string {
    if s != "" && IsSpace(s[0]) then TrimStart(s[1..]) else s
  }

  function TrimEnd(s: string): string {
    if s != "" && IsSpace(s[|s| - 1]) then TrimEnd(s[..|s| - 1]) else s
  }

  function Trim(s: string): string { TrimEnd(TrimStart(s)) }

  lemma {:induction false} TrimmedEnds(s: string)
    ensures var t := TrimEnd(s); t <= s && (t != "" ==> !IsSpace(t[|t| - 1]))
    ensures var t := TrimStart(s); t != "" ==> !IsSpace(t[0])
    decreases |s|
  {
    if s != "" {
      TrimmedEnds(s[..|s| - 1]);
      TrimmedEnds(s[1..]);
    }
  }

  lemma TrimIsTrimmed(s: string)
    ensures Trim(Trim(s)) == Trim(s)
  {
    var start := TrimStart(s);
    var t := TrimEnd(start);
    TrimmedEnds(s);
    TrimmedEnds(start);
    if t != "" { assert t[0] == start[0]; }
  }

  // =====================================================================
  // Times of day, dates
  // =====================================================================

  predicate ClockOk(w: WallClock) { 0 <= w.hour <= 23 && 0 <= w.minute <= 59 }

  predicate DateOk(d: Date) { 0 <= d.year <= 9999 && 1 <= d.month <= 12 && 1 <= d.day <= 31 }

  function ParseClock(s: string): Option<WallClock> {
    match SplitOnce(s, ':')
    case None => None
    case Some((h, m)) =>
      match (ParseUInt(h, 255), ParseUInt(m, 255))
      case (Some(hour), Some(minute)) => if hour > 23 || minute > 59 then None else Some(WallClock(hour, minute))
      case _ => None
  }

  function ClockText(w: WallClock): string
    requires ClockOk(w)
  {
    Padded(w.hour, 2) + [':'] + Padded(w.minute, 2)
  }

  lemma ClockRoundTrip(w: WallClock)
    requires ClockOk(w)
    ensures ParseClock(ClockText(w)) == Some(w)
  {
    PaddedIsRead(w.hour, 2);
    SplitOnceCuts(Padded(w.hour, 2), ':', Padded(w.minute, 2));
    PaddedParses(w.hour, 2, 255);
    PaddedParses(w.minute, 2, 255);
  }

  /** Digits of one length with one value are the same. */
  lemma {:induction false} SameDigits(a: string, b: string)
    requires AllDigits(a) && AllDigits(b) && |a| == |b| && Value(a) == Value(b)
    ensures a == b
    decreases |a|
  {
    if a != "" {
      var n := |a| - 1;
      assert a[n] in a && b[n] in b;
      SameDigits(a[..n], b[..n]);
      assert a == a[..n] + [a[n]] && b == b[..n] + [b[n]];
    }
  }

  /** `HH:MM`. */
  predicate IsClockText(s: string) {
    |s| == 5 && s[2] == ':' && IsDigit(s[0]) && IsDigit(s[1]) && IsDigit(s[3]) && IsDigit(s[4])
  }

  lemma TwoDigitsPrint(s: string)
    requires AllDigits(s) && |s| == 2
    ensures ParseUInt(s, 255) == Some(Value(s)) && s == Padded(Value(s), 2)
  {
    PowersOfTen();
    FewDigitsAreSmall(s, 100);
    TwoDigits(Value(s));
    PaddedIsRead(Value(s), 2);
    SameDigits(s, Padded(Value(s), 2));
    assert s[0] in s;
  }

  lemma PrintedIsClockText(w: WallClock)
    requires ClockOk(w)
    ensures IsClockText(ClockText(w))
  {
    var hour, minute := Padded(w.hour, 2), Padded(w.minute, 2);
    TwoDigits(w.hour);
    TwoDigits(w.minute);
    PaddedIsRead(w.hour, 2);
    PaddedIsRead(w.minute, 2);
    assert hour[0] in hour && hour[1] in hour && minute[0] in minute && minute[1] in minute;
  }

  /** Of the texts of a time of day, only the printed one is `HH:MM`: any other
      text that is read is not. */
  lemma ClockTextExactly(s: string)
    requires ParseClock(s).Some?
    ensures s == ClockText(ParseClock(s).value) <==> IsClockText(s)
  {
    PrintedIsClockText(ParseClock(s).value);
    if IsClockText(s) {
      assert s == s[..2] + [':'] + s[3..];
      SplitOnceCuts(s[..2], ':', s[3..]);
      TwoDigitsPrint(s[..2]);
      TwoDigitsPrint(s[3..]);
    }
  }

  /** Others are read all the same, such as `+8:5`. */
  lemma LooseClock()
    ensures ParseClock("+8:5") == Some(WallClock(8, 5)) && !IsClockText("+8:5")
  {
    assert "+8:5" == "+8" + [':'] + "5";
    SplitOnceCuts("+8", ':', "5");
    assert "+8"[1..] == "8";
    OneMoreDigit("", '8');
    OneMoreDigit("", '5');
    assert "" + ['8'] == "8" && "" + ['5'] == "5";
  }

  function DateText(d: Date): string
    requires DateOk(d)
  {
    Padded(d.year, 4) + ['-'] + (Padded(d.month, 2) + ['-'] + Padded(d.day, 2))
  }

  const I32_MAX := 0x7FFF_FFFF

  /** The date of three texts, whatever their lengths. */
  function DateOf(parts: seq<string>): Option<Date>
    requires |parts| == 3
  {
    match (ParseUInt(parts[0], I32_MAX), ParseUInt(parts[1], 255), ParseUInt(parts[2], 255))
    case (Some(y), Some(m), Some(d)) => if 1 <= m <= 12 && 1 <= d <= 31 then Some(Date(y, m, d)) else None
    case _ => None
  }

  /** The grammar's dates: exactly four, two and two digits. */
  function ParseDate(s: string): Option<Date> {
    var parts := Split(s, '-');
    if |parts| != 3 || |parts[0]| != 4 || |parts[1]| != 2 || |parts[2]| != 2 ||
      !(forall c <- s :: IsDigit(c) || c == '-')
    then None
    else DateOf(parts)
  }

  /** The index's dates: three numbers. */
  function ReadDate(s: string): Option<Date> {
    var parts := Split(s, '-');
    if |parts| != 3 then None else DateOf(parts)
  }

  lemma TwoDigits(n: nat)
    requires n < 100
    ensures |Padded(n, 2)| == 2
  {
    PaddedIsRead(n, 2);
    PowersOfTen();
    DecimalLength(n, 2, 100);
  }

  lemma FourDigits(n: nat)
    requires n < 10000
    ensures |Padded(n, 4)| == 4
  {
    PaddedIsRead(n, 4);
    PowersOfTen();
    DecimalLength(n, 4, 10000);
  }

  lemma DateRoundTrip(d: Date)
    requires DateOk(d)
    ensures ParseDate(DateText(d)) == Some(d) && ReadDate(DateText(d)) == Some(d)
  {
    var y, m, day := Padded(d.year, 4), Padded(d.month, 2), Padded(d.day, 2);
    FourDigits(d.year);
    TwoDigits(d.month);
    TwoDigits(d.day);
    PaddedIsRead(d.year, 4);
    PaddedIsRead(d.month, 2);
    PaddedIsRead(d.day, 2);
    SplitThree(y, m, day, '-');
    PaddedParses(d.year, 4, I32_MAX);
    PaddedParses(d.month, 2, 255);
    PaddedParses(d.day, 2, 255);
  }

  lemma {:induction false} FewDigitsAreSmall(s: string, bound: nat)
    requires AllDigits(s) && IsTenTo(|s|, bound)
    ensures Value(s) < bound
    decreases |s|
  {
    if s != "" {
      FewDigitsAreSmall(s[..|s| - 1], bound / 10);
      assert s[|s| - 1] in s;
    }
  }

  lemma {:induction false} SplitPieces(s: string, c: char)
    ensures forall p <- Split(s, c) :: forall x <- p :: x in s && x != c
    decreases |s|
  {
    SplitOnceShortens(s, c);
    match SplitOnce(s, c)
    case None =>
    case Some((a, b)) => SplitPieces(b, c);
  }

  lemma ParsedDatesAreDates(s: string)
    requires ParseDate(s).Some?
    ensures DateOk(ParseDate(s).value)
  {
    SplitPieces(s, '-');
    var y := Split(s, '-')[0];
    assert y in Split(s, '-');
    assert AllDigits(y) && IsDigit(y[0]);
    PowersOfTen();
    FewDigitsAreSmall(y, 10000);
  }

  // =====================================================================
  // Durations, weekdays
  // =====================================================================

  /** A duration in seconds, none, or a text whose last character is not one
      byte: `split_at` panics on it (src/grid_toml.rs:965). */
  datatype Duration = Secs(secs: U64) | BadDuration | SplitPanics

  predicate IsUnit(c: char) { c == 's' || c == 'm' || c == 'h' || c == 'd' }

  /** `n` units in seconds. */
  function InSeconds(n: nat, unit: char): nat
    requires IsUnit(unit)
  {
    if unit == 's' then n else if unit == 'm' then 60 * n else if unit == 'h' then 3600 * n else 86400 * n
  }

  predicate OneByte(c: char) { c as int < 128 }

  function ParseDuration(s: string): Duration {
    if s == "" then BadDuration
    else if !OneByte(s[|s| - 1]) then SplitPanics
    else if |s| < 2 then BadDuration
    else
      var num, unit := s[..|s| - 1], s[|s| - 1];
      if !IsUnit(unit) || num[0] == '0' || !AllDigits(num) then BadDuration
      else if Value(num) == 0 || InSeconds(Value(num), unit) > U64_MAX then BadDuration
      else Secs(InSeconds(Value(num), unit))
  }

  /** The largest unit that divides, and how many of them. */
  function UnitOf(secs: U64): char {
    if secs % 86400 == 0 then 'd' else if secs % 3600 == 0 then 'h' else if secs % 60 == 0 then 'm' else 's'
  }

  function UnitsIn(secs: U64): nat {
    if secs % 86400 == 0 then secs / 86400
    else if secs % 3600 == 0 then secs / 3600
    else if secs % 60 == 0 then secs / 60
    else secs
  }

  function DurationText(secs: U64): string { Decimal(UnitsIn(secs)) + [UnitOf(secs)] }

  lemma UnitsMakeSeconds(secs: U64)
    ensures InSeconds(UnitsIn(secs), UnitOf(secs)) == secs
    ensures 0 < secs ==> 0 < UnitsIn(secs)
  {
  }

  lemma UnitIsRead(n: nat, unit: char)
    requires 0 < n && IsUnit(unit) && InSeconds(n, unit) <= U64_MAX
    ensures ParseDuration(Decimal(n) + [unit]) == Secs(InSeconds(n, unit))
  {
    DecimalIsRead(n);
    var s := Decimal(n) + [unit];
    assert s[..|s| - 1] == Decimal(n);
  }

  lemma DurationRoundTrip(secs: U64)
    requires 0 < secs
    ensures ParseDuration(DurationText(secs)) == Secs(secs)
  {
    UnitsMakeSeconds(secs);
    UnitIsRead(UnitsIn(secs), UnitOf(secs));
  }

  lemma DurationsArePositive(s: string)
    requires ParseDuration(s).Secs?
    ensures 0 < ParseDuration(s).secs
  {
  }

  function WeekdayText(w: Weekday): string {
    match w
    case Mon => "mon"
    case Tue => "tue"
    case Wed => "wed"
    case Thu => "thu"
    case Fri => "fri"
    case Sat => "sat"
    case Sun => "sun"
  }

  function ParseWeekday(s: string): (w: Option<Weekday>)
    ensures w.Some? ==> WeekdayText(w.value) == s
  {
    if s == "mon" then Some(Mon)
    else if s == "tue" then Some(Tue)
    else if s == "wed" then Some(Wed)
    else if s == "thu" then Some(Thu)
    else if s == "fri" then Some(Fri)
    else if s == "sat" then Some(Sat)
    else if s == "sun" then Some(Sun)
    else None
  }

  lemma WeekdayRoundTrip(w: Weekday)
    ensures ParseWeekday(WeekdayText(w)) == Some(w)
  {
  }
}
