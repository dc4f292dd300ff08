/**
 * The RFC 3339 date-time reader behind time.Parse(time.RFC3339, s), as used on the
 * session's ValidUntil stamp (section 5.6 of RFC 3339): fixed-width fields, an optional
 * fraction of a second, and "Z" or a numeric offset.
 */
module Rfc3339 {
  import opened Wrappers
  import opened Text

  /** The fields of a stamp as written; `offset` is in minutes east of UTC. */
  datatype DateTime = DateTime(year: nat, month: nat, day: nat, hour: nat, minute: nat, second: nat,
                               nanos: nat, offset: int)

  const NanosPerSecond: nat := 1_000_000_000
  const MaxOffset: nat := 23 * 60 + 59

  predicate IsLeap(y: int) { y % 4 == 0 && (y % 100 != 0 || y % 400 == 0) }

  function DaysIn(m: int, y: int): int {
    if m == 2 then (if IsLeap(y) then 29 else 28)
    else if m == 4 || m == 6 || m == 9 || m == 11 then 30
    else 31
  }

  /** The ranges the reader checks. */
  predicate Valid(dt: DateTime) {
    && dt.year <= 9999
    && 1 <= dt.month <= 12 && 1 <= dt.day <= DaysIn(dt.month, dt.year)
    && dt.hour <= 23 && dt.minute <= 59 && dt.second <= 59
    && dt.nanos < NanosPerSecond
    && -(MaxOffset as int) <= dt.offset <= MaxOffset
  }

  // ---------------------------------------------------------------------------
  // Reading

  /** parseUint: the digits of s[lo..hi] as a number in [min, max], or None. */
  function Field(s: string, lo: int, hi: int, min: int, max: int): (r: Option<nat>)
    requires 0 <= lo <= hi <= |s|
    ensures r.Some? ==> min <= r.value <= max
  {
    if AllDigits(s[lo..hi]) && min <= DigitsValue(s[lo..hi]) <= max then Some(DigitsValue(s[lo..hi])) else None
  }

  function Pow10(k: nat): (r: nat)
    ensures r >= 1
  {
    if k == 0 then 1 else 10 * Pow10(k - 1)
  }

  /** parseNanoseconds: the first nine digits of the fraction, scaled to nanoseconds. */
  function FractionNanos(digits: string): (n: nat)
    requires AllDigits(digits)
  {
    if |digits| >= 9 then DigitsValue(digits[..9]) else DigitsValue(digits) * Pow10(9 - |digits|)
  }

  /** The zone designator: "Z", or a sign, two hour digits (0-23), ':' and two minute digits (0-59). */
  function Zone(z: string): (r: Option<int>)
    ensures r.Some? ==> -(MaxOffset as int) <= r.value <= MaxOffset
  {
    if z == "Z" then Some(0)
    else if |z| != 6 then None
    else
      var hr := Field(z, 1, 3, 0, 23);
      var mm := Field(z, 4, 6, 0, 59);
      if hr.Some? && mm.Some? && (z[0] == '-' || z[0] == '+') && z[3] == ':' then
        Some(if z[0] == '-' then -(hr.value * 60 + mm.value) else hr.value * 60 + mm.value)
      else None
  }

  /** The fraction of a second at the head of `rest`, if any, and what follows it. */
  function Fraction(rest: string): (r: (nat, string))
    ensures r.0 < NanosPerSecond && |r.1| <= |rest|
  {
    if |rest| >= 2 && rest[0] == '.' && IsDigit(rest[1]) then
      var n := 1 + DigitRun(rest, 1);
      DigitRunSpec(rest, 1);
      FractionBound(rest[1..n]);
      (FractionNanos(rest[1..n]), rest[n..])
    else (0, rest)
  }

  lemma FractionBound(digits: string)
    requires AllDigits(digits)
    ensures FractionNanos(digits) < NanosPerSecond
  {
    Pow10Nine();
    if |digits| >= 9 {
      DigitsBound(digits[..9]);
    } else {
      var k := |digits|;
      var v := DigitsValue(digits);
      DigitsBound(digits);
      Pow10Add(k, 9 - k);
      assert v * Pow10(9 - k) <= (Pow10(k) - 1) * Pow10(9 - k) by {
        assert v <= Pow10(k) - 1;
      }
    }
  }

  lemma Pow10Nine()
    ensures Pow10(9) == NanosPerSecond
  {
    assert Pow10(2) == 100;
    assert Pow10(4) == 10000;
    assert Pow10(6) == 1000000;
    assert Pow10(8) == 100000000;
  }

  lemma {:induction false} DigitsBound(s: string)
    requires AllDigits(s)
    ensures DigitsValue(s) < Pow10(|s|)
  {
    if s != [] {
      DigitsBound(s[..|s| - 1]);
    }
  }

  lemma {:induction false} Pow10Add(a: nat, b: nat)
    ensures Pow10(a) * Pow10(b) == Pow10(a + b)
  {
    if a > 0 {
      Pow10Add(a - 1, b);
    }
  }

  /** time.Parse(time.RFC3339, s): None stands for the parse error. */
  function Parse(s: string): (r: Option<DateTime>)
    ensures r.Some? ==> Valid(r.value)
  {
    if |s| < 19 then None
    else
      var year := Field(s, 0, 4, 0, 9999);
      var month := Field(s, 5, 7, 1, 12);
      var day := if year.Some? && month.Some? then Field(s, 8, 10, 1, DaysIn(month.value, year.value)) else None;
      var hour := Field(s, 11, 13, 0, 23);
      var minute := Field(s, 14, 16, 0, 59);
      var second := Field(s, 17, 19, 0, 59);
      if year.None? || month.None? || day.None? || hour.None? || minute.None? || second.None? then None
      else if !(s[4] == '-' && s[7] == '-' && s[10] == 'T' && s[13] == ':' && s[16] == ':') then None
      else
        var (nanos, rest) := Fraction(s[19..]);
        match Zone(rest)
        case None => None
        case Some(offset) =>
          Some(DateTime(year.value, month.value, day.value, hour.value, minute.value, second.value, nanos, offset))
  }

  // ---------------------------------------------------------------------------
  // Writing: the partner of Parse

  function DigitChar(d: nat): char
    requires d < 10
  {
    ('0' as int + d) as char
  }

  /** n in exactly w decimal digits, zero-padded on the left. */
  function Pad(n: nat, w: nat): (s: string)
    ensures |s| == w && AllDigits(s)
  {
    if w == 0 then [] else Pad(n / 10, w - 1) + [DigitChar(n % 10)]
  }

  lemma {:induction false} PadValue(n: nat, w: nat)
    requires n < Pow10(w)
    ensures DigitsValue(Pad(n, w)) == n
  {
    if w > 0 {
      PadValue(n / 10, w - 1);
      assert Pad(n, w)[..w - 1] == Pad(n / 10, w - 1);
    }
  }

  function ZoneText(offset: int): string {
    if offset == 0 then "Z"
    else
      var a := if offset < 0 then -offset else offset;
      [if offset < 0 then '-' else '+'] + Pad(a / 60, 2) + ":" + Pad(a % 60, 2)
  }

  /** The fixed-width date and time of day. */
  function Head(dt: DateTime): string {
    Pad(dt.year, 4) + "-" + Pad(dt.month, 2) + "-" + Pad(dt.day, 2) + "T"
    + Pad(dt.hour, 2) + ":" + Pad(dt.minute, 2) + ":" + Pad(dt.second, 2)
  }

  /** The fraction, with nine digits when there is one, and the zone. */
  function Tail(dt: DateTime): string {
    (if dt.nanos == 0 then "" else "." + Pad(dt.nanos, 9)) + ZoneText(dt.offset)
  }

  /** A stamp in the form Parse reads. */
  function Format(dt: DateTime): (s: string)
  {
    Head(dt) + Tail(dt)
  }

  lemma HeadLayout(dt: DateTime)
    ensures |Head(dt)| == 19
    ensures Head(dt)[0..4] == Pad(dt.year, 4) && Head(dt)[5..7] == Pad(dt.month, 2) && Head(dt)[8..10] == Pad(dt.day, 2)
    ensures Head(dt)[11..13] == Pad(dt.hour, 2) && Head(dt)[14..16] == Pad(dt.minute, 2)
    ensures Head(dt)[17..19] == Pad(dt.second, 2)
    ensures Head(dt)[4] == '-' && Head(dt)[7] == '-' && Head(dt)[10] == 'T' && Head(dt)[13] == ':' && Head(dt)[16] == ':'
  {
  }

  lemma FieldOfPad(s: string, lo: int, n: nat, w: nat, min: int, max: int)
    requires 0 <= lo && lo + w <= |s| && s[lo..lo + w] == Pad(n, w) && n < Pow10(w)
    requires min <= n <= max
    ensures Field(s, lo, lo + w, min, max) == Some(n)
  {
    PadValue(n, w);
  }

  lemma ZoneRoundTrip(offset: int)
    requires -(MaxOffset as int) <= offset <= MaxOffset
    ensures Zone(ZoneText(offset)) == Some(offset)
  {
    if offset != 0 {
      var a := if offset < 0 then -offset else offset;
      var z := ZoneText(offset);
      assert z[1..3] == Pad(a / 60, 2) && z[4..6] == Pad(a % 60, 2);
      FieldOfPad(z, 1, a / 60, 2, 0, 23);
      FieldOfPad(z, 4, a % 60, 2, 0, 59);
    }
  }

  lemma FractionRoundTrip(nanos: nat, zone: string)
    requires nanos < NanosPerSecond && (|zone| == 0 || (zone[0] != '.' && !IsDigit(zone[0])))
    ensures Fraction((if nanos == 0 then "" else "." + Pad(nanos, 9)) + zone) == (nanos, zone)
  {
    if nanos != 0 {
      var rest := "." + Pad(nanos, 9) + zone;
      assert rest[1..10] == Pad(nanos, 9);
      assert rest[10..] == zone;
      assert |zone| > 0 ==> rest[10] == zone[0];
      DigitRunOver(rest, 1, 9);
      assert rest[1..10][..9] == rest[1..10];
      Pow10Nine();
      PadValue(nanos, 9);
      assert FractionNanos(rest[1..10]) == nanos;
      assert rest[1] == Pad(nanos, 9)[0] && IsDigit(rest[1]);
      assert |rest| >= 2 && rest[0] == '.';
      assert Fraction(rest) == (nanos, zone);
    } else {
      assert "" + zone == zone;
    }
  }

  /** A run of k digits followed by a non-digit (or the end) has length exactly k. */
  lemma {:induction false} DigitRunOver(s: string, i: nat, k: nat)
    requires i + k <= |s| && AllDigits(s[i..i + k]) && (i + k == |s| || !IsDigit(s[i + k]))
    ensures DigitRun(s, i) == k
    decreases k
  {
    if k > 0 {
      assert IsDigit(s[i..i + k][0]);
      assert s[i + 1..i + k] == s[i..i + k][1..];
      DigitRunOver(s, i + 1, k - 1);
    }
  }

  /** Every valid stamp written by Format reads back as itself. */
  lemma FormatRoundTrip(dt: DateTime)
    requires Valid(dt)
    ensures Parse(Format(dt)) == Some(dt)
  {
    var s := Format(dt);
    HeadLayout(dt);
    HeadFields(s, dt);
    assert s[19..] == Tail(dt);
    var zone := ZoneText(dt.offset);
    assert zone[0] == 'Z' || zone[0] == '-' || zone[0] == '+';
    FractionRoundTrip(dt.nanos, zone);
    ZoneRoundTrip(dt.offset);
  }

  lemma HeadFields(s: string, dt: DateTime)
    requires Valid(dt) && |s| >= 19 && s[..19] == Head(dt)
    ensures Field(s, 0, 4, 0, 9999) == Some(dt.year) && Field(s, 5, 7, 1, 12) == Some(dt.month)
    ensures Field(s, 8, 10, 1, DaysIn(dt.month, dt.year)) == Some(dt.day)
    ensures Field(s, 11, 13, 0, 23) == Some(dt.hour) && Field(s, 14, 16, 0, 59) == Some(dt.minute)
    ensures Field(s, 17, 19, 0, 59) == Some(dt.second)
    ensures s[4] == '-' && s[7] == '-' && s[10] == 'T' && s[13] == ':' && s[16] == ':'
  {
    HeadLayout(dt);
    assert Pow10(2) == 100 && Pow10(4) == 10000;
    assert s[0..4] == Head(dt)[0..4] && s[5..7] == Head(dt)[5..7] && s[8..10] == Head(dt)[8..10];
    assert s[11..13] == Head(dt)[11..13] && s[14..16] == Head(dt)[14..16] && s[17..19] == Head(dt)[17..19];
    assert s[4] == Head(dt)[4] && s[7] == Head(dt)[7] && s[10] == Head(dt)[10];
    assert s[13] == Head(dt)[13] && s[16] == Head(dt)[16];
    FieldOfPad(s, 0, dt.year, 4, 0, 9999);
    FieldOfPad(s, 5, dt.month, 2, 1, 12);
    FieldOfPad(s, 8, dt.day, 2, 1, DaysIn(dt.month, dt.year));
    FieldOfPad(s, 11, dt.hour, 2, 0, 23);
    FieldOfPad(s, 14, dt.minute, 2, 0, 59);
    FieldOfPad(s, 17, dt.second, 2, 0, 59);
  }

  lemma ParseExamples()
    ensures Parse("2021-03-01T10:00:00z") == None
    ensures Parse("2021-03-01 10:00:00Z") == None
  {
    var t := "2021-03-01T10:00:00z";
    assert t[19..] == "z";
    var u := "2021-03-01 10:00:00Z";
    assert u[10] == ' ';
  }

  // ---------------------------------------------------------------------------
  // Instants

  /** Days from 0001-01-01 to January 1st of year y, in the proleptic Gregorian calendar. */
  function DaysBeforeYear(y: int): int {
    var p := y - 1;
    365 * p + p / 4 - p / 100 + p / 400
  }

  function DaysBeforeMonth(m: nat, y: int): int {
    if m <= 1 then 0 else DaysBeforeMonth(m - 1, y) + DaysIn(m - 1, y)
  }

  /** Nanoseconds since 0001-01-01T00:00:00Z, Go's zero Time. */
  function Instant(dt: DateTime): int {
    var days := DaysBeforeYear(dt.year) + DaysBeforeMonth(dt.month, dt.year) + dt.day - 1;
    ((days * 86400 + dt.hour * 3600 + dt.minute * 60 + dt.second) - dt.offset * 60) * NanosPerSecond + dt.nanos
  }

  /** The stamp a failed parse leaves: Go's zero Time. */
  const ZeroTime: DateTime := DateTime(1, 1, 1, 0, 0, 0, 0, 0)

  /** The instant of a parsed stamp, or of the zero Time when parsing fails. */
  function NotAfter(s: string): (r: int)
    ensures Parse(s).None? ==> r == 0
  {
    match Parse(s)
    case None => Instant(ZeroTime)
    case Some(dt) => Instant(dt)
  }

  lemma DivStep4(y: int)
    ensures y / 4 - (y - 1) / 4 == if y % 4 == 0 then 1 else 0
  {
  }

  lemma DivStep100(y: int)
    ensures y / 100 - (y - 1) / 100 == if y % 100 == 0 then 1 else 0
  {
  }

  lemma DivStep400(y: int)
    ensures y / 400 - (y - 1) / 400 == if y % 400 == 0 then 1 else 0
  {
  }

  /** Consecutive years are a year of days apart. */
  lemma YearLength(y: int)
    ensures DaysBeforeYear(y + 1) - DaysBeforeYear(y) == if IsLeap(y) then 366 else 365
  {
    DivStep4(y);
    DivStep100(y);
    DivStep400(y);
    DividesChain(y);
    assert DaysBeforeYear(y + 1) - DaysBeforeYear(y)
        == 365 + (y / 4 - (y - 1) / 4) - (y / 100 - (y - 1) / 100) + (y / 400 - (y - 1) / 400);
  }

  /** A multiple of 400 is a multiple of 100, and a multiple of 100 one of 4. */
  lemma DividesChain(y: int)
    ensures y % 400 == 0 ==> y % 100 == 0
    ensures y % 100 == 0 ==> y % 4 == 0
  {
    if y % 400 == 0 {
      assert y == 100 * (4 * (y / 400));
      Hundreds(4 * (y / 400));
    }
    if y % 100 == 0 {
      assert y == 4 * (25 * (y / 100));
      Fours(25 * (y / 100));
    }
  }

  lemma Hundreds(k: int)
    ensures (100 * k) % 100 == 0
  {
  }

  lemma Fours(k: int)
    ensures (4 * k) % 4 == 0
  {
  }

  /** The months add up to the year. */
  lemma MonthsFillYear(y: int)
    ensures DaysBeforeMonth(13, y) == DaysBeforeYear(y + 1) - DaysBeforeYear(y)
  {
    YearLength(y);
    assert DaysBeforeMonth(2, y) == DaysBeforeMonth(1, y) + DaysIn(1, y);
    assert DaysBeforeMonth(3, y) == DaysBeforeMonth(2, y) + DaysIn(2, y);
    assert DaysBeforeMonth(4, y) == DaysBeforeMonth(3, y) + DaysIn(3, y);
    assert DaysBeforeMonth(5, y) == DaysBeforeMonth(4, y) + DaysIn(4, y);
    assert DaysBeforeMonth(6, y) == DaysBeforeMonth(5, y) + DaysIn(5, y);
    assert DaysBeforeMonth(7, y) == DaysBeforeMonth(6, y) + DaysIn(6, y);
    assert DaysBeforeMonth(8, y) == DaysBeforeMonth(7, y) + DaysIn(7, y);
    assert DaysBeforeMonth(9, y) == DaysBeforeMonth(8, y) + DaysIn(8, y);
    assert DaysBeforeMonth(10, y) == DaysBeforeMonth(9, y) + DaysIn(9, y);
    assert DaysBeforeMonth(11, y) == DaysBeforeMonth(10, y) + DaysIn(10, y);
    assert DaysBeforeMonth(12, y) == DaysBeforeMonth(11, y) + DaysIn(11, y);
    assert DaysBeforeMonth(13, y) == 31 + DaysIn(2, y) + 31 + 30 + 31 + 30 + 31 + 31 + 30 + 31 + 30 + 31;
  }

  /** An offset east of UTC names an earlier instant than the same wall clock in UTC. */
  lemma OffsetShiftsInstant(dt: DateTime)
    ensures Instant(dt.(offset := 0)) - Instant(dt) == dt.offset * 60 * NanosPerSecond
  {
  }
}
