/** Naive `datetime` values and the fixed-field date formats the collectors
    parse. An instant is a whole number of seconds from 1970-01-01 00:00;
    `timedelta.days` of a difference floors towards minus infinity, which is
    exactly Dafny's `/` by a positive divisor. */
module Dates {
  import opened Common
  import opened Strings

  /** Seconds since 1970-01-01 00:00 (no time zone, as a naive datetime). */
  type Instant = int

  const SecondsPerDay: int := 86400

  /** `t + timedelta(days=n)`. */
  function AddDays(t: Instant, n: int): Instant
  {
    t + n * SecondsPerDay
  }

  /** `(later - earlier).days`: the whole days in the difference, rounded
      down (a difference of minus one second is day -1). */
  function DaysBetween(later: Instant, earlier: Instant): (r: int)
    ensures r * SecondsPerDay <= later - earlier < (r + 1) * SecondsPerDay
  {
    (later - earlier) / SecondsPerDay
  }

  lemma DaysBetweenAddDays(t: Instant, n: int)
    ensures DaysBetween(AddDays(t, n), t) == n
  {
  }

  /** A calendar date (the date part of a datetime). */
  datatype Date = Date(year: int, month: int, day: int)

  predicate IsLeapYear(y: int)
  {
    y % 4 == 0 && (y % 100 != 0 || y % 400 == 0)
  }

  function DaysInMonth(y: int, m: int): (r: int)
    requires 1 <= m <= 12
    ensures 28 <= r <= 31
  {
    if m == 2 then (if IsLeapYear(y) then 29 else 28)
    else if m == 4 || m == 6 || m == 9 || m == 11 then 30
    else 31
  }

  /** A date `datetime` accepts: years 1 to 9999 and a real day of the month. */
  predicate ValidDate(d: Date)
  {
    1 <= d.year <= 9999 && 1 <= d.month <= 12 && 1 <= d.day <= DaysInMonth(d.year, d.month)
  }

  /** Days from 1970-01-01 to `d` in the proleptic Gregorian calendar. */
  function DaysFromCivil(d: Date): int
    requires ValidDate(d)
  {
    var y := if d.month <= 2 then d.year - 1 else d.year;
    var era := y / 400;
    var yoe := y - era * 400;
    var mp := if d.month > 2 then d.month - 3 else d.month + 9;
    var doy := (153 * mp + 2) / 5 + d.day - 1;
    var doe := yoe * 365 + yoe / 4 - yoe / 100 + doy;
    era * 146097 + doe - 719468
  }

  /** The instant at which date `d` begins. */
  function Midnight(d: Date): Instant
    requires ValidDate(d)
  {
    DaysFromCivil(d) * SecondsPerDay
  }

  lemma EpochIsDayZero()
    ensures DaysFromCivil(Date(1970, 1, 1)) == 0
  {
  }

  lemma DayNumberExample()
    ensures DaysFromCivil(Date(2024, 1, 15)) == 19737
  {
  }

  /** The `w`-digit field of `s` starting at `i`, if all its characters are
      digits. */
  function Field(s: string, i: nat, w: nat): Option<nat>
    requires i + w <= |s|
  {
    if AllDigits(s[i..i + w]) then Some(DigitsValue(s[i..i + w])) else None
  }

  function MakeDate(y: Option<nat>, m: Option<nat>, d: Option<nat>): (r: Option<Date>)
    ensures r.Some? ==> ValidDate(r.value)
  {
    if y.Some? && m.Some? && d.Some? && ValidDate(Date(y.value, m.value, d.value))
    then Some(Date(y.value, m.value, d.value))
    else None
  }

  /** `strptime(s, '%Y-%m-%d')`, narrowed to zero-padded fields:
      exactly `YYYY-MM-DD` naming a real date. */
  function ParseYmd(s: string): (r: Option<Date>)
    ensures r.Some? ==> ValidDate(r.value) && |s| == 10
  {
    if |s| == 10 && s[4] == '-' && s[7] == '-'
    then MakeDate(Field(s, 0, 4), Field(s, 5, 2), Field(s, 8, 2))
    else None
  }

  /** `strptime(s, '%m/%d/%Y')`, narrowed to `MM/DD/YYYY`. */
  function ParseMdy(s: string): (r: Option<Date>)
    ensures r.Some? ==> ValidDate(r.value) && |s| == 10
  {
    if |s| == 10 && s[2] == '/' && s[5] == '/'
    then MakeDate(Field(s, 6, 4), Field(s, 0, 2), Field(s, 3, 2))
    else None
  }

  /** `strptime(s, '%Y-%m-%dT%H:%M:%S')`, narrowed to
      `YYYY-MM-DDTHH:MM:SS`; only the date part is kept. Seconds may be
      60 or 61, as `%S` allows. */
  function ParseYmdHms(s: string): (r: Option<Date>)
    ensures r.Some? ==> ValidDate(r.value) && |s| == 19
  {
    if |s| == 19 && s[10] == 'T' && s[13] == ':' && s[16] == ':' then
      var h, mi, se := Field(s, 11, 2), Field(s, 14, 2), Field(s, 17, 2);
      if h.Some? && h.value <= 23 && mi.Some? && mi.value <= 59 && se.Some? && se.value <= 61
      then ParseYmd(s[..10])
      else None
    else None
  }

  /** `datetime.fromisoformat(s)`, narrowed to `YYYY-MM-DD` (midnight) and
      `YYYY-MM-DDTHH:MM:SS` with a `T` or a space between date and time.
      The instant falls on the day the date part names. */
  function ParseIsoInstant(s: string): (r: Option<Instant>)
    ensures r.Some? ==> |s| >= 10 && ParseYmd(s[..10]).Some?
    ensures r.Some? ==> var day := Midnight(ParseYmd(s[..10]).value);
      day <= r.value < day + SecondsPerDay
  {
    if |s| == 10 then
      assert s[..10] == s;
      match ParseYmd(s)
      case None => None
      case Some(d) => Some(Midnight(d))
    else if |s| == 19 && (s[10] == 'T' || s[10] == ' ') && s[13] == ':' && s[16] == ':' then
      var h, mi, se := Field(s, 11, 2), Field(s, 14, 2), Field(s, 17, 2);
      if h.Some? && h.value <= 23 && mi.Some? && mi.value <= 59 && se.Some? && se.value <= 59 then
        match ParseYmd(s[..10])
        case None => None
        case Some(d) => Some(Midnight(d) + h.value * 3600 + mi.value * 60 + se.value)
      else None
    else None
  }

  /** `n` written with exactly `w` decimal digits, zero-padded. */
  function PadDigits(n: nat, w: nat): (r: string)
    requires n < Pow10(w)
    ensures |r| == w && AllDigits(r)
    ensures DigitsValue(r) == n
  {
    if w == 0 then []
    else
      var init := PadDigits(n / 10, w - 1);
      var r := init + ['0' + (n % 10) as char];
      assert r[..|r| - 1] == init;
      r
  }

  /** `d.strftime('%Y-%m-%d')` with a four-digit year. */
  function FormatYmd(d: Date): (r: string)
    requires ValidDate(d)
    ensures |r| == 10 && r[4] == '-' && r[7] == '-'
  {
    PadDigits(d.year, 4) + "-" + PadDigits(d.month, 2) + "-" + PadDigits(d.day, 2)
  }

  /** Parsing what was formatted gives the date back. */
  lemma ParseFormatYmd(d: Date)
    requires ValidDate(d)
    ensures ParseYmd(FormatYmd(d)) == Some(d)
  {
    var s := FormatYmd(d);
    assert s[0..4] == PadDigits(d.year, 4);
    assert s[5..7] == PadDigits(d.month, 2);
    assert s[8..10] == PadDigits(d.day, 2);
    assert Field(s, 0, 4) == Some(d.year);
    assert Field(s, 5, 2) == Some(d.month);
    assert Field(s, 8, 2) == Some(d.day);
  }

  /** A formatted date reads back as its midnight. */
  lemma ParseIsoOfFormatted(d: Date)
    requires ValidDate(d)
    ensures ParseIsoInstant(FormatYmd(d)) == Some(Midnight(d))
  {
    ParseFormatYmd(d);
  }

  /** A two-digit field read digit by digit. */
  lemma TwoDigitField(s: string, i: nat)
    requires i + 2 <= |s| && IsDigit(s[i]) && IsDigit(s[i + 1])
    ensures Field(s, i, 2) == Some(10 * DigitValue(s[i]) + DigitValue(s[i + 1]))
  {
    var f := s[i..i + 2];
    assert AllDigits(f);
    assert f[..1] == [s[i]] && f[1] == s[i + 1];
    assert [s[i]][..0] == [];
    assert DigitsValue([s[i]]) == DigitValue(s[i]);
    assert DigitsValue(f) == 10 * DigitsValue(f[..1]) + DigitValue(f[1]);
  }

  /** A four-digit field read digit by digit. */
  lemma FourDigitField(s: string, i: nat)
    requires i + 4 <= |s|
    requires IsDigit(s[i]) && IsDigit(s[i + 1]) && IsDigit(s[i + 2]) && IsDigit(s[i + 3])
    ensures Field(s, i, 4) == Some(1000 * DigitValue(s[i]) + 100 * DigitValue(s[i + 1]) + 10 * DigitValue(s[i + 2]) + DigitValue(s[i + 3]))
  {
    var f := s[i..i + 4];
    var g := [s[i], s[i + 1], s[i + 2]];
    var h := [s[i], s[i + 1]];
    assert AllDigits(f) && AllDigits(g) && AllDigits(h);
    assert f[..3] == g && f[3] == s[i + 3];
    assert g[..2] == h;
    assert h[..1] == [s[i]];
    assert [s[i]][..0] == [];
    assert DigitsValue([s[i]]) == DigitValue(s[i]);
    assert DigitsValue(h) == 10 * DigitValue(s[i]) + DigitValue(s[i + 1]);
    assert DigitsValue(g) == 10 * DigitsValue(h) + DigitValue(s[i + 2]);
    assert DigitsValue(f) == 10 * DigitsValue(g) + DigitValue(s[i + 3]);
  }
}
