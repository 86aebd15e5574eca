/** The cell parsers and the purchase rule of the OpenInsider collector.
    The scraped table is given as rows of cell texts; the ticker of a row,
    which the collector reads from a link inside the row, and the clock are
    parameters. */
module OpenInsider {
  import opened Common
  import opened Strings
  import opened Dates

  // ---------------------------------------------------------------- numbers

  /** The marks `_parse_float` deletes before reading a number: `$`, `,`,
      `%` and `+`, in that order. */
  function DropFloatMarks(s: string): string
  {
    RemoveChar(RemoveChar(RemoveChar(RemoveChar(s, '$'), ','), '%'), '+')
  }

  /** The marks `_parse_int` deletes: `$`, `,` and `+`, but not `%`. */
  function DropIntMarks(s: string): string
  {
    RemoveChar(RemoveChar(RemoveChar(s, '$'), ','), '+')
  }

  predicate FloatMark(c: char) { c == '$' || c == ',' || c == '%' || c == '+' }
  predicate IntMark(c: char) { c == '$' || c == ',' || c == '+' }

  /** The cleaned text `_parse_float` reads. */
  function CleanFloat(s: string): string
  {
    Strip(DropFloatMarks(s))
  }

  /** The cleaned text `_parse_int` reads. */
  function CleanInt(s: string): string
  {
    Strip(DropIntMarks(s))
  }

  /** The texts the parsers read as zero without calling `float()`. */
  predicate Placeholder(c: string)
  {
    c == [] || c == "-" || c == "N/A"
  }

  /** A cleaned text read as a float: zero for a placeholder or for text
      `float()` rejects, so a non-zero result is what `float()` read. */
  function ReadFloat(c: string): (r: real)
    ensures r != 0.0 ==> ParseDecimal(c) == Some(r)
    ensures ParseDecimal(c).None? ==> r == 0.0
  {
    if Placeholder(c) then 0.0
    else match ParseDecimal(c)
      case Some(v) => v
      case None => 0.0
  }

  /** A cleaned text read as `int(float(c))`: truncated toward zero, and
      zero for a placeholder or for text `float()` rejects. */
  function ReadInt(c: string): (r: int)
    ensures r != 0 ==> exists v :: ParseDecimal(c) == Some(v) && Trunc(v) == r
    ensures ParseDecimal(c).None? ==> r == 0
  {
    if Placeholder(c) then 0
    else match ParseDecimal(c)
      case Some(v) => Trunc(v)
      case None => 0
  }

  /** `_parse_float`. It never fails: bad text is read as zero. */
  function ParseFloat(s: string): real
  {
    ReadFloat(CleanFloat(s))
  }

  /** `_parse_int`. It never fails: bad text is read as zero. */
  function ParseInt(s: string): int
  {
    ReadInt(CleanInt(s))
  }

  // ---------------------------------------------------------------- dates

  /** `strptime(c, '%Y-%m-%d')` at midnight, or the current time `now`
      for the ValueError. */
  function ReadDate(c: string, now: Instant): Instant
  {
    match ParseYmd(c)
    case Some(d) => Midnight(d)
    case None => now
  }

  /** `_parse_date`: the stripped cell read as a date. */
  function ParseDate(s: string, now: Instant): Instant
  {
    ReadDate(Strip(s), now)
  }

  // ---------------------------------------------------------------- rows

  /** One collected insider trade; `collectedAt` is the current time. */
  datatype InsiderTrade = InsiderTrade(
    ticker: string,
    filingDate: Instant,
    tradeDate: Instant,
    insiderName: string,
    insiderTitle: string,
    tradeType: string,
    price: real,
    shares: int,
    value: int,
    ownershipChangePct: real,
    isClusterBuy: bool,
    collectedAt: Instant)

  /** The rule that keeps a parsed row: a purchase (`P`) of positive value. */
  predicate IsPurchase(t: InsiderTrade)
  {
    t.tradeType == "P" && t.value > 0
  }

  /** A table row read into a trade. Rows of fewer than ten cells and rows
      without a ticker are skipped; the parsers never fail, so no other row
      is skipped before the purchase rule. */
  function ParseRow(cells: seq<string>, ticker: string, isCluster: bool, now: Instant): (r: Option<InsiderTrade>)
    ensures r.Some? <==> |cells| >= 10 && ticker != []
    ensures r.Some? ==>
      && r.value.ticker == ticker
      && r.value.tradeType == Strip(cells[6])
      && r.value.price == ParseFloat(cells[7])
      && r.value.shares == ParseInt(cells[8])
      && r.value.value == ParseInt(cells[9])
      && r.value.filingDate == ParseDate(Strip(cells[1]), now)
      && r.value.tradeDate == ParseDate(Strip(cells[2]), now)
      && r.value.ownershipChangePct == (if |cells| > 10 then ParseFloat(cells[10]) else 0.0)
      && r.value.isClusterBuy == isCluster && r.value.collectedAt == now
  {
    if |cells| < 10 || ticker == [] then None
    else
      Some(InsiderTrade(
        ticker,
        ParseDate(Strip(cells[1]), now),
        ParseDate(Strip(cells[2]), now),
        Strip(cells[4]),
        Strip(cells[5]),
        Strip(cells[6]),
        ParseFloat(cells[7]),
        ParseInt(cells[8]),
        ParseInt(cells[9]),
        if |cells| > 10 then ParseFloat(cells[10]) else 0.0,
        isCluster,
        now))
  }

  /** One scraped row: its cell texts and the ticker read from its link
      (empty when none was found). */
  datatype ScrapedRow = ScrapedRow(cells: seq<string>, ticker: string)

  /** The row at `i`, parsed, when it is a purchase. */
  function KeptRow(rows: seq<ScrapedRow>, isCluster: bool, now: Instant): nat -> Option<InsiderTrade>
  {
    (i: nat) =>
      if i < |rows| then
        var t := ParseRow(rows[i].cells, rows[i].ticker, isCluster, now);
        if t.Some? && IsPurchase(t.value) then t else None
      else None
  }

  /** `_scrape_table`'s result, in table order. */
  function Collect(rows: seq<ScrapedRow>, isCluster: bool, now: Instant): seq<InsiderTrade>
  {
    Somes(|rows|, KeptRow(rows, isCluster, now))
  }

  /** A trade is collected exactly when some row of at least ten cells with
      a ticker parses into it and it is a purchase of positive value. */
  lemma CollectedAreParsedPurchases(rows: seq<ScrapedRow>, isCluster: bool, now: Instant, t: InsiderTrade)
    ensures t in Collect(rows, isCluster, now) <==>
      && IsPurchase(t)
      && exists i | 0 <= i < |rows| :: ParseRow(rows[i].cells, rows[i].ticker, isCluster, now) == Some(t)
  {
    var f := KeptRow(rows, isCluster, now);
    SomesMembers(|rows|, f, t);
    if t in Collect(rows, isCluster, now) {
      var i :| 0 <= i < |rows| && f(i) == Some(t);
      assert ParseRow(rows[i].cells, rows[i].ticker, isCluster, now) == Some(t);
    }
    if IsPurchase(t) && exists i | 0 <= i < |rows| :: ParseRow(rows[i].cells, rows[i].ticker, isCluster, now) == Some(t) {
      var i :| 0 <= i < |rows| && ParseRow(rows[i].cells, rows[i].ticker, isCluster, now) == Some(t);
      assert f(i) == Some(t);
    }
  }

  /** Every collected trade is a purchase of positive value. */
  lemma CollectedArePurchases(rows: seq<ScrapedRow>, isCluster: bool, now: Instant)
    ensures forall t | t in Collect(rows, isCluster, now) :: t.tradeType == "P" && t.value > 0
  {
    forall t | t in Collect(rows, isCluster, now)
      ensures t.tradeType == "P" && t.value > 0
    {
      CollectedAreParsedPurchases(rows, isCluster, now, t);
    }
  }

  // ---------------------------------------------------------------- marks

  lemma DropFloatMarksAppend(a: string, b: string)
    ensures DropFloatMarks(a + b) == DropFloatMarks(a) + DropFloatMarks(b)
  {
    var a1, b1 := RemoveChar(a, '$'), RemoveChar(b, '$');
    var a2, b2 := RemoveChar(a1, ','), RemoveChar(b1, ',');
    var a3, b3 := RemoveChar(a2, '%'), RemoveChar(b2, '%');
    RemoveCharAppend(a, b, '$');
    RemoveCharAppend(a1, b1, ',');
    RemoveCharAppend(a2, b2, '%');
    RemoveCharAppend(a3, b3, '+');
  }

  lemma DropIntMarksAppend(a: string, b: string)
    ensures DropIntMarks(a + b) == DropIntMarks(a) + DropIntMarks(b)
  {
    var a1, b1 := RemoveChar(a, '$'), RemoveChar(b, '$');
    var a2, b2 := RemoveChar(a1, ','), RemoveChar(b1, ',');
    RemoveCharAppend(a, b, '$');
    RemoveCharAppend(a1, b1, ',');
    RemoveCharAppend(a2, b2, '+');
  }

  /** A lone character other than `c` survives the removal of `c`. */
  lemma RemoveOther(x: char, c: char)
    requires x != c
    ensures RemoveChar([x], c) == [x]
  {
    RemoveCharAbsent([x], c);
  }

  lemma DropFloatMark(c: char)
    requires FloatMark(c)
    ensures DropFloatMarks([c]) == []
  {
    if c == '$' {
      RemoveCharOnly('$');
      assert DropFloatMarks([c]) == [];
    } else if c == ',' {
      RemoveOther(c, '$');
      RemoveCharOnly(',');
      assert DropFloatMarks([c]) == [];
    } else if c == '%' {
      RemoveOther(c, '$');
      RemoveOther(c, ',');
      RemoveCharOnly('%');
      assert DropFloatMarks([c]) == [];
    } else {
      RemoveOther(c, '$');
      RemoveOther(c, ',');
      RemoveOther(c, '%');
      RemoveCharOnly('+');
    }
  }

  lemma DropIntMark(c: char)
    requires IntMark(c)
    ensures DropIntMarks([c]) == []
  {
    if c == '$' {
      RemoveCharOnly('$');
      assert DropIntMarks([c]) == [];
    } else if c == ',' {
      RemoveOther(c, '$');
      RemoveCharOnly(',');
      assert DropIntMarks([c]) == [];
    } else {
      RemoveOther(c, '$');
      RemoveOther(c, ',');
      RemoveCharOnly('+');
    }
  }

  /** A text without marks is kept as it is. */
  lemma DropFloatMarksPlain(x: string)
    requires forall i | 0 <= i < |x| :: !FloatMark(x[i])
    ensures DropFloatMarks(x) == x
  {
    RemoveCharAbsent(x, '$');
    RemoveCharAbsent(x, ',');
    RemoveCharAbsent(x, '%');
    RemoveCharAbsent(x, '+');
  }

  lemma DropIntMarksPlain(x: string)
    requires forall i | 0 <= i < |x| :: !IntMark(x[i])
    ensures DropIntMarks(x) == x
  {
    RemoveCharAbsent(x, '$');
    RemoveCharAbsent(x, ',');
    RemoveCharAbsent(x, '+');
  }

  /** `%` survives `_parse_int`'s cleaning. */
  lemma DropIntMarksPercent()
    ensures DropIntMarks("%") == "%"
  {
    RemoveOther('%', '$');
    RemoveOther('%', ',');
    RemoveOther('%', '+');
  }

  lemma DropFloatMarksIgnoresMark(a: string, c: char, b: string)
    requires FloatMark(c)
    ensures DropFloatMarks(a + [c] + b) == DropFloatMarks(a + b)
  {
    DropFloatMarksAppend(a + [c], b);
    DropFloatMarksAppend(a, [c]);
    DropFloatMarksAppend(a, b);
    DropFloatMark(c);
  }

  lemma DropIntMarksIgnoresMark(a: string, c: char, b: string)
    requires IntMark(c)
    ensures DropIntMarks(a + [c] + b) == DropIntMarks(a + b)
  {
    DropIntMarksAppend(a + [c], b);
    DropIntMarksAppend(a, [c]);
    DropIntMarksAppend(a, b);
    DropIntMark(c);
  }

  /** A mark anywhere in the text is removed by the float cleaning. */
  lemma CleanFloatIgnoresMark(a: string, c: char, b: string)
    requires FloatMark(c)
    ensures CleanFloat(a + [c] + b) == CleanFloat(a + b)
  {
    DropFloatMarksIgnoresMark(a, c, b);
  }

  /** A `$`, `,` or `+` anywhere in the text is removed by the integer
      cleaning. */
  lemma CleanIntIgnoresMark(a: string, c: char, b: string)
    requires IntMark(c)
    ensures CleanInt(a + [c] + b) == CleanInt(a + b)
  {
    DropIntMarksIgnoresMark(a, c, b);
  }

  /** A leading mark is removed by the float cleaning. */
  lemma CleanFloatIgnoresFirst(c: char, b: string)
    requires FloatMark(c)
    ensures CleanFloat([c] + b) == CleanFloat(b)
  {
    DropFloatMarksAppend([c], b);
    DropFloatMark(c);
    assert DropFloatMarks([c] + b) == DropFloatMarks(b);
  }

  /** A trailing mark is removed by the float cleaning. */
  lemma CleanFloatIgnoresLast(a: string, c: char)
    requires FloatMark(c)
    ensures CleanFloat(a + [c]) == CleanFloat(a)
  {
    DropFloatMarksAppend(a, [c]);
    DropFloatMark(c);
    assert DropFloatMarks(a + [c]) == DropFloatMarks(a);
  }

  /** A leading `$`, `,` or `+` is removed by the integer cleaning. */
  lemma CleanIntIgnoresFirst(c: char, b: string)
    requires IntMark(c)
    ensures CleanInt([c] + b) == CleanInt(b)
  {
    DropIntMarksAppend([c], b);
    DropIntMark(c);
    assert DropIntMarks([c] + b) == DropIntMarks(b);
  }

  /** A stripped text without marks is its own cleaning. */
  lemma CleanFloatPlain(x: string)
    requires forall i | 0 <= i < |x| :: !FloatMark(x[i])
    requires Strip(x) == x
    ensures CleanFloat(x) == x
  {
    DropFloatMarksPlain(x);
  }

  lemma CleanIntPlain(x: string)
    requires forall i | 0 <= i < |x| :: !IntMark(x[i])
    requires Strip(x) == x
    ensures CleanInt(x) == x
  {
    DropIntMarksPlain(x);
  }

  // ---------------------------------------------------------------- parser lemmas

  /** A mark anywhere in the cell is ignored by `_parse_float`. */
  lemma ParseFloatIgnoresMark(a: string, c: char, b: string)
    requires FloatMark(c)
    ensures ParseFloat(a + [c] + b) == ParseFloat(a + b)
  {
    CleanFloatIgnoresMark(a, c, b);
  }

  /** A `$`, `,` or `+` anywhere in the cell is ignored by `_parse_int`. */
  lemma ParseIntIgnoresMark(a: string, c: char, b: string)
    requires IntMark(c)
    ensures ParseInt(a + [c] + b) == ParseInt(a + b)
  {
    CleanIntIgnoresMark(a, c, b);
  }

  lemma EmptyRejected()
    ensures ParseDecimal([]).None?
  {
    assert Strip([]) == [];
  }

  lemma DashRejected()
    ensures ParseDecimal("-").None?
  {
    StripUnpadded("-");
    assert "-"[1..] == [];
    NotFoundWithout([], ".");
  }

  /** Text that starts with neither a digit, a sign nor a point, and holds
      no point, is not a numeral. */
  lemma WordRejected(s: string)
    requires |s| >= 1 && !IsSpace(s[0]) && !IsSpace(s[|s| - 1])
    requires !IsDigit(s[0]) && s[0] != '-' && s[0] != '+' && '.' !in s
    ensures ParseDecimal(s).None?
  {
    StripUnpadded(s);
    NotFoundWithout(s, ".");
  }

  /** The placeholder texts are not numerals either. */
  lemma PlaceholdersRejected(c: string)
    requires Placeholder(c)
    ensures ParseDecimal(c).None?
  {
    if c == [] {
      EmptyRejected();
    } else if c == "-" {
      DashRejected();
    } else {
      WordRejected("N/A");
    }
  }

  /** The placeholder test changes nothing: `_parse_float` is `float()` on
      the cleaned text with zero for every failure. */
  lemma ReadFloatIsFloatOrZero(c: string)
    ensures ReadFloat(c) == match ParseDecimal(c) case Some(v) => v case None => 0.0
  {
    if Placeholder(c) {
      PlaceholdersRejected(c);
    }
  }

  /** Likewise for `_parse_int`. */
  lemma ReadIntIsTruncOrZero(c: string)
    ensures ReadInt(c) == match ParseDecimal(c) case Some(v) => Trunc(v) case None => 0
  {
    if Placeholder(c) {
      PlaceholdersRejected(c);
    }
  }

  /** On the same cleaned text the integer reading is the float reading
      truncated toward zero. */
  lemma ReadIntTruncatesReadFloat(c: string)
    ensures ReadInt(c) == Trunc(ReadFloat(c))
  {
    ReadFloatIsFloatOrZero(c);
    ReadIntIsTruncOrZero(c);
  }

  /** Without `%` in the cell, `_parse_int` is `_parse_float` truncated
      toward zero. */
  lemma ParseIntTruncatesParseFloat(s: string)
    requires '%' !in s
    ensures ParseInt(s) == Trunc(ParseFloat(s))
  {
    var x := RemoveChar(RemoveChar(s, '$'), ',');
    RemoveCharKeeps(s, '$');
    RemoveCharKeeps(RemoveChar(s, '$'), ',');
    assert multiset(x)['%'] == multiset(s)['%'] == 0;
    RemoveCharAbsent(x, '%');
    assert CleanFloat(s) == CleanInt(s);
    ReadIntTruncatesReadFloat(CleanInt(s));
  }

  /** A stripped cell without marks that `float()` reads as `v` is parsed
      as `v`. */
  lemma ParseFloatNumber(x: string, v: real)
    requires forall i | 0 <= i < |x| :: !FloatMark(x[i])
    requires Strip(x) == x && ParseDecimal(x) == Some(v)
    ensures ParseFloat(x) == v
  {
    CleanFloatPlain(x);
    ReadFloatIsFloatOrZero(x);
  }

  /** A stripped cell without marks that `float()` reads as `v` is parsed
      as `v` truncated toward zero. */
  lemma ParseIntNumber(x: string, v: real)
    requires forall i | 0 <= i < |x| :: !IntMark(x[i])
    requires Strip(x) == x && ParseDecimal(x) == Some(v)
    ensures ParseInt(x) == Trunc(v)
  {
    CleanIntPlain(x);
    ReadIntIsTruncOrZero(x);
  }

  /** A text ending in `%` has no unsigned reading. */
  lemma UnsignedPercentRejected(w: string)
    requires |w| >= 1 && w[|w| - 1] == '%'
    ensures ParseUnsigned(w).None?
  {
    assert !IsDigit(w[|w| - 1]);
    match Find(w, ".")
    case None =>
    case Some(i) =>
      assert OccursAt(w, ".", i);
      assert w[i] == w[i..i + 1][0];
      var frac := w[i + 1..];
      assert frac[|frac| - 1] == '%';
  }

  /** A stripped text ending in `%` is not a numeral. */
  lemma PercentRejected(t: string)
    requires |t| >= 1 && !IsSpace(t[0]) && t[|t| - 1] == '%'
    ensures ParseDecimal(t).None?
  {
    StripUnpadded(t);
    if t[0] == '-' || t[0] == '+' {
      UnsignedPercentRejected(t[1..]);
    } else {
      UnsignedPercentRejected(t);
    }
  }

  /** Stripping keeps a final `%`. */
  lemma StripKeepsPercent(y: string)
    requires |y| >= 1 && y[|y| - 1] == '%'
    ensures var t := Strip(y); |t| >= 1 && !IsSpace(t[0]) && t[|t| - 1] == '%'
  {
    var l := StripLeft(y);
    StripLeftSuffix(y);
    assert |l| >= 1;
    assert l[|l| - 1] == y[|y| - 1];
    assert StripRight(l) == l;
  }

  /** `_parse_int` keeps `%`, so a cell ending in `%` is read as zero. */
  lemma ParseIntPercent(x: string)
    ensures ParseInt(x + "%") == 0
  {
    CleanIntPercent(x);
    PercentRejected(CleanInt(x + "%"));
  }

  /** Cleaning keeps the final `%` and strips the front. */
  lemma CleanIntPercent(x: string)
    ensures var t := CleanInt(x + "%"); |t| >= 1 && !IsSpace(t[0]) && t[|t| - 1] == '%'
  {
    DropIntMarksKeepsPercent(x);
    StripKeepsPercent(DropIntMarks(x) + "%");
  }

  lemma DropIntMarksKeepsPercent(x: string)
    ensures DropIntMarks(x + "%") == DropIntMarks(x) + "%"
  {
    DropIntMarksAppend(x, "%");
    DropIntMarksPercent();
  }

  // ---------------------------------------------------------------- date lemmas

  /** A zero-padded date is read as its midnight whatever the clock says. */
  lemma ParseDateFormatted(d: Date, now: Instant)
    requires ValidDate(d)
    ensures ParseDate(FormatYmd(d), now) == Midnight(d)
  {
    var s := FormatYmd(d);
    assert IsDigit(s[0]) && IsDigit(s[9]) by {
      assert s[0..4] == PadDigits(d.year, 4);
      assert s[8..10] == PadDigits(d.day, 2);
      assert s[0] == s[0..4][0] && s[9] == s[8..10][1];
    }
    StripUnpadded(s);
    ParseFormatYmd(d);
  }

  /** Surrounding whitespace in the cell does not matter. */
  lemma ParseDateStripped(s: string, now: Instant)
    ensures ParseDate(Strip(s), now) == ParseDate(s, now)
  {
    StripIdempotent(s);
  }

  /** Text that is not ten characters long once stripped is read as the
      current time. */
  lemma ParseDateFallsBack(s: string, now: Instant)
    requires |Strip(s)| != 10
    ensures ParseDate(s, now) == now
  {
  }

  // ---------------------------------------------------------------- shapes

  predicate Numeral(d: string) { |d| >= 1 && AllDigits(d) }

  /** Two digit strings written one after the other. */
  lemma NumeralsJoin(a: string, b: string)
    requires Numeral(a) && Numeral(b)
    ensures Numeral(a + b)
  {
  }

  /** A numeral is stripped and has no marks. */
  lemma NumeralIsPlain(d: string)
    requires Numeral(d)
    ensures Strip(d) == d
    ensures forall i | 0 <= i < |d| :: !FloatMark(d[i]) && !IntMark(d[i])
  {
    DigitsAreStripped(d);
  }

  /** A numeral with a fractional part is stripped and has no marks. */
  lemma PointIsPlain(d: string, c: string)
    requires Numeral(d) && Numeral(c)
    ensures Strip(d + "." + c) == d + "." + c
    ensures forall i | 0 <= i < |d + "." + c| :: !FloatMark((d + "." + c)[i])
  {
    var t := d + "." + c;
    assert t[0] == d[0] && t[|t| - 1] == c[|c| - 1];
    StripUnpadded(t);
    forall i | 0 <= i < |t|
      ensures !FloatMark(t[i])
    {
      if i < |d| {
        assert t[i] == d[i];
      } else if i > |d| {
        assert t[i] == c[i - |d| - 1];
      }
    }
  }

  /** A numeral with a fractional part is its own float cleaning. */
  lemma PointIsClean(d: string, c: string)
    requires Numeral(d) && Numeral(c)
    ensures CleanFloat(d + "." + c) == d + "." + c
  {
    PointIsPlain(d, c);
    CleanFloatPlain(d + "." + c);
  }

  lemma DropDollarsAndCents(a: string, b: string, c: string)
    ensures DropFloatMarks("$" + a + "," + b + "." + c) == DropFloatMarks(a + b + "." + c)
  {
    var rest := a + "," + b + "." + c;
    var q := b + "." + c;
    DropFloatMarksAppend("$", rest);
    DropFloatMark('$');
    assert "$" + rest == "$" + a + "," + b + "." + c;
    DropFloatMarksIgnoresMark(a, ',', q);
    assert a + [','] + q == rest;
    assert a + q == a + b + "." + c;
  }

  lemma CleanDollarsAndCents(a: string, b: string, c: string)
    requires Numeral(a) && Numeral(b) && Numeral(c)
    ensures CleanFloat("$" + a + "," + b + "." + c) == a + b + "." + c
  {
    DropDollarsAndCents(a, b, c);
    NumeralsJoin(a, b);
    PointIsClean(a + b, c);
  }

  /** A dollar amount with a thousands separator and cents, `$A,B.C`, is
      read as the number `AB.C`. */
  lemma DollarsAndCents(a: string, b: string, c: string)
    requires Numeral(a) && Numeral(b) && Numeral(c)
    ensures ParseFloat("$" + a + "," + b + "." + c) == PointValue(a + b, c)
  {
    CleanDollarsAndCents(a, b, c);
    NumeralsJoin(a, b);
    ParsePoint(a + b, c);
    ReadFloatIsFloatOrZero(a + b + "." + c);
  }

  lemma CleanSignedPercent(a: string)
    requires Numeral(a)
    ensures CleanFloat("+" + a + "%") == a
  {
    CleanFloatIgnoresFirst('+', a + "%");
    assert ['+'] + (a + "%") == "+" + a + "%";
    CleanFloatIgnoresLast(a, '%');
    assert a + ['%'] == a + "%";
    NumeralIsPlain(a);
    CleanFloatPlain(a);
  }

  /** A signed percentage, `+A%`, is read as the number `A`. */
  lemma SignedPercent(a: string)
    requires Numeral(a)
    ensures ParseFloat("+" + a + "%") == DigitsValue(a) as real
  {
    CleanSignedPercent(a);
    ParseDigits(a);
    ReadFloatIsFloatOrZero(a);
  }

  lemma CleanGroupedCount(a: string, b: string, c: string)
    requires Numeral(a) && Numeral(b) && Numeral(c)
    ensures CleanInt(a + "," + b + "," + c) == a + b + c
  {
    CleanIntIgnoresMark(a, ',', b + "," + c);
    assert a + [','] + (b + "," + c) == a + "," + b + "," + c && a + (b + "," + c) == (a + b) + "," + c;
    CleanIntIgnoresMark(a + b, ',', c);
    assert (a + b) + [','] + c == (a + b) + "," + c && (a + b) + c == a + b + c;
    NumeralsJoin(a, b);
    NumeralsJoin(a + b, c);
    NumeralIsPlain(a + b + c);
    CleanIntPlain(a + b + c);
  }

  /** A count with two thousands separators, `A,B,C`, is the number `ABC`. */
  lemma GroupedCount(a: string, b: string, c: string)
    requires Numeral(a) && Numeral(b) && Numeral(c)
    ensures ParseInt(a + "," + b + "," + c) == DigitsValue(a + b + c)
  {
    CleanGroupedCount(a, b, c);
    NumeralsJoin(a, b);
    NumeralsJoin(a + b, c);
    ParseDigits(a + b + c);
    ReadIntIsTruncOrZero(a + b + c);
  }

  lemma CleanDollarCount(a: string, b: string)
    requires Numeral(a) && Numeral(b)
    ensures CleanInt("$" + a + "," + b) == a + b
  {
    CleanIntIgnoresFirst('$', a + "," + b);
    assert ['$'] + (a + "," + b) == "$" + a + "," + b;
    CleanIntIgnoresMark(a, ',', b);
    assert a + [','] + b == a + "," + b;
    NumeralsJoin(a, b);
    NumeralIsPlain(a + b);
    CleanIntPlain(a + b);
  }

  /** A dollar count with a thousands separator, `$A,B`, is the number `AB`. */
  lemma DollarCount(a: string, b: string)
    requires Numeral(a) && Numeral(b)
    ensures ParseInt("$" + a + "," + b) == DigitsValue(a + b)
  {
    CleanDollarCount(a, b);
    NumeralsJoin(a, b);
    ParseDigits(a + b);
    ReadIntIsTruncOrZero(a + b);
  }

  /** Text without marks that starts with neither a digit, a sign nor a
      point, and holds no point, is read as zero by both parsers. */
  lemma WordIsZero(s: string)
    requires |s| >= 1 && !IsSpace(s[0]) && !IsSpace(s[|s| - 1])
    requires !IsDigit(s[0]) && s[0] != '-' && s[0] != '+' && '.' !in s
    requires forall i | 0 <= i < |s| :: !FloatMark(s[i])
    ensures ParseFloat(s) == 0.0 && ParseInt(s) == 0
  {
    StripUnpadded(s);
    CleanFloatPlain(s);
    CleanIntPlain(s);
    WordRejected(s);
  }

  // ---------------------------------------------------------------- examples

  lemma Value25()
    ensures AllDigits("25") && DigitsValue("25") == 25
  {
    assert "25"[..1] == "2" && "2"[..0] == [];
  }

  lemma Value56()
    ensures AllDigits("56") && DigitsValue("56") == 56
  {
    assert "56"[..1] == "5" && "5"[..0] == [];
  }

  lemma Value1000()
    ensures AllDigits("1000") && DigitsValue("1000") == 1000
  {
    assert "1000"[..3] == "100" && "100"[..2] == "10" && "10"[..1] == "1" && "1"[..0] == [];
  }

  lemma Value1234()
    ensures AllDigits("1234") && DigitsValue("1234") == 1234
  {
    assert "1234"[..3] == "123" && "123"[..2] == "12" && "12"[..1] == "1" && "1"[..0] == [];
  }

  lemma Value1234567()
    ensures AllDigits("1234567") && DigitsValue("1234567") == 1234567
  {
    Value1234();
    assert "1234567"[..6] == "123456" && "123456"[..5] == "12345" && "12345"[..4] == "1234";
  }

  lemma Point1234x56()
    ensures PointValue("1234", "56") == 1234.56
  {
    Value1234();
    Value56();
    assert Pow10(2) == 100;
  }

  lemma CleanDollarsAndCentsExample()
    ensures CleanFloat("$1,234.56") == "1234.56"
  {
    CleanDollarsAndCents("1", "234", "56");
    assert "$" + "1" + "," + "234" + "." + "56" == "$1,234.56";
    assert "1" + "234" + "." + "56" == "1234.56";
  }

  lemma Float1234x56()
    ensures ParseDecimal("1234.56") == Some(1234.56)
  {
    Point1234x56();
    Value1234();
    Value56();
    ParsePoint("1234", "56");
    assert "1234" + "." + "56" == "1234.56";
  }

  /** `$1,234.56` is read as 1234.56. */
  lemma DollarsAndCentsExample()
    ensures ParseFloat("$1,234.56") == 1234.56
  {
    CleanDollarsAndCentsExample();
    Float1234x56();
    ReadFloatIsFloatOrZero("1234.56");
  }

  /** `+25%` is read as 25. */
  lemma SignedPercentExample()
    ensures ParseFloat("+25%") == 25.0
  {
    Value25();
    SignedPercent("25");
    assert "+" + "25" + "%" == "+25%";
  }

  /** `_parse_int` does not drop `%`: `25%` is zero there. */
  lemma PercentIntExample()
    ensures ParseInt("25%") == 0
  {
    ParseIntPercent("25");
    assert "25" + "%" == "25%";
  }

  lemma CleanThousandsExample()
    ensures CleanInt("1,234,567") == "1234567"
  {
    CleanGroupedCount("1", "234", "567");
    assert "1" + "," + "234" + "," + "567" == "1,234,567";
    assert "1" + "234" + "567" == "1234567";
  }

  /** `1,234,567` is read as 1234567. */
  lemma ThousandsExample()
    ensures ParseInt("1,234,567") == 1234567
  {
    CleanThousandsExample();
    Value1234567();
    ParseDigits("1234567");
    ReadIntIsTruncOrZero("1234567");
  }

  /** `$1,000` is read as 1000. */
  lemma DollarThousandExample()
    ensures ParseInt("$1,000") == 1000
  {
    Value1000();
    assert "1" + "000" == "1000";
    DollarCount("1", "000");
    assert "$" + "1" + "," + "000" == "$1,000";
  }

  /** Bad text is read as zero. */
  lemma InvalidExamples()
    ensures ParseFloat("invalid") == 0.0 && ParseInt("invalid") == 0
  {
    WordIsZero("invalid");
  }

  /** An empty cell is read as zero. */
  lemma EmptyExamples()
    ensures ParseFloat("") == 0.0 && ParseInt("") == 0
  {
    assert RemoveChar([], '$') == [];
  }

  lemma IsoDate20240115()
    ensures ParseYmd("2024-01-15") == Some(Date(2024, 1, 15))
  {
    var s := "2024-01-15";
    FourDigitField(s, 0);
    TwoDigitField(s, 5);
    TwoDigitField(s, 8);
    assert Dates.Field(s, 0, 4) == Some(2024);
    assert Dates.Field(s, 5, 2) == Some(1);
    assert Dates.Field(s, 8, 2) == Some(15);
    assert ValidDate(Date(2024, 1, 15));
  }

  /** `2024-01-15` is that day at midnight. */
  lemma DateExample(now: Instant)
    ensures ParseDate("2024-01-15", now) == Midnight(Date(2024, 1, 15))
  {
    StripUnpadded("2024-01-15");
    IsoDate20240115();
  }

  /** `invalid` is the current time. */
  lemma InvalidDateExample(now: Instant)
    ensures ParseDate("invalid", now) == now
  {
    StripUnpadded("invalid");
  }
}
