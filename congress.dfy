/** The normalisers of `CongressTradesCollector` for House Stock Watcher
    records: the disclosed amount band, the transaction kind, the ticker,
    the dates, and the record they build. A raw record is the map of its
    string fields; a missing key takes the default the code passes to
    `dict.get`. */
module Congress {
  import opened Common
  import opened Strings
  import opened Dates

  type RawTrade = map<string, string>

  /** `trade.get(key, default)`. */
  function Get(trade: RawTrade, key: string, default: string): string
  {
    if key in trade then trade[key] else default
  }

  /** `trade.get(key)`: the value, or `None` when the key is missing. */
  function GetOpt(trade: RawTrade, key: string): Option<string>
  {
    if key in trade then Some(trade[key]) else None
  }

  // ---------------------------------------------------------------------
  // Amount bands

  /** A disclosed amount band, in the three shapes the filings use: a
      range "a - b", an open band "a+" and a single amount "a". */
  datatype Band = Range(from: real, to: real) | OpenEnded(from: real) | Single(amount: real)

  /** The `(amount_from, amount_to)` pair the code returns for a band: an
      open band's upper end is estimated as twice its lower end. */
  function Bounds(b: Band): (real, real)
  {
    match b
    case Range(from, to) => (from, to)
    case OpenEnded(from) => (from, from * 2.0)
    case Single(amount) => (amount, amount)
  }

  /** `amount.replace('$', '').replace(',', '').strip()`. */
  function CleanAmount(amount: string): string
  {
    Strip(RemoveChar(RemoveChar(amount, '$'), ','))
  }

  /** "a - b": the first two pieces around " - ", each stripped. */
  function ParsePair(cleaned: string): Option<Band>
  {
    var parts := Split(cleaned, " - ");
    if |parts| < 2 then None
    else
      var low, high := ParseDecimal(Strip(parts[0])), ParseDecimal(Strip(parts[1]));
      if low.Some? && high.Some? then Some(Range(low.value, high.value)) else None
  }

  /** "a+": every '+' dropped. The code strips the rest before `float()`,
      which strips it anyway. */
  function ParseOpen(cleaned: string): Option<Band>
  {
    var low := ParseDecimal(RemoveChar(cleaned, '+'));
    if low.Some? then Some(OpenEnded(low.value)) else None
  }

  /** A single number. */
  function ParseSingle(cleaned: string): Option<Band>
  {
    var single := ParseDecimal(cleaned);
    if single.Some? then Some(Single(single.value)) else None
  }

  /** The three shapes of a cleaned amount, tested in the code's order; a
      number `float()` rejects gives `None`. */
  function ParseCleaned(cleaned: string): Option<Band>
  {
    if Contains(cleaned, " - ") then ParsePair(cleaned)
    else if Contains(cleaned, "+") then ParseOpen(cleaned)
    else ParseSingle(cleaned)
  }

  /** A separator found means at least two pieces, so the pair branch never
      indexes past the split. */
  lemma PairHasTwoPieces(cleaned: string)
    requires Contains(cleaned, " - ")
    ensures |Split(cleaned, " - ")| >= 2
  {
  }

  /** `_parse_amount_range`: an empty or "--" field gives `None` (the
      code's `(None, None)`), anything else is cleaned and parsed. */
  function ParseAmountRange(amount: string): (r: Option<Band>)
    ensures amount == [] || amount == "--" ==> r.None?
    ensures amount != [] && amount != "--" ==> r == ParseCleaned(CleanAmount(amount))
  {
    if amount == [] || amount == "--" then None
    else ParseCleaned(CleanAmount(amount))
  }

  /** Removing '$' from "$" + x + "$" + y, when x and y have none,
      leaves x + y. */
  lemma DropTwoDollars(x: string, y: string)
    requires '$' !in x && '$' !in y
    ensures RemoveChar("$" + x + "$" + y, '$') == x + y
  {
    RemoveCharLeading('$', x);
    RemoveCharLeading('$', y);
    assert "$" + x + "$" + y == ("$" + x) + ("$" + y);
    RemoveCharAppend("$" + x, "$" + y, '$');
  }

  /** Cleaning a string without '$', ',' or outer whitespace after a
      leading '$' leaves the rest. */
  lemma CleanAfterDollar(x: string)
    requires '$' !in x && ',' !in x
    requires x != [] && !IsSpace(x[0]) && !IsSpace(x[|x| - 1])
    ensures CleanAmount("$" + x) == x
  {
    RemoveCharLeading('$', x);
    RemoveCharAbsent(x, ',');
    StripUnpadded(x);
  }

  /** A numeral as the filings write it: one or more decimal digits. */
  predicate Numeral(d: string)
  {
    |d| >= 1 && AllDigits(d)
  }

  /** The number a numeral denotes. */
  function Value(d: string): real
    requires Numeral(d)
  {
    DigitsValue(d) as real
  }

  /** "a - b" with both numerals in digits parses to `(a, b)`. */
  lemma ParseCleanedPair(da: string, db: string)
    requires Numeral(da) && Numeral(db)
    ensures ParseCleaned(da + " - " + db) == Some(Range(Value(da), Value(db)))
  {
    DigitsExclude(da, ' ');
    DigitsExclude(db, ' ');
    FindAfter(da, " - ", db);
    SplitPair(da, " - ", db);
    DigitsAreStripped(da);
    DigitsAreStripped(db);
    ParseDigits(da);
    ParseDigits(db);
  }

  /** "a+" with the numeral in digits parses to `(a, 2a)`. */
  lemma ParseCleanedOpen(da: string)
    requires Numeral(da)
    ensures ParseCleaned(da + "+") == Some(OpenEnded(Value(da)))
  {
    var c := da + "+";
    DigitsExclude(da, ' ');
    DigitsExclude(da, '+');
    assert ' ' !in c;
    NotFoundWithout(c, " - ");
    FindAtEnd(da, "+");
    ParseDigits(da);
    ParseOpenPlus(da, Value(da));
  }

  /** "x+" with no other '+' parses to `(v, 2v)` when x parses to v. */
  lemma ParseOpenPlus(x: string, v: real)
    requires '+' !in x && ParseDecimal(x) == Some(v)
    ensures ParseOpen(x + "+") == Some(OpenEnded(v))
  {
    DropTrailingPlus(x);
    ParseOpenOf(x + "+", x, v);
  }

  /** An amount whose '+'-free form x parses to v gives `(v, 2v)`. */
  lemma ParseOpenOf(c: string, x: string, v: real)
    requires RemoveChar(c, '+') == x && ParseDecimal(x) == Some(v)
    ensures ParseOpen(c) == Some(OpenEnded(v))
  {
  }

  /** Removing '+' from x + "+", when x has none, leaves x. */
  lemma DropTrailingPlus(x: string)
    requires '+' !in x
    ensures RemoveChar(x + "+", '+') == x
  {
    RemoveCharAppend(x, "+", '+');
    RemoveCharAbsent(x, '+');
    RemoveCharOnly('+');
    assert RemoveChar(x + "+", '+') == x + [];
  }

  /** A numeral in digits parses to `(a, a)`. */
  lemma ParseCleanedSingle(da: string)
    requires Numeral(da)
    ensures ParseCleaned(da) == Some(Single(Value(da)))
  {
    DigitsExclude(da, ' ');
    DigitsExclude(da, '+');
    NotFoundWithout(da, " - ");
    NotFoundWithout(da, "+");
    ParseDigits(da);
  }

  lemma WrittenShape(da: string, db: string)
    ensures "$" + da + " - $" + db == "$" + (da + " - ") + "$" + db
  {
  }

  /** A band written as "$a - $b" reads back as `(a, b)`. */
  lemma ParseWrittenRange(da: string, db: string)
    requires Numeral(da) && Numeral(db)
    ensures ParseAmountRange("$" + da + " - $" + db) == Some(Range(Value(da), Value(db)))
  {
    DigitsExclude(da, '$');
    DigitsExclude(db, '$');
    DigitsExclude(da, ',');
    DigitsExclude(db, ',');
    var x := da + " - ";
    var amount := "$" + da + " - $" + db;
    WrittenShape(da, db);
    DropTwoDollars(x, db);
    var cleaned := x + db;
    assert cleaned == da + " - " + db;
    RemoveCharAbsent(cleaned, ',');
    StripUnpadded(cleaned);
    assert CleanAmount(amount) == cleaned;
    ParseCleanedPair(da, db);
  }

  /** An open band "$a+" reads back as open from a. */
  lemma ParseWrittenOpenRange(da: string)
    requires Numeral(da)
    ensures ParseAmountRange("$" + da + "+") == Some(OpenEnded(Value(da)))
  {
    DigitsExclude(da, '$');
    DigitsExclude(da, ',');
    assert "$" + da + "+" == "$" + (da + "+");
    CleanAfterDollar(da + "+");
    ParseCleanedOpen(da);
  }

  /** A single amount "$a" reads back as `(a, a)`. */
  lemma ParseWrittenAmount(da: string)
    requires Numeral(da)
    ensures ParseAmountRange("$" + da) == Some(Single(Value(da)))
  {
    DigitsExclude(da, '$');
    DigitsExclude(da, ',');
    CleanAfterDollar(da);
    ParseCleanedSingle(da);
  }

  /** Thousands separators do not matter: an amount reads as it does with
      every ',' taken out. */
  lemma CommasIgnored(amount: string)
    ensures ParseAmountRange(amount) == ParseAmountRange(RemoveChar(amount, ','))
  {
    var a := RemoveChar(amount, ',');
    CleanWithoutCommas(amount);
    if amount == [] || amount == "--" {
      RemoveCharAbsent(amount, ',');
    } else if a == [] || a == "--" {
      NoBandInDashes(a);
    }
  }

  lemma CleanWithoutCommas(amount: string)
    ensures CleanAmount(RemoveChar(amount, ',')) == CleanAmount(amount)
  {
    RemoveCharCommute(amount, ',', '$');
    RemoveCharIdempotent(RemoveChar(amount, '$'), ',');
  }

  /** What is left when the cleaned text is empty or "--" holds no band. */
  lemma NoBandInDashes(a: string)
    requires a == [] || a == "--"
    ensures ParseCleaned(CleanAmount(a)).None?
  {
    if a == [] {
      EmptyHoldsNoBand();
    } else {
      DashesHoldNoBand(a);
    }
  }

  lemma EmptyHoldsNoBand()
    ensures ParseCleaned(CleanAmount([])).None?
  {
    var a: string := [];
    assert CleanAmount(a) == a;
    NotFoundWithout(a, " - ");
    NotFoundWithout(a, "+");
    NotFoundWithout(a, ".");
  }

  lemma DashesHoldNoBand(a: string)
    requires |a| == 2 && a[0] == '-' && a[1] == '-'
    ensures ParseCleaned(CleanAmount(a)).None?
  {
    assert forall c | c in a :: c == '-';
    RemoveCharAbsent(a, '$');
    RemoveCharAbsent(a, ',');
    StripUnpadded(a);
    assert CleanAmount(a) == a;
    NotFoundWithout(a, " - ");
    NotFoundWithout(a, "+");
    assert ParseCleaned(a) == ParseSingle(a);
    SignsOnly(a);
  }

  /** Two minus signs are no number. */
  lemma SignsOnly(t: string)
    requires |t| == 2 && t[0] == '-' && t[1] == '-'
    ensures ParseDecimal(t).None?
  {
    StripUnpadded(t);
    var rest := t[1..];
    NotFoundWithout(rest, ".");
    assert !IsDigit(rest[0]);
    assert ParseUnsigned(rest).None?;
  }

  /** A band with thousands separators, as the filings write it. */
  lemma CommaRangeExample()
    ensures ParseAmountRange("$1,001 - $15,000") == Some(Range(1001.0, 15000.0))
  {
    CommasIgnored("$1,001 - $15,000");
    CommaRangeCleaned();
    Numeral1001And15000();
    ParseWrittenRange("1001", "15000");
  }

  lemma CommaRangeCleaned()
    ensures RemoveChar("$1,001 - $15,000", ',') == "$" + "1001" + " - $" + "15000"
  {
    assert "$1,001 - $15,000" == "$1" + "," + "001 - $15" + "," + "000";
    DropTwoCommas("$1", "001 - $15", "000");
  }

  /** Removing ',' from x + "," + y + "," + z, when none of them has one. */
  lemma DropTwoCommas(x: string, y: string, z: string)
    requires ',' !in x && ',' !in y && ',' !in z
    ensures RemoveChar(x + "," + y + "," + z, ',') == x + y + z
  {
    assert x + "," + y + "," + z == x + ([','] + y) + ([','] + z);
    RemoveCharAppend(x + ([','] + y), [','] + z, ',');
    RemoveCharAppend(x, [','] + y, ',');
    RemoveCharLeading(',', y);
    RemoveCharLeading(',', z);
    RemoveCharAbsent(x, ',');
  }

  lemma Numeral1001And15000()
    ensures Numeral("1001") && Value("1001") == 1001.0
    ensures Numeral("15000") && Value("15000") == 15000.0
  {
    assert "1001"[..3] == "100" && "100"[..2] == "10" && "10"[..1] == "1" && "1"[..0] == [];
    assert "15000"[..4] == "1500" && "1500"[..3] == "150" && "150"[..2] == "15" && "15"[..1] == "1";
  }

  /** `_parse_amount_range`'s result: the bounds of the band read, or
      `None` for the code's `(None, None)`. */
  function AmountBounds(amount: string): Option<(real, real)>
  {
    match ParseAmountRange(amount)
    case Some(b) => Some(Bounds(b))
    case None => None
  }

  /** Every natural number written out in full, as `str()` writes it,
      reads back as itself. */
  lemma ParseWrittenNatRange(a: nat, b: nat)
    ensures ParseAmountRange("$" + NatToString(a) + " - $" + NatToString(b)) == Some(Range(a as real, b as real))
  {
    ParseWrittenRange(NatToString(a), NatToString(b));
  }

  /** The code's own examples: an empty or `--` amount has no range. */
  lemma EmptyAmountExamples()
    ensures ParseAmountRange("--").None?
    ensures ParseAmountRange("").None?
  {
  }

  // ---------------------------------------------------------------------
  // Transaction kinds

  /** `type_str.lower().strip()`. */
  function Lowered(t: string): string
  {
    Strip(Lower(t))
  }

  /** `_normalize_transaction_type`: purchases (or buys), sales (or sells)
      and exchanges map to their canonical word, anything else to its
      lowered, stripped form. */
  function NormalizeTransactionType(t: string): string
  {
    var lowered := Lowered(t);
    if Contains(lowered, "purchase") || Contains(lowered, "buy") then "purchase"
    else if Contains(lowered, "sale") || Contains(lowered, "sell") then "sale"
    else if Contains(lowered, "exchange") then "exchange"
    else lowered
  }

  /** The canonical words are chosen exactly by the words they contain,
      tested in the code's order. */
  lemma TransactionTypeIff(t: string)
    ensures var lowered := Lowered(t);
      && (NormalizeTransactionType(t) == "purchase" <==> Contains(lowered, "purchase") || Contains(lowered, "buy"))
      && (NormalizeTransactionType(t) == "sale" <==>
            !(Contains(lowered, "purchase") || Contains(lowered, "buy")) && (Contains(lowered, "sale") || Contains(lowered, "sell")))
      && (NormalizeTransactionType(t) == "exchange" <==>
            !(Contains(lowered, "purchase") || Contains(lowered, "buy") || Contains(lowered, "sale") || Contains(lowered, "sell"))
            && Contains(lowered, "exchange"))
  {
    ContainsSelf("purchase");
    ContainsSelf("sale");
    ContainsSelf("exchange");
  }

  /** Every character is already lower case. */
  predicate AllLower(s: string)
  {
    forall i | 0 <= i < |s| :: LowerChar(s[i]) == s[i]
  }

  lemma LowerIsAllLower(t: string)
    ensures AllLower(Lower(t))
  {
  }

  lemma AllLowerSlice(s: string, a: nat, b: nat)
    requires AllLower(s) && a <= b <= |s|
    ensures AllLower(s[a..b])
  {
    forall i | 0 <= i < b - a
      ensures LowerChar(s[a..b][i]) == s[a..b][i]
    {
      assert s[a..b][i] == s[a + i];
    }
  }

  lemma LowerOfAllLower(s: string)
    requires AllLower(s)
    ensures Lower(s) == s
  {
  }

  /** Lowering what is already lowered changes nothing. */
  lemma LowerOfLowered(t: string)
    ensures Lower(Lowered(t)) == Lowered(t)
  {
    var l := Lower(t);
    LowerIsAllLower(t);
    StripIsSlice(l);
    var a, b :| 0 <= a <= b <= |l| && Lowered(t) == l[a..b];
    AllLowerSlice(l, a, b);
    LowerOfAllLower(Lowered(t));
  }

  /** Lowering and stripping is idempotent. */
  lemma LoweredIdempotent(t: string)
    ensures Lowered(Lowered(t)) == Lowered(t)
  {
    LowerOfLowered(t);
    StripIdempotent(Lower(t));
  }

  /** The canonical words normalise to themselves. */
  lemma PurchaseFixed()
    ensures NormalizeTransactionType("purchase") == "purchase"
  {
    assert Lower("purchase") == "purchase";
    StripUnpadded("purchase");
    ContainsSelf("purchase");
  }

  lemma SaleLowered()
    ensures Lowered("sale") == "sale"
  {
    assert Lower("sale") == "sale";
    StripUnpadded("sale");
  }

  lemma SaleIsNoPurchase()
    ensures !Contains("sale", "purchase") && !Contains("sale", "buy")
  {
    NotFoundWithout("sale", "purchase");
    NotFoundWithout("sale", "buy");
  }

  lemma SaleFixed()
    ensures NormalizeTransactionType("sale") == "sale"
  {
    SaleLowered();
    SaleIsNoPurchase();
    ContainsSelf("sale");
  }

  lemma ExchangeLowered()
    ensures Lowered("exchange") == "exchange"
  {
    assert Lower("exchange") == "exchange";
    StripUnpadded("exchange");
  }

  lemma ExchangeIsNoPurchase()
    ensures !Contains("exchange", "purchase") && !Contains("exchange", "buy")
  {
    NotFoundWithout("exchange", "purchase");
    NotFoundWithout("exchange", "buy");
  }

  lemma ExchangeIsNoSale()
    ensures !Contains("exchange", "sale") && !Contains("exchange", "sell")
  {
    NotFoundWithout("exchange", "sale");
    NotFoundWithout("exchange", "sell");
  }

  lemma ExchangeFixed()
    ensures NormalizeTransactionType("exchange") == "exchange"
  {
    ExchangeLowered();
    ExchangeIsNoPurchase();
    ExchangeIsNoSale();
    ContainsSelf("exchange");
  }

  /** Normalising a normalised kind gives it back. */
  lemma TransactionTypeIdempotent(t: string)
    ensures NormalizeTransactionType(NormalizeTransactionType(t)) == NormalizeTransactionType(t)
  {
    var lowered := Lowered(t);
    if Contains(lowered, "purchase") || Contains(lowered, "buy") {
      PurchaseFixed();
    } else if Contains(lowered, "sale") || Contains(lowered, "sell") {
      SaleFixed();
    } else if Contains(lowered, "exchange") {
      ExchangeFixed();
    } else {
      LoweredIdempotent(t);
    }
  }

  /** The code's own examples: case does not matter, and an unknown kind
      comes back lowered. */
  lemma PurchaseLowered()
    ensures Lowered("Purchase") == "purchase"
  {
    assert Lower("Purchase") == "purchase";
    StripUnpadded("purchase");
  }

  lemma PurchaseExample()
    ensures NormalizeTransactionType("Purchase") == "purchase"
  {
    PurchaseLowered();
    ContainsSelf("purchase");
  }

  lemma BuyLowered()
    ensures Lowered("BUY") == "buy"
  {
    assert Lower("BUY") == "buy";
    StripUnpadded("buy");
  }

  lemma BuyExample()
    ensures NormalizeTransactionType("BUY") == "purchase"
  {
    BuyLowered();
    ContainsSelf("buy");
  }

  lemma SellLowered()
    ensures Lowered("SELL") == "sell"
  {
    assert Lower("SELL") == "sell";
    StripUnpadded("sell");
  }

  lemma SellIsNoPurchase()
    ensures !Contains("sell", "purchase") && !Contains("sell", "buy")
  {
    NotFoundWithout("sell", "purchase");
    NotFoundWithout("sell", "buy");
  }

  lemma SellExample()
    ensures NormalizeTransactionType("SELL") == "sale"
  {
    SellLowered();
    SellIsNoPurchase();
    ContainsSelf("sell");
  }

  lemma ExchangeCapitalLowered()
    ensures Lowered("Exchange") == "exchange"
  {
    assert Lower("Exchange") == "exchange";
    StripUnpadded("exchange");
  }

  lemma ExchangeExample()
    ensures NormalizeTransactionType("Exchange") == "exchange"
  {
    ExchangeCapitalLowered();
    ExchangeIsNoPurchase();
    ExchangeIsNoSale();
    ContainsSelf("exchange");
  }

  lemma UnknownLowered()
    ensures Lowered("Unknown") == "unknown"
  {
    assert Lower("Unknown") == "unknown";
    StripUnpadded("unknown");
  }

  lemma UnknownIsNoPurchase()
    ensures !Contains("unknown", "purchase") && !Contains("unknown", "buy")
  {
    NotFoundWithout("unknown", "purchase");
    NotFoundWithout("unknown", "buy");
  }

  lemma UnknownIsNoSale()
    ensures !Contains("unknown", "sale") && !Contains("unknown", "sell") && !Contains("unknown", "exchange")
  {
    NotFoundWithout("unknown", "sale");
    NotFoundWithout("unknown", "sell");
    NotFoundWithout("unknown", "exchange");
  }

  lemma UnknownExample()
    ensures NormalizeTransactionType("Unknown") == "unknown"
  {
    UnknownLowered();
    UnknownIsNoPurchase();
    UnknownIsNoSale();
  }

  // ---------------------------------------------------------------------
  // Tickers

  /** The regular expression `\(([A-Z]{1,5})\)` matches at `i` with `k`
      letters. */
  predicate ParenTickerAt(s: string, i: nat, k: nat)
  {
    && 1 <= k <= 5 && i + k + 2 <= |s|
    && s[i] == '(' && s[i + k + 1] == ')'
    && forall j | i < j <= i + k :: IsUpperAscii(s[j])
  }

  /** The length of the run of upper-case letters starting at `j`. */
  function UpperRun(s: string, j: nat): (r: nat)
    requires j <= |s|
    ensures j + r <= |s|
    ensures forall m | j <= m < j + r :: IsUpperAscii(s[m])
    ensures j + r == |s| || !IsUpperAscii(s[j + r])
    decreases |s| - j
  {
    if j < |s| && IsUpperAscii(s[j]) then 1 + UpperRun(s, j + 1) else 0
  }

  /** The number of letters of a match at `i`: the whole letter run, since
      a shorter one would be followed by a letter, not by ')'. */
  function MatchAt(s: string, i: nat): (r: Option<nat>)
    requires i <= |s|
    ensures r.Some? ==> ParenTickerAt(s, i, r.value)
    ensures r.None? ==> forall k :: !ParenTickerAt(s, i, k)
  {
    if i < |s| && s[i] == '(' then
      var k := UpperRun(s, i + 1);
      if 1 <= k <= 5 && i + k + 1 < |s| && s[i + k + 1] == ')' then Some(k) else None
    else None
  }

  /** `re.search`: the leftmost position at or after `from` where the
      pattern matches. */
  function SearchFrom(s: string, from: nat): (r: Option<nat>)
    requires from <= |s|
    ensures r.Some? ==> from <= r.value <= |s| && MatchAt(s, r.value).Some?
    ensures r.Some? ==> forall j | from <= j < r.value :: MatchAt(s, j).None?
    ensures r.None? ==> forall j | from <= j <= |s| :: MatchAt(s, j).None?
    decreases |s| - from
  {
    if MatchAt(s, from).Some? then Some(from)
    else if from == |s| then None
    else SearchFrom(s, from + 1)
  }

  /** The captured group of the first match in `s`, if any. */
  function TickerInText(s: string): (r: Option<string>)
    ensures r.Some? ==> 1 <= |r.value| <= 5 && forall m | 0 <= m < |r.value| :: IsUpperAscii(r.value[m])
  {
    match SearchFrom(s, 0)
    case None => None
    case Some(i) =>
      var k := MatchAt(s, i).value;
      Some(s[i + 1..i + 1 + k])
  }

  /** The first match is exactly the leftmost "(" + letters + ")" in the
      text; no match means the pattern occurs nowhere. */
  lemma TickerInTextIsFirst(s: string)
    ensures TickerInText(s).Some? ==>
      exists i :: (0 <= i <= |s| && ParenTickerAt(s, i, |TickerInText(s).value|)
        && s[i + 1..i + 1 + |TickerInText(s).value|] == TickerInText(s).value
        && forall j, k | 0 <= j < i :: !ParenTickerAt(s, j, k))
    ensures TickerInText(s).None? <==> forall i, k | 0 <= i <= |s| :: !ParenTickerAt(s, i, k)
  {
    var r := SearchFrom(s, 0);
    if r.Some? {
      var i := r.value;
      var k := MatchAt(s, i).value;
      assert s[i + 1..i + 1 + k] == TickerInText(s).value;
      assert forall j, k' | 0 <= j < i :: !ParenTickerAt(s, j, k') by {
        forall j, k' | 0 <= j < i ensures !ParenTickerAt(s, j, k') {
          assert MatchAt(s, j).None?;
        }
      }
      assert ParenTickerAt(s, i, k);
    } else {
      forall i, k | 0 <= i <= |s| ensures !ParenTickerAt(s, i, k) {
        assert MatchAt(s, i).None?;
      }
    }
  }

  /** `_extract_ticker`: the ticker field, stripped and upper-cased, unless
      it is empty or "--"; otherwise the first "(TICKER)" in the asset
      description; otherwise the empty string. */
  function ExtractTicker(trade: RawTrade): (r: string)
    ensures var field := Upper(Strip(Get(trade, "ticker", "")));
      field != [] && field != "--" ==> r == field
    ensures var field := Upper(Strip(Get(trade, "ticker", "")));
      (field == [] || field == "--") ==>
        r == (match TickerInText(Get(trade, "asset_description", ""))
              case Some(t) => t
              case None => [])
  {
    var field := Upper(Strip(Get(trade, "ticker", "")));
    if field != [] && field != "--" then field
    else
      var description := Get(trade, "asset_description", "");
      if description != [] then
        match TickerInText(description)
        case Some(t) => t
        case None => []
      else []
  }

  /** The code's own examples: the field wins, in upper case. */
  lemma UpperAapl()
    ensures Upper("AAPL") == "AAPL" && Upper("aapl") == "AAPL"
  {
  }

  /** A ticker field that is already stripped and names a ticker wins. */
  lemma TickerFieldWins(v: string, t: string)
    requires Strip(v) == v && Upper(v) == t && t != [] && t != "--"
    ensures ExtractTicker(map["ticker" := v]) == t
  {
    assert Get(map["ticker" := v], "ticker", "") == v;
  }

  lemma TickerFieldExample()
    ensures ExtractTicker(map["ticker" := "AAPL"]) == "AAPL"
  {
    StripUnpadded("AAPL");
    UpperAapl();
    TickerFieldWins("AAPL", "AAPL");
  }

  lemma LowerTickerFieldExample()
    ensures ExtractTicker(map["ticker" := "aapl"]) == "AAPL"
  {
    StripUnpadded("aapl");
    UpperAapl();
    TickerFieldWins("aapl", "AAPL");
  }

  lemma PlaceholderDropped(m: RawTrade)
    requires "ticker" in m && m["ticker"] == "--"
    ensures Upper(Strip(Get(m, "ticker", ""))) == "--"
  {
    StripUnpadded("--");
    assert Upper("--") == "--";
  }

  /** The leftmost match in `Apple Inc (AAPL)` is at the parenthesis. */
  lemma AppleMatch()
    ensures TickerInText("Apple Inc (AAPL)") == Some("AAPL")
  {
    var d := "Apple Inc (AAPL)";
    AppleMatchAt();
    forall j | 0 <= j < 10 ensures MatchAt(d, j).None? {
      assert d[j] != '(';
    }
    var r := SearchFrom(d, 0);
    assert r.Some? && r.value == 10;
    assert d[11..15] == "AAPL";
  }

  lemma AppleMatchAt()
    ensures MatchAt("Apple Inc (AAPL)", 10) == Some(4)
  {
    var d := "Apple Inc (AAPL)";
    assert UpperRun(d, 15) == 0;
    assert UpperRun(d, 11) == 4;
  }

  /** A text without an opening parenthesis holds no ticker. */
  lemma {:induction false} NoParenNoTicker(s: string, from: nat)
    requires from <= |s| && '(' !in s
    ensures SearchFrom(s, from).None?
    decreases |s| - from
  {
    if from < |s| {
      assert s[from] in s;
      NoParenNoTicker(s, from + 1);
    }
  }

  lemma NoTickerMatch()
    ensures TickerInText("No ticker here").None?
  {
    assert '(' !in "No ticker here";
    NoParenNoTicker("No ticker here", 0);
  }

  /** The code's own examples: a placeholder field falls back to the
      description. */
  lemma TickerDescriptionExample()
    ensures ExtractTicker(map["ticker" := "--", "asset_description" := "Apple Inc (AAPL)"]) == "AAPL"
  {
    PlaceholderDropped(map["ticker" := "--", "asset_description" := "Apple Inc (AAPL)"]);
    AppleMatch();
  }

  lemma NoTickerExample()
    ensures ExtractTicker(map["ticker" := "--", "asset_description" := "No ticker here"]) == []
  {
    PlaceholderDropped(map["ticker" := "--", "asset_description" := "No ticker here"]);
    NoTickerMatch();
  }

  // ---------------------------------------------------------------------
  // Dates

  /** The formats `_parse_date` tries, in order. */
  datatype DateFormat = YearMonthDay | MonthDayYear | YearMonthDayTime

  function DateFormats(): seq<DateFormat>
  {
    [YearMonthDay, MonthDayYear, YearMonthDayTime]
  }

  /** `datetime.strptime(s, fmt)` for one of the three formats. */
  function ParseAs(f: DateFormat, s: string): Option<Date>
  {
    match f
    case YearMonthDay => ParseYmd(s)
    case MonthDayYear => ParseMdy(s)
    case YearMonthDayTime => ParseYmdHms(s)
  }

  /** The loop over the formats: the first that parses wins. */
  function FirstFormat(formats: seq<DateFormat>, s: string): (r: Option<Date>)
    ensures r.Some? ==>
      exists k | 0 <= k < |formats| :: (ParseAs(formats[k], s) == r
        && forall j | 0 <= j < k :: ParseAs(formats[j], s).None?)
    ensures r.None? ==> forall k | 0 <= k < |formats| :: ParseAs(formats[k], s).None?
    ensures r.Some? ==> ValidDate(r.value)
  {
    if formats == [] then None
    else
      var first := ParseAs(formats[0], s);
      if first.Some? then
        assert ParseAs(formats[0], s) == first;
        first
      else
        var rest := FirstFormat(formats[1..], s);
        assert forall k | 0 <= k < |formats[1..]| :: formats[1..][k] == formats[k + 1];
        rest
  }

  /** `_parse_date`: `None` for a missing or empty value, the date in
      `YYYY-MM-DD` form when one of the formats parses it, `None`
      otherwise. */
  function ParseDate(s: Option<string>): (r: Option<string>)
    ensures s.None? || s.value == [] ==> r.None?
    ensures r.Some? ==> ParseYmd(r.value).Some?
  {
    if s.None? || s.value == [] then None
    else
      match FirstFormat(DateFormats(), s.value)
      case None => None
      case Some(d) =>
        ParseFormatYmd(d);
        Some(FormatYmd(d))
  }

  /** A value in the output form is kept as it is. */
  lemma ParseDateFormatted(d: Date)
    requires ValidDate(d)
    ensures ParseDate(Some(FormatYmd(d))) == Some(FormatYmd(d))
  {
    ParseFormatYmd(d);
  }

  /** Parsing a parsed date changes nothing. */
  lemma ParseDateIdempotent(s: Option<string>)
    ensures ParseDate(ParseDate(s)) == ParseDate(s)
  {
    var r := ParseDate(s);
    if r.Some? {
      var d := FirstFormat(DateFormats(), s.value).value;
      ParseDateFormatted(d);
    }
  }

  lemma YmdExample()
    ensures ParseYmd("2025-12-21") == Some(Date(2025, 12, 21))
  {
    var ymd := "2025-12-21";
    FourDigitField(ymd, 0);
    TwoDigitField(ymd, 5);
    TwoDigitField(ymd, 8);
    assert Dates.Field(ymd, 0, 4) == Some(2025);
    assert Dates.Field(ymd, 5, 2) == Some(12);
    assert Dates.Field(ymd, 8, 2) == Some(21);
    assert ValidDate(Date(2025, 12, 21));
  }

  lemma MdyExample()
    ensures ParseMdy("12/21/2025") == Some(Date(2025, 12, 21))
  {
    var mdy := "12/21/2025";
    FourDigitField(mdy, 6);
    TwoDigitField(mdy, 0);
    TwoDigitField(mdy, 3);
    assert Dates.Field(mdy, 6, 4) == Some(2025);
    assert Dates.Field(mdy, 0, 2) == Some(12);
    assert Dates.Field(mdy, 3, 2) == Some(21);
    assert ValidDate(Date(2025, 12, 21));
  }

  lemma YmdHmsExample()
    ensures ParseYmdHms("2025-12-21T10:30:00") == Some(Date(2025, 12, 21))
  {
    var full := "2025-12-21T10:30:00";
    TwoDigitField(full, 11);
    TwoDigitField(full, 14);
    TwoDigitField(full, 17);
    assert full[..10] == "2025-12-21";
    YmdExample();
  }

  lemma YmdFirst()
    ensures FirstFormat(DateFormats(), "2025-12-21") == Some(Date(2025, 12, 21))
  {
    YmdExample();
  }

  lemma MdyFirst()
    ensures FirstFormat(DateFormats(), "12/21/2025") == Some(Date(2025, 12, 21))
  {
    assert ParseYmd("12/21/2025").None?;
    MdyExample();
  }

  lemma YmdHmsFirst()
    ensures FirstFormat(DateFormats(), "2025-12-21T10:30:00") == Some(Date(2025, 12, 21))
  {
    assert ParseYmd("2025-12-21T10:30:00").None?;
    assert ParseMdy("2025-12-21T10:30:00").None?;
    YmdHmsExample();
  }

  lemma InvalidDateFirst()
    ensures FirstFormat(DateFormats(), "invalid-date").None?
  {
  }

  /** The code's own examples: each format gives the same canonical date,
      and a missing or unreadable date gives none. */
  lemma YmdDateExample()
    ensures ParseDate(Some("2025-12-21")) == Some(FormatYmd(Date(2025, 12, 21)))
  {
    YmdFirst();
  }

  lemma MdyDateExample()
    ensures ParseDate(Some("12/21/2025")) == Some(FormatYmd(Date(2025, 12, 21)))
  {
    MdyFirst();
  }

  lemma YmdHmsDateExample()
    ensures ParseDate(Some("2025-12-21T10:30:00")) == Some(FormatYmd(Date(2025, 12, 21)))
  {
    YmdHmsFirst();
  }

  lemma MissingDateExamples()
    ensures ParseDate(None).None?
    ensures ParseDate(Some("invalid-date")).None?
  {
    InvalidDateFirst();
  }

  // ---------------------------------------------------------------------
  // Normalised records

  datatype CongressTrade = CongressTrade(
    representativeName: string, party: string, chamber: string,
    state: string, district: string, ticker: string, assetName: string,
    transactionType: string,
    transactionDate: Option<string>, filingDate: Option<string>, disclosureDate: Option<string>,
    amountFrom: Option<real>, amountTo: Option<real>,
    owner: string, position: string, assetType: string, source: string)

  /** `_normalize_house_trade`. */
  function NormalizeHouseTrade(trade: RawTrade): (r: CongressTrade)
    ensures r.chamber == "house" && r.source == "housestockwatcher" && r.position == []
  {
    var bounds := AmountBounds(Get(trade, "amount", ""));
    CongressTrade(
      Get(trade, "representative", ""), Get(trade, "party", ""), "house",
      Get(trade, "state", ""), Get(trade, "district", ""),
      ExtractTicker(trade), Get(trade, "asset_description", ""),
      NormalizeTransactionType(Get(trade, "type", "")),
      ParseDate(GetOpt(trade, "transaction_date")),
      ParseDate(GetOpt(trade, "disclosure_date")),
      ParseDate(GetOpt(trade, "disclosure_date")),
      if bounds.Some? then Some(bounds.value.0) else None,
      if bounds.Some? then Some(bounds.value.1) else None,
      Get(trade, "owner", "self"), "", Get(trade, "asset_type", "stock"),
      "housestockwatcher")
  }

  /** The filing date is the disclosure date, and the two ends of the
      amount are both present or both absent. */
  lemma NormalizedShape(trade: RawTrade)
    ensures var r := NormalizeHouseTrade(trade);
      && r.filingDate == r.disclosureDate
      && (r.amountFrom.Some? <==> r.amountTo.Some?)
  {
  }

  /** Every date of a normalised record is either absent or in
      `YYYY-MM-DD` form naming a real date. */
  lemma NormalizedDatesCanonical(trade: RawTrade)
    ensures var r := NormalizeHouseTrade(trade);
      && (r.transactionDate.Some? ==> ParseYmd(r.transactionDate.value).Some?)
      && (r.disclosureDate.Some? ==> ParseYmd(r.disclosureDate.value).Some?)
      && (r.filingDate.Some? ==> ParseYmd(r.filingDate.value).Some?)
  {
  }

  /** Normalising is stable on the fields it canonicalises: feeding the
      normalised kind and dates back in gives them unchanged. */
  lemma NormalizeStable(trade: RawTrade)
    ensures var r := NormalizeHouseTrade(trade);
      && NormalizeTransactionType(r.transactionType) == r.transactionType
      && ParseDate(r.transactionDate) == r.transactionDate
      && ParseDate(r.disclosureDate) == r.disclosureDate
  {
    TransactionTypeIdempotent(Get(trade, "type", ""));
    ParseDateIdempotent(GetOpt(trade, "transaction_date"));
    ParseDateIdempotent(GetOpt(trade, "disclosure_date"));
  }
}
