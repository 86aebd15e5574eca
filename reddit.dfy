/** The pure parts of `RedditCollector`: the ticker extraction regular
    expression applied to a post's text, the blacklist and length filter,
    the de-duplication, and the bullish/neutral/bearish classification of a
    post distribution. */
module Reddit {
  import opened Common
  import opened Strings

  // ---------------------------------------------------------------------
  // The pattern `\$([A-Z]{1,5})\b|\s([A-Z]{2,5})\b`

  /** A character of `\w` (ASCII letters, digits and the underscore). */
  predicate IsWordChar(c: char)
  {
    IsUpperAscii(c) || IsLowerAscii(c) || IsDigit(c) || c == '_'
  }

  /** The number of uppercase letters in the run that starts at `i`. */
  function RunLength(t: string, i: nat): (n: nat)
    requires i <= |t|
    ensures i + n <= |t|
    ensures forall k | i <= k < i + n :: IsUpperAscii(t[k])
    ensures i + n == |t| || !IsUpperAscii(t[i + n])
    decreases |t| - i
  {
    if i < |t| && IsUpperAscii(t[i]) then 1 + RunLength(t, i + 1) else 0
  }

  /** `\b` after a run of letters: the end of the text or a non-word
      character. */
  predicate BoundaryAt(t: string, k: nat)
    requires k <= |t|
  {
    k == |t| || !IsWordChar(t[k])
  }

  /** The length of the captured group when the pattern matches at `i`.  A
      `$` opens the first alternative (1 to 5 letters), whitespace the second
      (2 to 5 letters).  Greedy repetition backtracks only into the run of
      letters, where `\b` never holds, so a match needs the whole run to fit
      the bounds and to end at a boundary. */
  function MatchAt(t: string, i: nat): (r: Option<nat>)
    requires i < |t|
    ensures r.Some? ==> i + 1 + r.value <= |t| && 1 <= r.value <= 5
    ensures r.Some? ==> (t[i] == '$' || (IsSpace(t[i]) && 2 <= r.value))
    ensures r.Some? ==> RunLength(t, i + 1) == r.value && BoundaryAt(t, i + 1 + r.value)
  {
    var n := RunLength(t, i + 1);
    if t[i] == '$' && 1 <= n <= 5 && BoundaryAt(t, i + 1 + n) then Some(n)
    else if IsSpace(t[i]) && 2 <= n <= 5 && BoundaryAt(t, i + 1 + n) then Some(n)
    else None
  }

  /** `re.findall` from position `i`: the captured text of each match, left
      to right; the search resumes where a match ends. */
  function Scan(t: string, i: nat): seq<string>
    requires i <= |t|
    decreases |t| - i
  {
    if i == |t| then []
    else match MatchAt(t, i)
      case Some(n) => [t[i + 1..i + 1 + n]] + Scan(t, i + 1 + n)
      case None => Scan(t, i + 1)
  }

  /** The pattern matches at `i` and captures `x`. */
  predicate MatchesAt(t: string, i: nat, x: string)
  {
    i < |t| && MatchAt(t, i).Some? && t[i + 1..i + 1 + MatchAt(t, i).value] == x
  }

  /** No position inside a run of letters starts a match. */
  lemma InsideRunNoMatch(t: string, s: nat, p: nat)
    requires s <= |t| && s <= p < s + RunLength(t, s)
    ensures MatchAt(t, p).None?
  {
    assert IsUpperAscii(t[p]);
  }

  /** Two matches never overlap: a later one starts after the earlier one's
      run of letters, since the run holds no `$` and no whitespace. */
  lemma MatchesDisjoint(t: string, i: nat, p: nat)
    requires i < p < |t| && MatchAt(t, i).Some? && MatchAt(t, p).Some?
    ensures p >= i + 1 + MatchAt(t, i).value
  {
    assert !IsUpperAscii(t[p]);
  }

  /** Whatever `findall` captures from `i` on matches at some position. */
  lemma {:induction false} ScanSound(t: string, i: nat, x: string) returns (p: nat)
    requires i <= |t| && x in Scan(t, i)
    ensures i <= p && MatchesAt(t, p, x)
    decreases |t| - i, 1
  {
    ScanStep(t, i);
    if MatchAt(t, i).Some? {
      p := ScanSoundAtMatch(t, i, x);
    } else {
      assert x in Scan(t, i + 1);
      p := ScanSound(t, i + 1, x);
    }
  }

  /** `ScanSound` when the search from `i` starts with a match. */
  lemma {:induction false} ScanSoundAtMatch(t: string, i: nat, x: string) returns (p: nat)
    requires i < |t| && x in Scan(t, i) && MatchAt(t, i).Some?
    ensures i <= p && MatchesAt(t, p, x)
    decreases |t| - i, 0
  {
    ScanStep(t, i);
    var j := i + 1 + MatchAt(t, i).value;
    var c := t[i + 1..j];
    assert Scan(t, i) == [c] + Scan(t, j);
    if x == c {
      p := i;
    } else {
      assert x in Scan(t, j);
      p := ScanSound(t, j, x);
    }
  }

  /** Skipping past a match loses nothing: every match at or after `i` is
      captured. */
  lemma {:induction false} ScanComplete(t: string, i: nat, p: nat, x: string)
    requires i <= p && MatchesAt(t, p, x)
    ensures x in Scan(t, i)
    decreases |t| - i, 1
  {
    if MatchAt(t, i).Some? {
      ScanCompleteAtMatch(t, i, p, x);
    } else {
      ScanStep(t, i);
      ScanComplete(t, i + 1, p, x);
    }
  }

  /** `ScanComplete` when the search from `i` starts with a match. */
  lemma {:induction false} ScanCompleteAtMatch(t: string, i: nat, p: nat, x: string)
    requires i <= p && MatchesAt(t, p, x) && MatchAt(t, i).Some?
    ensures x in Scan(t, i)
    decreases |t| - i, 0
  {
    var j := i + 1 + MatchAt(t, i).value;
    ScanStep(t, i);
    if p > i {
      MatchesDisjoint(t, i, p);
      ScanComplete(t, j, p, x);
    }
  }

  /** One step of `findall`: a match is captured and skipped, otherwise
      the search moves on one character. */
  lemma ScanStep(t: string, i: nat)
    requires i < |t|
    ensures MatchAt(t, i).Some? ==>
      Scan(t, i) == [t[i + 1..i + 1 + MatchAt(t, i).value]] + Scan(t, i + 1 + MatchAt(t, i).value)
    ensures MatchAt(t, i).None? ==> Scan(t, i) == Scan(t, i + 1)
  {
  }

  lemma ScanMembers(t: string, x: string)
    ensures x in Scan(t, 0) <==> exists p: nat :: MatchesAt(t, p, x)
  {
    if x in Scan(t, 0) {
      var p := ScanSound(t, 0, x);
    }
    if exists p: nat :: MatchesAt(t, p, x) {
      var p: nat :| MatchesAt(t, p, x);
      ScanComplete(t, 0, p, x);
    }
  }

  // ---------------------------------------------------------------------
  // Filtering and de-duplication

  /** Common words the pattern would otherwise report as tickers. */
  function Blacklist(): set<string>
  {
    {"THE", "AND", "FOR", "ARE", "NOT", "BUT", "WITH", "THIS", "THAT",
     "FROM", "HAVE", "MORE", "BEEN", "WILL", "WHEN", "WHAT", "THERE",
     "THEIR", "WHICH", "THAN", "THEM", "THESE", "WOULD", "COULD",
     "EDIT", "TLDR", "IMO", "YOLO", "FOMO", "WSB", "DD", "TO", "BE", "OF",
     "AT", "BY", "ON", "UP", "OUT", "IF", "ABOUT", "INTO", "SUCH", "ONLY"}
  }

  predicate Kept(t: string)
  {
    t !in Blacklist() && |t| >= 2
  }

  /** `list(set(xs))`: each element once.  Python's order is the set's hash
      order; the model keeps first occurrences. */
  function Dedup(xs: seq<string>): seq<string>
  {
    if xs == [] then []
    else
      var r := Dedup(xs[..|xs| - 1]);
      if xs[|xs| - 1] in r then r else r + [xs[|xs| - 1]]
  }

  lemma {:induction false} DedupCorrect(xs: seq<string>)
    ensures Distinct(Dedup(xs))
    ensures forall x :: x in Dedup(xs) <==> x in xs
  {
    if xs != [] {
      var xs' := xs[..|xs| - 1];
      DedupCorrect(xs');
      assert xs == xs' + [xs[|xs| - 1]];
    }
  }

  /** `_extract_tickers`. */
  function ExtractTickers(text: string): seq<string>
  {
    Dedup(Filter(Scan(Upper(text), 0), Kept))
  }

  /** The extracted tickers are exactly the kept captures of the pattern
      over the upper-cased text, and none occurs twice. */
  lemma ExtractTickersCorrect(text: string)
    ensures Distinct(ExtractTickers(text))
    ensures forall x :: x in ExtractTickers(text) <==>
      Kept(x) && exists p: nat :: MatchesAt(Upper(text), p, x)
  {
    var u := Upper(text);
    DedupCorrect(Filter(Scan(u, 0), Kept));
    forall x
      ensures x in ExtractTickers(text) <==> Kept(x) && exists p: nat :: MatchesAt(u, p, x)
    {
      FilterMembers(Scan(u, 0), Kept, x);
      ScanMembers(u, x);
    }
  }

  /** `x` occurs at `p` in `u`, right after a `$` or a whitespace character
      and followed by the end of the text or a non-word character. */
  predicate Delimited(u: string, p: nat, x: string)
  {
    && 1 <= p && p + |x| <= |u|
    && u[p..p + |x|] == x
    && (u[p - 1] == '$' || IsSpace(u[p - 1]))
    && BoundaryAt(u, p + |x|)
  }

  /** Every extracted ticker is 2 to 5 uppercase letters outside the
      blacklist, delimited in the upper-cased text; in particular it never
      starts at the very beginning of the text. */
  lemma ExtractedShape(text: string, x: string)
    requires x in ExtractTickers(text)
    ensures x !in Blacklist() && 2 <= |x| <= 5
    ensures forall k | 0 <= k < |x| :: IsUpperAscii(x[k])
    ensures exists p: nat :: Delimited(Upper(text), p, x)
  {
    var u := Upper(text);
    ExtractTickersCorrect(text);
    var i: nat :| MatchesAt(u, i, x);
    MatchShape(u, i, x);
  }

  /** What one match captures: one to five uppercase letters, delimited. */
  lemma MatchShape(u: string, i: nat, x: string)
    requires MatchesAt(u, i, x)
    ensures 1 <= |x| <= 5 && Delimited(u, i + 1, x)
    ensures forall k | 0 <= k < |x| :: IsUpperAscii(x[k])
  {
    var n := MatchAt(u, i).value;
    assert x == u[i + 1..i + 1 + n];
  }

  /** Without a `$` or whitespace character the pattern never matches. */
  lemma {:induction false} UndelimitedScan(t: string, i: nat)
    requires i <= |t|
    requires forall k | 0 <= k < |t| :: t[k] != '$' && !IsSpace(t[k])
    ensures Scan(t, i) == []
    decreases |t| - i
  {
    if i < |t| {
      assert MatchAt(t, i).None?;
      UndelimitedScan(t, i + 1);
    }
  }

  /** A text with no `$` and no whitespace, such as a single bare word,
      yields no ticker. */
  lemma UndelimitedText(text: string)
    requires forall k | 0 <= k < |text| :: text[k] != '$' && !IsSpace(text[k])
    ensures ExtractTickers(text) == []
  {
    var u := Upper(text);
    assert forall k | 0 <= k < |u| :: u[k] != '$' && !IsSpace(u[k]) by {
      forall k | 0 <= k < |u| ensures u[k] != '$' && !IsSpace(u[k]) {
        assert u[k] == UpperChar(text[k]);
      }
    }
    UndelimitedScan(u, 0);
  }

  lemma BareWordIgnored()
    ensures ExtractTickers("AAPL") == []
  {
    UndelimitedText("AAPL");
  }

  /** A run of uppercase letters to the end of the text. */
  lemma {:induction false} RunToEnd(t: string, s: nat)
    requires s <= |t|
    requires forall k | s <= k < |t| :: IsUpperAscii(t[k])
    ensures RunLength(t, s) == |t| - s
    decreases |t| - s
  {
    if s < |t| {
      RunToEnd(t, s + 1);
    }
  }

  /** A text that reads `$` and one to five letters once upper-cased yields
      that word, unless the filter drops it. */
  lemma DollarWord(text: string, w: string)
    requires Upper(text) == "$" + w && 1 <= |w| <= 5
    requires forall k | 0 <= k < |w| :: IsUpperAscii(w[k])
    ensures ExtractTickers(text) == if Kept(w) then [w] else []
  {
    var u := "$" + w;
    assert forall k | 1 <= k < |u| :: u[k] == w[k - 1];
    RunToEnd(u, 1);
    assert MatchAt(u, 0) == Some(|w|);
    ScanStep(u, 0);
    assert u[1..|u|] == w;
    assert Scan(u, 0) == [w] + Scan(u, |u|);
    assert Scan(u, 0) == [w];
    assert ExtractTickers(text) == Dedup(Filter([w], Kept));
    KeptSingle(w);
  }

  lemma KeptSingle(w: string)
    ensures Dedup(Filter([w], Kept)) == if Kept(w) then [w] else []
  {
    assert Filter([w], Kept) == Filter([], Kept) + (if Kept(w) then [w] else []);
    assert Dedup([w]) == Dedup([]) + [w];
  }

  /** A `$` ticker is found in lower case, and reported upper-cased. */
  lemma DollarTicker()
    ensures ExtractTickers("$gme") == ["GME"]
  {
    assert Upper("$gme") == "$" + "GME";
    DollarWord("$gme", "GME");
    GmeKept();
  }

  lemma GmeKept()
    ensures Kept("GME")
  {
  }

  // ---------------------------------------------------------------------
  // Sentiment distribution

  datatype Signal = Bullish | Neutral | Bearish

  /** `_classify_reddit_sentiment`: the share of positive posts against 60%
      and 40%; an empty sample is neutral.  The negative count is not
      consulted. */
  function ClassifySentiment(positive: int, negative: int, total: int): (r: Signal)
    ensures total == 0 ==> r == Neutral
    ensures total > 0 ==> (r == Bullish <==> 5 * positive >= 3 * total)
    ensures total > 0 ==> (r == Bearish <==> 5 * positive < 2 * total)
  {
    if total == 0 then Neutral
    else
      var pct := (positive as real / total as real) * 100.0;
      ShareAtLeast(positive, total, 60.0);
      ShareAtLeast(positive, total, 40.0);
      if pct >= 60.0 then Bullish
      else if pct >= 40.0 then Neutral
      else Bearish
  }

  /** For a positive total, the percentage reaches `bar` exactly when the
      count, scaled by 100, reaches `bar` times the total. */
  lemma ShareAtLeast(positive: int, total: int, bar: real)
    requires total != 0
    ensures total > 0 ==> ((positive as real / total as real) * 100.0 >= bar <==>
      positive as real * 100.0 >= bar * total as real)
  {
    if total > 0 {
      var q := positive as real / total as real;
      assert q * total as real == positive as real;
    }
  }

  function Rank(s: Signal): nat
  {
    match s
    case Bearish => 0
    case Neutral => 1
    case Bullish => 2
  }

  /** More positive posts out of the same positive total never give a more
      bearish signal. */
  lemma ClassifyMonotone(p1: int, p2: int, negative: int, total: int)
    requires total > 0 && p1 <= p2
    ensures Rank(ClassifySentiment(p1, negative, total)) <= Rank(ClassifySentiment(p2, negative, total))
  {
  }
}
