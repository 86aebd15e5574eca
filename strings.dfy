/** String operations the collectors use, with Python's meaning: `str.isspace`
    whitespace, `strip`, `lower`/`upper` (on ASCII letters), `in` on strings,
    `replace` of one character by nothing, `split` by a non-empty separator
    and `float()` on a plain decimal numeral. */
module Strings {
  import opened Common

  /** Python's `str.isspace` for one character (the Unicode White_Space set
      that CPython uses for `strip()`, `split()` and `\s`). */
  predicate IsSpace(c: char)
  {
    || c == ' '
    || ('\t' <= c <= '\r')
    || (28 <= c as int <= 31)
    || c as int == 0x85 || c as int == 0xA0 || c as int == 0x1680
    || (0x2000 <= c as int <= 0x200A)
    || c as int == 0x2028 || c as int == 0x2029 || c as int == 0x202F
    || c as int == 0x205F || c as int == 0x3000
  }

  predicate IsUpperAscii(c: char) { 'A' <= c <= 'Z' }
  predicate IsLowerAscii(c: char) { 'a' <= c <= 'z' }
  predicate IsDigit(c: char) { '0' <= c <= '9' }

  /** `str.lower()` restricted to ASCII letters; other characters are kept. */
  function LowerChar(c: char): char
  {
    if IsUpperAscii(c) then (c as int + 32) as char else c
  }

  /** `str.upper()` restricted to ASCII letters; other characters are kept. */
  function UpperChar(c: char): char
  {
    if IsLowerAscii(c) then (c as int - 32) as char else c
  }

  function Lower(s: string): (r: string)
    ensures |r| == |s|
    ensures forall i | 0 <= i < |s| :: r[i] == LowerChar(s[i])
  {
    seq(|s|, i requires 0 <= i < |s| => LowerChar(s[i]))
  }

  function Upper(s: string): (r: string)
    ensures |r| == |s|
    ensures forall i | 0 <= i < |s| :: r[i] == UpperChar(s[i])
  {
    seq(|s|, i requires 0 <= i < |s| => UpperChar(s[i]))
  }

  /** Drops leading whitespace. */
  function StripLeft(s: string): (r: string)
    ensures |r| <= |s|
    ensures r == [] || !IsSpace(r[0])
  {
    if s != [] && IsSpace(s[0]) then StripLeft(s[1..]) else s
  }

  /** What `StripLeft` drops is a prefix of whitespace. */
  lemma {:induction false} StripLeftSuffix(s: string)
    ensures StripLeft(s) == s[|s| - |StripLeft(s)|..]
    ensures forall i | 0 <= i < |s| - |StripLeft(s)| :: IsSpace(s[i])
  {
    if s != [] && IsSpace(s[0]) {
      StripLeftSuffix(s[1..]);
      forall i | 0 <= i < |s| - |StripLeft(s)|
        ensures IsSpace(s[i])
      {
        if i > 0 {
          assert s[i] == s[1..][i - 1];
        }
      }
    }
  }

  /** Drops trailing whitespace. */
  function StripRight(s: string): (r: string)
    ensures |r| <= |s|
    ensures r == [] || !IsSpace(r[|r| - 1])
  {
    if s != [] && IsSpace(s[|s| - 1]) then StripRight(s[..|s| - 1]) else s
  }

  /** What `StripRight` drops is a suffix of whitespace. */
  lemma {:induction false} StripRightPrefix(s: string)
    ensures StripRight(s) == s[..|StripRight(s)|]
    ensures forall i | |StripRight(s)| <= i < |s| :: IsSpace(s[i])
  {
    if s != [] && IsSpace(s[|s| - 1]) {
      var t := s[..|s| - 1];
      StripRightPrefix(t);
      forall i | |StripRight(s)| <= i < |s|
        ensures IsSpace(s[i])
      {
        if i < |s| - 1 {
          assert s[i] == t[i];
        }
      }
      assert t[..|StripRight(t)|] == s[..|StripRight(t)|];
    }
  }

  /** Python's `str.strip()`: the result neither starts nor ends with
      whitespace. */
  function Strip(s: string): (r: string)
    ensures r == [] || (!IsSpace(r[0]) && !IsSpace(r[|r| - 1]))
  {
    StripRightPrefix(StripLeft(s));
    StripRight(StripLeft(s))
  }

  /** Only whitespace is removed around the stripped text. */
  lemma StripIsSlice(s: string)
    ensures exists a, b | 0 <= a <= b <= |s| ::
      && Strip(s) == s[a..b]
      && (forall i | 0 <= i < a :: IsSpace(s[i]))
      && (forall i | b <= i < |s| :: IsSpace(s[i]))
  {
    var l := StripLeft(s);
    var r := StripRight(l);
    var k := |s| - |l|;
    StripLeftSuffix(s);
    StripRightPrefix(l);
    SliceOfSlice(s, k, |r|);
    assert r == s[k..k + |r|];
    forall i | k + |r| <= i < |s|
      ensures IsSpace(s[i])
    {
      assert s[i] == l[i - k];
    }
  }

  lemma SliceOfSlice(s: string, k: nat, m: nat)
    requires k + m <= |s|
    ensures s[k..][..m] == s[k..k + m]
  {
  }

  /** Stripping twice is stripping once. */
  lemma {:induction false} StripIdempotent(s: string)
    ensures Strip(Strip(s)) == Strip(s)
  {
    var r := Strip(s);
    if r != [] {
      assert StripLeft(r) == r;
      assert StripRight(r) == r;
    }
  }

  /** `pat` occurs in `s` at position `i`. */
  predicate OccursAt(s: string, pat: string, i: nat)
  {
    i + |pat| <= |s| && s[i..i + |pat|] == pat
  }

  /** The first position `>= from` at which `pat` occurs (Python's
      `str.find`). */
  function FindFrom(s: string, pat: string, from: nat): (r: Option<nat>)
    requires from <= |s|
    ensures r.Some? ==> from <= r.value <= |s| && OccursAt(s, pat, r.value)
    ensures r.Some? ==> forall j | from <= j < r.value :: !OccursAt(s, pat, j)
    ensures r.None? ==> forall j | from <= j <= |s| :: !OccursAt(s, pat, j)
    decreases |s| - from
  {
    if OccursAt(s, pat, from) then Some(from)
    else if from == |s| then None
    else FindFrom(s, pat, from + 1)
  }

  function Find(s: string, pat: string): Option<nat>
  {
    FindFrom(s, pat, 0)
  }

  /** Python's `pat in s`. */
  predicate Contains(s: string, pat: string)
  {
    Find(s, pat).Some?
  }

  lemma ContainsIff(s: string, pat: string)
    ensures Contains(s, pat) <==> exists i | 0 <= i <= |s| :: OccursAt(s, pat, i)
  {
  }

  /** A string with no whitespace at either end is its own strip. */
  lemma StripUnpadded(s: string)
    requires s == [] || (!IsSpace(s[0]) && !IsSpace(s[|s| - 1]))
    ensures Strip(s) == s
  {
    if s != [] {
      assert StripLeft(s) == s;
      assert StripRight(s) == s;
    }
  }

  /** A pattern whose first character does not occur in `s` is not found. */
  lemma NotFoundWithout(s: string, pat: string)
    requires |pat| > 0 && pat[0] !in s
    ensures Find(s, pat).None?
  {
    forall j | 0 <= j <= |s|
      ensures !OccursAt(s, pat, j)
    {
      if j + |pat| <= |s| {
        assert s[j..j + |pat|][0] == s[j];
      }
    }
  }

  /** A pattern whose first character does not occur in `d` is found right
      after `d` when it follows it. */
  lemma FindAfter(d: string, pat: string, rest: string)
    requires |pat| > 0 && pat[0] !in d
    ensures Find(d + pat + rest, pat) == Some(|d|)
  {
    var s := d + pat + rest;
    assert s[|d|..|d| + |pat|] == pat;
    assert OccursAt(s, pat, |d|);
    forall j | 0 <= j < |d|
      ensures !OccursAt(s, pat, j)
    {
      assert s[j] == d[j];
    }
  }

  /** The same with nothing after the pattern. */
  lemma FindAtEnd(d: string, pat: string)
    requires |pat| > 0 && pat[0] !in d
    ensures Find(d + pat, pat) == Some(|d|)
  {
    FindAfter(d, pat, []);
    assert d + pat + [] == d + pat;
  }

  /** `s` contains itself. */
  lemma ContainsSelf(s: string)
    ensures Contains(s, s)
  {
    assert OccursAt(s, s, 0);
  }

  /** `s.replace(c, '')` for a one-character `c`. */
  function RemoveChar(s: string, c: char): string
  {
    if s == [] then []
    else RemoveChar(s[..|s| - 1], c) + (if s[|s| - 1] == c then [] else [s[|s| - 1]])
  }

  /** No `c` is left. */
  lemma {:induction false} RemoveCharRemoves(s: string, c: char)
    ensures c !in RemoveChar(s, c)
  {
    if s != [] {
      RemoveCharRemoves(s[..|s| - 1], c);
    }
  }

  /** Every other character keeps its number of occurrences. */
  lemma {:induction false} RemoveCharKeeps(s: string, c: char)
    ensures forall x | x != c :: multiset(RemoveChar(s, c))[x] == multiset(s)[x]
  {
    if s != [] {
      var init := s[..|s| - 1];
      var last := s[|s| - 1];
      RemoveCharKeeps(init, c);
      assert s == init + [last];
      assert RemoveChar(s, c) == RemoveChar(init, c) + (if last == c then [] else [last]);
    }
  }

  /** Removing a character distributes over concatenation. */
  lemma {:induction false} RemoveCharAppend(x: string, y: string, c: char)
    ensures RemoveChar(x + y, c) == RemoveChar(x, c) + RemoveChar(y, c)
    decreases |y|
  {
    if y != [] {
      var y' := y[..|y| - 1];
      assert (x + y)[..|x + y| - 1] == x + y';
      RemoveCharAppend(x, y', c);
    } else {
      assert x + y == x;
    }
  }

  /** Removing a character from itself leaves nothing. */
  lemma RemoveCharOnly(c: char)
    ensures RemoveChar([c], c) == []
  {
    assert [c][..0] == [];
  }

  /** Removing a leading `c` from `c` followed by a string without it. */
  lemma RemoveCharLeading(c: char, x: string)
    requires c !in x
    ensures RemoveChar([c] + x, c) == x
  {
    RemoveCharAppend([c], x, c);
    RemoveCharOnly(c);
    RemoveCharAbsent(x, c);
    assert RemoveChar([c] + x, c) == [] + x;
  }

  /** Removing a character that does not occur changes nothing. */
  lemma {:induction false} RemoveCharAbsent(s: string, c: char)
    requires c !in s
    ensures RemoveChar(s, c) == s
  {
    if s != [] {
      var init := s[..|s| - 1];
      assert c !in init by {
        forall i | 0 <= i < |init| ensures init[i] != c { assert init[i] == s[i]; }
      }
      RemoveCharAbsent(init, c);
      assert s == init + [s[|s| - 1]];
    }
  }

  /** A one-character string loses its character exactly when it is `c`. */
  lemma RemoveCharSingle(x: char, c: char)
    ensures RemoveChar([x], c) == if x == c then [] else [x]
  {
    assert [x][..0] == [];
  }

  /** Removing two characters, in either order, gives the same string. */
  lemma {:induction false} RemoveCharCommute(s: string, a: char, b: char)
    ensures RemoveChar(RemoveChar(s, a), b) == RemoveChar(RemoveChar(s, b), a)
  {
    if s != [] {
      var init, x := s[..|s| - 1], s[|s| - 1];
      RemoveCharCommute(init, a, b);
      var ta := if x == a then [] else [x];
      var tb := if x == b then [] else [x];
      RemoveCharAppend(RemoveChar(init, a), ta, b);
      RemoveCharAppend(RemoveChar(init, b), tb, a);
      if x != a { RemoveCharSingle(x, b); }
      if x != b { RemoveCharSingle(x, a); }
    }
  }

  /** Removing a character twice is removing it once. */
  lemma RemoveCharIdempotent(s: string, c: char)
    ensures RemoveChar(RemoveChar(s, c), c) == RemoveChar(s, c)
  {
    RemoveCharRemoves(s, c);
    RemoveCharAbsent(RemoveChar(s, c), c);
  }

  /** A string of digits holds no other character. */
  lemma DigitsExclude(d: string, c: char)
    requires AllDigits(d) && !IsDigit(c)
    ensures c !in d
  {
  }

  /** Python's `s.split(sep)` for a non-empty separator: the pieces between
      the non-overlapping occurrences of `sep`, scanning left to right. */
  function Split(s: string, sep: string): (r: seq<string>)
    requires |sep| > 0
    ensures |r| >= 1
    decreases |s|
  {
    match Find(s, sep)
    case None => [s]
    case Some(i) => [s[..i]] + Split(s[i + |sep|..], sep)
  }

  /** Python's `sep.join(parts)`. */
  function Join(parts: seq<string>, sep: string): string
  {
    if parts == [] then []
    else if |parts| == 1 then parts[0]
    else parts[0] + sep + Join(parts[1..], sep)
  }

  /** Splitting and joining with the same separator gives the string back. */
  lemma {:induction false} JoinSplit(s: string, sep: string)
    requires |sep| > 0
    ensures Join(Split(s, sep), sep) == s
    decreases |s|
  {
    match Find(s, sep)
    case None =>
    case Some(i) =>
      var rest := s[i + |sep|..];
      var tail := Split(rest, sep);
      var parts := [s[..i]] + tail;
      assert Split(s, sep) == parts;
      assert parts[1..] == tail;
      JoinSplit(rest, sep);
      calc {
        Join(parts, sep);
        s[..i] + sep + Join(tail, sep);
        s[..i] + sep + rest;
        { assert s[i..i + |sep|] == sep; }
        s;
      }
  }

  /** Joining pieces free of a one-character separator and splitting on it
      gives the pieces back. */
  lemma {:induction false} SplitJoinChar(parts: seq<string>, c: char)
    requires |parts| >= 1 && forall k | 0 <= k < |parts| :: c !in parts[k]
    ensures Split(Join(parts, [c]), [c]) == parts
    decreases |parts|
  {
    if |parts| == 1 {
      NotFoundWithout(parts[0], [c]);
    } else {
      var rest := Join(parts[1..], [c]);
      var s := parts[0] + [c] + rest;
      FindAfter(parts[0], [c], rest);
      assert s[..|parts[0]|] == parts[0];
      assert s[|parts[0]| + 1..] == rest;
      SplitJoinChar(parts[1..], c);
      assert parts == [parts[0]] + parts[1..];
    }
  }

  /** Splitting `x + sep + y`, where neither side holds the separator's
      first character, gives the two sides. */
  lemma SplitPair(x: string, sep: string, y: string)
    requires |sep| > 0 && sep[0] !in x && sep[0] !in y
    ensures Split(x + sep + y, sep) == [x, y]
  {
    var s := x + sep + y;
    FindAfter(x, sep, y);
    assert s[..|x|] == x;
    assert s[|x| + |sep|..] == y;
    NotFoundWithout(y, sep);
    assert Split(y, sep) == [y];
  }

  /** No piece of a split contains the separator. */
  lemma {:induction false} SplitPiecesAvoidSeparator(s: string, sep: string)
    requires |sep| > 0
    ensures forall k | 0 <= k < |Split(s, sep)| :: !Contains(Split(s, sep)[k], sep)
    decreases |s|
  {
    match Find(s, sep)
    case None =>
    case Some(i) =>
      SplitPiecesAvoidSeparator(s[i + |sep|..], sep);
      var piece := s[..i];
      forall j | 0 <= j <= |piece|
        ensures !OccursAt(piece, sep, j)
      {
        if OccursAt(piece, sep, j) {
          assert s[j..j + |sep|] == piece[j..j + |sep|];
          assert OccursAt(s, sep, j);
        }
      }
  }

  function DigitValue(c: char): nat
    requires IsDigit(c)
  {
    c as int - '0' as int
  }

  predicate AllDigits(s: string)
  {
    forall i | 0 <= i < |s| :: IsDigit(s[i])
  }

  /** The number a string of decimal digits denotes, most significant first. */
  function DigitsValue(d: string): nat
    requires AllDigits(d)
  {
    if d == [] then 0 else 10 * DigitsValue(d[..|d| - 1]) + DigitValue(d[|d| - 1])
  }

  function Pow10(n: nat): (r: nat)
    ensures r >= 1
  {
    if n == 0 then 1 else 10 * Pow10(n - 1)
  }

  /** The number `whole.frac` denotes. */
  function PointValue(whole: string, frac: string): real
    requires AllDigits(whole) && AllDigits(frac)
  {
    DigitsValue(whole) as real + DigitsValue(frac) as real / Pow10(|frac|) as real
  }

  /** The unsigned part of a numeral: digits, optionally a point and more
      digits, with at least one digit in all. */
  function ParseUnsigned(t: string): Option<real>
  {
    match Find(t, ".")
    case None =>
      if t != [] && AllDigits(t) then Some(DigitsValue(t) as real) else None
    case Some(i) =>
      var whole, frac := t[..i], t[i + 1..];
      if (whole != [] || frac != []) && AllDigits(whole) && AllDigits(frac)
      then Some(PointValue(whole, frac))
      else None
  }

  /** Python's `float(s)`, narrowed to a plain decimal numeral: surrounding
      whitespace, an optional sign, digits with an optional fractional part.
      `None` stands for the ValueError that `float()` raises. */
  function ParseDecimal(s: string): Option<real>
  {
    var t := Strip(s);
    if t != [] && t[0] == '-' then
      match ParseUnsigned(t[1..])
      case None => None
      case Some(v) => Some(-v)
    else if t != [] && t[0] == '+' then ParseUnsigned(t[1..])
    else ParseUnsigned(t)
  }

  /** Decimal digits of a natural number, most significant first, without
      leading zeros (`str(n)`). */
  function NatToString(n: nat): (r: string)
    ensures |r| >= 1 && AllDigits(r)
    ensures DigitsValue(r) == n
    ensures r[0] != '-' && r[0] != '+'
  {
    var last := ['0' + (n % 10) as char];
    if n < 10 then
      assert last[..0] == [];
      last
    else
      var init := NatToString(n / 10);
      var r := init + last;
      assert r[..|r| - 1] == init;
      r
  }

  /** `str(n)` is `str(n // 10)` followed by the last digit. */
  lemma NatToStringStep(n: nat)
    requires n >= 10
    ensures NatToString(n) == NatToString(n / 10) + ['0' + (n % 10) as char]
  {
  }

  lemma {:induction false} NoPointInDigits(d: string)
    requires AllDigits(d)
    ensures Find(d, ".").None?
  {
    forall j | 0 <= j <= |d|
      ensures !OccursAt(d, ".", j)
    {
      if j < |d| {
        assert d[j..j + 1] == [d[j]];
      }
    }
  }

  lemma {:induction false} DigitsAreStripped(d: string)
    requires |d| >= 1 && AllDigits(d)
    ensures Strip(d) == d
  {
    assert StripLeft(d) == d;
    assert StripRight(d) == d;
  }

  /** A non-empty string of digits is read by `float()` as the number it
      denotes. */
  lemma ParseDigits(d: string)
    requires |d| >= 1 && AllDigits(d)
    ensures ParseDecimal(d) == Some(DigitsValue(d) as real)
  {
    DigitsAreStripped(d);
    NoPointInDigits(d);
  }

  /** Digits, a point and digits are read as whole part plus fraction. */
  lemma UnsignedPoint(whole: string, frac: string)
    requires |whole| >= 1 && AllDigits(whole) && |frac| >= 1 && AllDigits(frac)
    ensures ParseUnsigned(whole + "." + frac) == Some(PointValue(whole, frac))
  {
    var t := whole + "." + frac;
    DigitsExclude(whole, '.');
    FindAfter(whole, ".", frac);
    assert t[..|whole|] == whole && t[|whole| + 1..] == frac;
  }

  /** `float(whole + '.' + frac)` for two non-empty digit strings. */
  lemma ParsePoint(whole: string, frac: string)
    requires |whole| >= 1 && AllDigits(whole) && |frac| >= 1 && AllDigits(frac)
    ensures ParseDecimal(whole + "." + frac) == Some(PointValue(whole, frac))
  {
    var t := whole + "." + frac;
    assert t[0] == whole[0] && t[|t| - 1] == frac[|frac| - 1];
    assert IsDigit(t[0]) && IsDigit(t[|t| - 1]);
    StripUnpadded(t);
    UnsignedPoint(whole, frac);
  }

  /** Round trip: `float(str(n)) == n` for every natural number. */
  lemma ParseNatString(n: nat)
    ensures ParseDecimal(NatToString(n)) == Some(n as real)
  {
    ParseDigits(NatToString(n));
  }

  /** The same after the `strip()` the parsers apply first. */
  lemma ParseStrippedNatString(n: nat)
    ensures ParseDecimal(Strip(NatToString(n))) == Some(n as real)
  {
    DigitsAreStripped(NatToString(n));
    ParseNatString(n);
  }
}
