/** Shared vocabulary of the model: the Option type that stands for Python's
    None, sums and means over sequences of reals, order-preserving filters, the
    stable descending sort that Python's `list.sort(key=..., reverse=True)`
    performs, and the truncating conversion `int(x)`. */
module Common {

  /** `None` is Python's None; `Some(v)` a present value. */
  datatype Option<+T> = None | Some(value: T)

  /** A dictionary entry read with `d.get(key, default)`: the key may be
      absent, present with value None, or present with a value. */
  datatype Field<+T> = Missing | Null | Val(value: T)

  /** `d.get(key, default)`: the default for a missing key, `None` for a
      stored None, the value otherwise. */
  function GetOr<T>(f: Field<T>, default: T): (r: Option<T>)
    ensures f.Missing? ==> r == Some(default)
    ensures f.Null? ==> r == None
    ensures f.Val? ==> r == Some(f.value)
  {
    match f
    case Missing => Some(default)
    case Null => None
    case Val(v) => Some(v)
  }

  /** Sum of a sequence, folded from the right end so that appending one
      element adds exactly that element. */
  function Sum(s: seq<real>): real
  {
    if s == [] then 0.0 else Sum(s[..|s| - 1]) + s[|s| - 1]
  }

  lemma SumAppend(s: seq<real>, x: real)
    ensures Sum(s + [x]) == Sum(s) + x
  {
    assert (s + [x])[..|s|] == s;
  }

  lemma {:induction false} SumConcat(a: seq<real>, b: seq<real>)
    ensures Sum(a + b) == Sum(a) + Sum(b)
    decreases |b|
  {
    if b == [] {
      assert a + b == a;
    } else {
      var b' := b[..|b| - 1];
      assert a + b == (a + b') + [b[|b| - 1]];
      SumAppend(a + b', b[|b| - 1]);
      SumConcat(a, b');
      assert b == b' + [b[|b| - 1]];
      SumAppend(b', b[|b| - 1]);
    }
  }

  /** A sum of non-negative terms is non-negative. */
  lemma {:induction false} SumNonNegative(s: seq<real>)
    requires forall i | 0 <= i < |s| :: s[i] >= 0.0
    ensures Sum(s) >= 0.0
  {
    if s != [] {
      SumNonNegative(s[..|s| - 1]);
    }
  }

  /** A sum of strictly positive terms over a non-empty sequence is positive. */
  lemma {:induction false} SumPositive(s: seq<real>)
    requires |s| > 0
    requires forall i | 0 <= i < |s| :: s[i] > 0.0
    ensures Sum(s) > 0.0
  {
    if |s| > 1 {
      SumPositive(s[..|s| - 1]);
    }
  }

  /** A sum of strictly negative terms over a non-empty sequence is negative. */
  lemma {:induction false} SumNegative(s: seq<real>)
    requires |s| > 0
    requires forall i | 0 <= i < |s| :: s[i] < 0.0
    ensures Sum(s) < 0.0
  {
    if |s| > 1 {
      SumNegative(s[..|s| - 1]);
    }
  }

  /** A sum of zero terms is zero. */
  lemma {:induction false} SumZero(s: seq<real>)
    requires forall i | 0 <= i < |s| :: s[i] == 0.0
    ensures Sum(s) == 0.0
  {
    if s != [] {
      SumZero(s[..|s| - 1]);
    }
  }

  /** Arithmetic mean, 0 for the empty sequence (SQL's AVG of no rows, read
      through `or 0`, and numpy's mean guarded by the callers). */
  function Mean(s: seq<real>): real
  {
    if |s| == 0 then 0.0 else Sum(s) / (|s| as real)
  }

  /** A sum of non-negative terms is zero exactly when every term is. */
  lemma {:induction false} SumZeroIff(s: seq<real>)
    requires forall i | 0 <= i < |s| :: s[i] >= 0.0
    ensures Sum(s) == 0.0 <==> forall i | 0 <= i < |s| :: s[i] == 0.0
  {
    if s != [] {
      var init := s[..|s| - 1];
      SumZeroIff(init);
      SumNonNegative(init);
      if Sum(s) == 0.0 {
        assert forall i | 0 <= i < |init| :: init[i] == s[i];
      }
    }
  }

  /** Terms between `lo` and `hi` sum to between `|s| * lo` and `|s| * hi`. */
  lemma {:induction false} SumBounds(s: seq<real>, lo: real, hi: real)
    requires forall i | 0 <= i < |s| :: lo <= s[i] <= hi
    ensures |s| as real * lo <= Sum(s) <= |s| as real * hi
  {
    if s != [] {
      SumBounds(s[..|s| - 1], lo, hi);
      assert |s| as real * lo == (|s| - 1) as real * lo + lo;
      assert |s| as real * hi == (|s| - 1) as real * hi + hi;
    }
  }

  lemma QuotientBounds(x: real, n: real, lo: real, hi: real)
    requires n > 0.0 && n * lo <= x <= n * hi
    ensures lo <= x / n <= hi
  {
    var q := x / n;
    assert x == q * n;
  }

  /** The mean of a non-empty sequence lies between any bounds of its terms. */
  lemma MeanBounds(s: seq<real>, lo: real, hi: real)
    requires |s| > 0
    requires forall i | 0 <= i < |s| :: lo <= s[i] <= hi
    ensures lo <= Mean(s) <= hi
  {
    SumBounds(s, lo, hi);
    QuotientBounds(Sum(s), |s| as real, lo, hi);
  }

  /** `std` is a standard deviation as far as the code relies on: never
      negative. */
  ghost predicate StdNonNegative(std: seq<real> -> real)
  {
    forall s :: std(s) >= 0.0
  }

  /** Largest element of a non-empty sequence. */
  function SeqMax(s: seq<real>): (m: real)
    requires |s| > 0
    ensures forall i | 0 <= i < |s| :: s[i] <= m
    ensures exists i | 0 <= i < |s| :: s[i] == m
  {
    if |s| == 1 then s[0]
    else
      var m' := SeqMax(s[..|s| - 1]);
      assert forall i | 0 <= i < |s| - 1 :: s[..|s| - 1][i] == s[i];
      if s[|s| - 1] > m' then s[|s| - 1] else m'
  }

  /** Smallest element of a non-empty sequence. */
  function SeqMin(s: seq<real>): (m: real)
    requires |s| > 0
    ensures forall i | 0 <= i < |s| :: m <= s[i]
    ensures exists i | 0 <= i < |s| :: s[i] == m
  {
    if |s| == 1 then s[0]
    else
      var m' := SeqMin(s[..|s| - 1]);
      assert forall i | 0 <= i < |s| - 1 :: s[..|s| - 1][i] == s[i];
      if s[|s| - 1] < m' then s[|s| - 1] else m'
  }

  /** Python's `int(x)` on a float: truncation toward zero. */
  function Trunc(x: real): (n: int)
    ensures x >= 0.0 ==> n as real <= x < n as real + 1.0
    ensures x < 0.0 ==> n as real - 1.0 < x <= n as real
  {
    if x >= 0.0 then x.Floor else -((-x).Floor)
  }

  /** The elements of `s` that satisfy `p`, in their original order (a list
      comprehension with an `if`). Folded from the right end. */
  function Filter<T>(s: seq<T>, p: T -> bool): (r: seq<T>)
    ensures |r| <= |s|
  {
    if s == [] then []
    else Filter(s[..|s| - 1], p) + (if p(s[|s| - 1]) then [s[|s| - 1]] else [])
  }

  lemma FilterAppend<T>(s: seq<T>, x: T, p: T -> bool)
    ensures Filter(s + [x], p) == Filter(s, p) + (if p(x) then [x] else [])
  {
    assert (s + [x])[..|s|] == s;
  }

  /** Filtering a concatenation filters each part and keeps their order:
      everything kept from `a` precedes everything kept from `b`. */
  lemma {:induction false} FilterConcat<T>(a: seq<T>, b: seq<T>, p: T -> bool)
    ensures Filter(a + b, p) == Filter(a, p) + Filter(b, p)
    decreases |b|
  {
    if b == [] {
      assert a + b == a;
    } else {
      var b' := b[..|b| - 1];
      var x := b[|b| - 1];
      assert a + b == (a + b') + [x];
      FilterAppend(a + b', x, p);
      FilterConcat(a, b', p);
      assert b == b' + [x];
      FilterAppend(b', x, p);
    }
  }

  /** An element is kept exactly when it occurs in the input and satisfies the
      predicate. */
  lemma {:induction false} FilterMembers<T>(s: seq<T>, p: T -> bool, x: T)
    ensures x in Filter(s, p) <==> x in s && p(x)
  {
    if s != [] {
      var s' := s[..|s| - 1];
      FilterMembers(s', p, x);
      assert s == s' + [s[|s| - 1]];
    }
  }

  /** No element occurs twice. */
  ghost predicate Distinct<T>(s: seq<T>)
  {
    forall i, j | 0 <= i < j < |s| :: s[i] != s[j]
  }

  /** Filtering a list without repetitions gives one without repetitions. */
  lemma {:induction false} FilterDistinct<T>(s: seq<T>, p: T -> bool)
    requires Distinct(s)
    ensures Distinct(Filter(s, p))
  {
    if s != [] {
      var s', x := s[..|s| - 1], s[|s| - 1];
      assert Distinct(s');
      FilterDistinct(s', p);
      FilterMembers(s', p, x);
      assert x !in s';
    }
  }

  /** The present values among `f(0)`, ..., `f(n - 1)`, in that order (a
      loop appending the results that are not `None`). */
  function Somes<T>(n: nat, f: nat -> Option<T>): seq<T>
  {
    if n == 0 then [] else Somes(n - 1, f) + (if f(n - 1).Some? then [f(n - 1).value] else [])
  }

  /** A value is collected exactly when one of the first `n` results is it. */
  lemma {:induction false} SomesMembers<T>(n: nat, f: nat -> Option<T>, x: T)
    ensures x in Somes(n, f) <==> exists i | 0 <= i < n :: f(i) == Some(x)
  {
    if n > 0 {
      SomesMembers(n - 1, f, x);
      if x in Somes(n, f) && x !in Somes(n - 1, f) {
        assert f(n - 1) == Some(x);
      }
    }
  }

  /** Every element satisfies `p` exactly when filtering keeps everything. */
  lemma {:induction false} FilterAll<T>(s: seq<T>, p: T -> bool)
    requires forall i | 0 <= i < |s| :: p(s[i])
    ensures Filter(s, p) == s
  {
    if s != [] {
      FilterAll(s[..|s| - 1], p);
      assert s == s[..|s| - 1] + [s[|s| - 1]];
    }
  }

  /** Two predicates that never hold together keep at most `|s|` elements
      between them. */
  lemma {:induction false} FilterDisjoint<T>(s: seq<T>, p: T -> bool, q: T -> bool)
    requires forall i | 0 <= i < |s| :: !(p(s[i]) && q(s[i]))
    ensures |Filter(s, p)| + |Filter(s, q)| <= |s|
  {
    if s != [] {
      var init := s[..|s| - 1];
      assert forall i | 0 <= i < |init| :: init[i] == s[i];
      FilterDisjoint(init, p, q);
    }
  }

  /** No element satisfies `p`: nothing is kept. */
  lemma {:induction false} FilterNone<T>(s: seq<T>, p: T -> bool)
    requires forall i | 0 <= i < |s| :: !p(s[i])
    ensures Filter(s, p) == []
  {
    if s != [] {
      FilterNone(s[..|s| - 1], p);
    }
  }

  /** `s` is ordered non-increasingly by `key`. */
  ghost predicate SortedDesc<T>(s: seq<T>, key: T -> real)
  {
    forall i, j | 0 <= i < j < |s| :: key(s[i]) >= key(s[j])
  }

  /** Inserts `x` after every element whose key is at least its own: a later
      element never overtakes an earlier one with an equal key. */
  function InsertDesc<T>(x: T, t: seq<T>, key: T -> real): (r: seq<T>)
    ensures |r| == |t| + 1
    ensures multiset(r) == multiset(t) + multiset{x}
  {
    if t == [] then [x]
    else if key(t[0]) >= key(x) then
      assert t == [t[0]] + t[1..];
      [t[0]] + InsertDesc(x, t[1..], key)
    else [x] + t
  }

  /** Stable sort by `key`, largest first, as `list.sort(key=key, reverse=True)`. */
  function SortDesc<T>(s: seq<T>, key: T -> real): (r: seq<T>)
    ensures |r| == |s|
  {
    if s == [] then [] else InsertDesc(s[|s| - 1], SortDesc(s[..|s| - 1], key), key)
  }

  lemma {:induction false} InsertDescSorted<T>(x: T, t: seq<T>, key: T -> real)
    requires SortedDesc(t, key)
    ensures SortedDesc(InsertDesc(x, t, key), key)
  {
    var r := InsertDesc(x, t, key);
    if t != [] && key(t[0]) >= key(x) {
      InsertDescSorted(x, t[1..], key);
      var r' := InsertDesc(x, t[1..], key);
      assert r == [t[0]] + r';
      forall y | y in r'
        ensures key(t[0]) >= key(y)
      {
        if y != x {
          assert y in multiset(r');
          assert y in multiset(t[1..]);
          var k :| 0 <= k < |t[1..]| && t[1..][k] == y;
          assert t[k + 1] == y;
        }
      }
    }
  }

  lemma {:induction false} SortDescSorted<T>(s: seq<T>, key: T -> real)
    ensures SortedDesc(SortDesc(s, key), key)
  {
    if s != [] {
      SortDescSorted(s[..|s| - 1], key);
      InsertDescSorted(s[|s| - 1], SortDesc(s[..|s| - 1], key), key);
    }
  }

  /** The sorted output is ordered by key and is a permutation of the input. */
  lemma {:induction false} SortDescCorrect<T>(s: seq<T>, key: T -> real)
    ensures SortedDesc(SortDesc(s, key), key)
    ensures multiset(SortDesc(s, key)) == multiset(s)
  {
    SortDescSorted(s, key);
    SortDescPermutes(s, key);
  }

  lemma {:induction false} SortDescPermutes<T>(s: seq<T>, key: T -> real)
    ensures multiset(SortDesc(s, key)) == multiset(s)
  {
    if s != [] {
      var s' := s[..|s| - 1];
      SortDescPermutes(s', key);
      assert s == s' + [s[|s| - 1]];
    }
  }

  /** The predicate "has key `k`", as one named term so that every filter by
      key below speaks of the same function. */
  function KeyIs<T>(key: T -> real, k: real): T -> bool
  {
    y => key(y) == k
  }

  /** Inserting into a sorted sequence: among the elements whose key is `k`,
      the new element comes last. */
  lemma {:induction false} InsertDescStable<T>(x: T, t: seq<T>, key: T -> real, k: real)
    requires SortedDesc(t, key)
    ensures Filter(InsertDesc(x, t, key), KeyIs(key, k))
         == Filter(t, KeyIs(key, k)) + (if key(x) == k then [x] else [])
    decreases |t|, 1
  {
    var p := KeyIs(key, k);
    if t == [] {
      assert InsertDesc(x, t, key) == [] + [x];
      FilterAppend([], x, p);
    } else if key(t[0]) >= key(x) {
      InsertDescStableFront(x, t, key, k);
    } else {
      InsertDescStableHere(x, t, key, k);
    }
  }

  lemma {:induction false} InsertDescStableFront<T>(x: T, t: seq<T>, key: T -> real, k: real)
    requires SortedDesc(t, key)
    requires t != [] && key(t[0]) >= key(x)
    ensures Filter(InsertDesc(x, t, key), KeyIs(key, k))
         == Filter(t, KeyIs(key, k)) + (if key(x) == k then [x] else [])
    decreases |t|, 0
  {
    var p := KeyIs(key, k);
    var rest := t[1..];
    assert SortedDesc(rest, key);
    InsertDescStable(x, rest, key, k);
    assert InsertDesc(x, t, key) == [t[0]] + InsertDesc(x, rest, key);
    FilterConcat([t[0]], InsertDesc(x, rest, key), p);
    assert t == [t[0]] + rest;
    FilterConcat([t[0]], rest, p);
  }

  lemma {:induction false} InsertDescStableHere<T>(x: T, t: seq<T>, key: T -> real, k: real)
    requires SortedDesc(t, key)
    requires t != [] && key(t[0]) < key(x)
    ensures Filter(InsertDesc(x, t, key), KeyIs(key, k))
         == Filter(t, KeyIs(key, k)) + (if key(x) == k then [x] else [])
  {
    var p := KeyIs(key, k);
    assert InsertDesc(x, t, key) == [x] + t;
    FilterConcat([x], t, p);
    assert [x] == [] + [x];
    FilterAppend([], x, p);
    if key(x) == k {
      forall i | 0 <= i < |t|
        ensures !p(t[i])
      {
        assert key(t[i]) <= key(t[0]);
      }
      FilterNone(t, p);
    }
  }

  /** Stability: for every key value, the elements carrying that key appear in
      the output in exactly their input order. */
  lemma {:induction false} SortDescStable<T>(s: seq<T>, key: T -> real, k: real)
    ensures Filter(SortDesc(s, key), KeyIs(key, k)) == Filter(s, KeyIs(key, k))
  {
    if s != [] {
      var s', x := s[..|s| - 1], s[|s| - 1];
      var p := KeyIs(key, k);
      var sorted' := SortDesc(s', key);
      SortDescSorted(s', key);
      assert p(x) == (key(x) == k);
      calc {
        Filter(SortDesc(s, key), p);
        Filter(InsertDesc(x, sorted', key), p);
        { InsertDescStable(x, sorted', key, k); }
        Filter(sorted', p) + (if key(x) == k then [x] else []);
        { SortDescStable(s', key, k); }
        Filter(s', p) + (if p(x) then [x] else []);
        { FilterAppend(s', x, p); }
        Filter(s' + [x], p);
        { assert s == s' + [x]; }
        Filter(s, p);
      }
    }
  }


  /** Python's `s[:n]` for any integer `n`, including negative ones. */
  function PyPrefix<T>(s: seq<T>, n: int): (r: seq<T>)
    ensures n >= 0 ==> r == s[..if n < |s| then n else |s|]
    ensures n < 0 ==> r == s[..if |s| + n > 0 then |s| + n else 0]
  {
    if n >= 0 then s[..if n < |s| then n else |s|]
    else s[..if |s| + n > 0 then |s| + n else 0]
  }

  /** Python's `s[-k:]` for `k >= 1`: the last `k` elements, or all of them. */
  function LastK<T>(s: seq<T>, k: nat): (r: seq<T>)
    requires k >= 1
    ensures |r| == if |s| < k then |s| else k
  {
    s[if |s| < k then 0 else |s| - k..]
  }

  /** Python's `s[-k:-1]` for `k >= 1`: the `k - 1` elements before the last
      one, or fewer when `s` is short. */
  function LastKButOne<T>(s: seq<T>, k: nat): (r: seq<T>)
    requires k >= 1
    ensures |s| >= k ==> |r| == k - 1
    ensures |s| < k ==> |r| == if |s| == 0 then 0 else |s| - 1
  {
    if |s| == 0 then [] else s[if |s| < k then 0 else |s| - k..|s| - 1]
  }

  /** A Python dict in insertion order: a sequence of key/value pairs whose
      keys are distinct. */
  ghost predicate DistinctKeys<K, V>(a: seq<(K, V)>)
  {
    forall i, j | 0 <= i < j < |a| :: a[i].0 != a[j].0
  }

  function Keys<K, V>(a: seq<(K, V)>): (r: seq<K>)
    ensures |r| == |a|
    ensures forall i | 0 <= i < |a| :: r[i] == a[i].0
  {
    if a == [] then [] else Keys(a[..|a| - 1]) + [a[|a| - 1].0]
  }

  /** Position of key `k`, if present. */
  function IndexOfKey<K(==), V>(a: seq<(K, V)>, k: K): (r: Option<nat>)
    ensures r.Some? ==> r.value < |a| && a[r.value].0 == k
    ensures r.None? ==> forall i | 0 <= i < |a| :: a[i].0 != k
  {
    if a == [] then None
    else if a[|a| - 1].0 == k then Some(|a| - 1)
    else IndexOfKey(a[..|a| - 1], k)
  }

  /** `d[k] = v`: an existing key keeps its position and takes the new
      value; a new key goes at the end. */
  function Put<K(==), V>(a: seq<(K, V)>, k: K, v: V): (r: seq<(K, V)>)
    requires DistinctKeys(a)
    ensures DistinctKeys(r)
    ensures IndexOfKey(a, k).Some? ==> |r| == |a| && r == a[IndexOfKey(a, k).value := (k, v)]
    ensures IndexOfKey(a, k).None? ==> r == a + [(k, v)]
  {
    match IndexOfKey(a, k)
    case Some(i) => a[i := (k, v)]
    case None => a + [(k, v)]
  }

  /** With distinct keys, a key sits at one position only. */
  lemma {:induction false} IndexOfKeyUnique<K, V>(a: seq<(K, V)>, k: K, i: nat)
    requires DistinctKeys(a) && i < |a| && a[i].0 == k
    ensures IndexOfKey(a, k) == Some(i)
  {
    var r := IndexOfKey(a, k);
    assert r.Some?;
    assert a[r.value].0 == k;
  }

  /** `d.get(k)`: the value stored under `k`, if any. */
  function Lookup<K(==), V>(a: seq<(K, V)>, k: K): (r: Option<V>)
    ensures r.Some? <==> exists i | 0 <= i < |a| :: a[i].0 == k
  {
    match IndexOfKey(a, k)
    case Some(i) => Some(a[i].1)
    case None => None
  }

  /** Reading a key just written gives the value written. */
  lemma LookupPutSame<K, V>(a: seq<(K, V)>, k: K, v: V)
    requires DistinctKeys(a)
    ensures Lookup(Put(a, k, v), k) == Some(v)
  {
    var r := Put(a, k, v);
    match IndexOfKey(a, k)
    case Some(i) =>
      IndexOfKeyUnique(r, k, i);
    case None =>
      IndexOfKeyUnique(r, k, |a|);
  }

  /** Writing one key leaves every other key as it was. */
  lemma LookupPutOther<K, V>(a: seq<(K, V)>, k: K, v: V, t: K)
    requires DistinctKeys(a) && t != k
    ensures Lookup(Put(a, k, v), t) == Lookup(a, t)
  {
    var r := Put(a, k, v);
    match IndexOfKey(a, t)
    case Some(j) =>
      assert r[j] == a[j];
      IndexOfKeyUnique(r, t, j);
    case None =>
      assert forall i | 0 <= i < |r| :: r[i].0 != t;
  }
}
