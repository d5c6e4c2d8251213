/** Outcome events as the agent reads them, the stable sort by time, and sums over numbers (modelled as reals). */
module Events {
  import opened Wrappers
  import opened Arithmetic

  datatype Side = Buy | Sell

  datatype OutcomeEvent = OutcomeEvent(lead: string, timestamp: real, pnlBps: real,
                                       direction: Option<Side>, sizePct: Option<real>)

  function Timestamp(e: OutcomeEvent): real { e.timestamp }

  function Map<T, U>(f: T -> U, s: seq<T>): (r: seq<U>)
    ensures |r| == |s| && forall i :: 0 <= i < |s| ==> r[i] == f(s[i])
  {
    seq(|s|, i requires 0 <= i < |s| => f(s[i]))
  }

  function Mean(s: seq<real>): real
    requires s != []
  {
    Total(s) / (|s| as real)
  }

  function Product(x: real, y: real): real { x * y }

  function Square(x: real): real { Product(x, x) }

  lemma {:induction false} SumPositive(s: seq<real>)
    requires forall i :: 0 <= i < |s| ==> s[i] > 0.0
    ensures Total(s) >= 0.0 && (s != [] ==> Total(s) > 0.0)
  {
    if s == [] {
    } else {
      SumPositive(s[1..]);
    }
  }

  /** Sum of squared deviations from m. */
  function SquaredDeviations(s: seq<real>, m: real): real {
    if s == [] then 0.0 else Square(s[0] - m) + SquaredDeviations(s[1..], m)
  }

  lemma ProductSign(x: real, y: real)
    ensures x > 0.0 && y > 0.0 ==> Product(x, y) > 0.0
    ensures x < 0.0 && y < 0.0 ==> Product(x, y) > 0.0
    ensures x == 0.0 ==> Product(x, y) == 0.0
  {
    if x > 0.0 && y > 0.0 {
      PositiveProduct(x, y);
    } else if x < 0.0 && y < 0.0 {
      PositiveProduct(-x, -y);
      NegateBoth(x, y);
    } else if x == 0.0 {
      ZeroProduct(x, y);
    }
  }

  lemma SquareSign(d: real)
    ensures Square(d) >= 0.0 && (Square(d) == 0.0 <==> d == 0.0)
  {
    ProductSign(d, d);
  }

  function Clamp01(x: real): (r: real)
    ensures 0.0 <= r <= 1.0
  {
    if x < 0.0 then 0.0 else if x > 1.0 then 1.0 else x
  }

  /** Math.sqrt, by what defines it. */
  ghost predicate IsSqrt(root: real -> real) {
    forall x :: x >= 0.0 ==> root(x) >= 0.0 && root(x) * root(x) == x
  }

  lemma {:induction false} SquaredDeviationsNonNegative(s: seq<real>, m: real)
    ensures SquaredDeviations(s, m) >= 0.0
  {
    if s == [] {
    } else {
      SquareSign(s[0] - m);
      SquaredDeviationsNonNegative(s[1..], m);
    }
  }

  // ---- Sorting --------------------------------------------------------------------------------------

  function Insert<T>(key: T -> real, x: T, s: seq<T>): seq<T> {
    if s == [] || key(x) <= key(s[0]) then [x] + s else [s[0]] + Insert(key, x, s[1..])
  }

  /** The stable ascending sort of Array.prototype.sort. */
  function SortBy<T>(key: T -> real, s: seq<T>): seq<T> {
    if s == [] then [] else Insert(key, s[0], SortBy(key, s[1..]))
  }

  ghost predicate Ascending<T>(key: T -> real, s: seq<T>) {
    forall i, j :: 0 <= i < j < |s| ==> key(s[i]) <= key(s[j])
  }

  ghost predicate DistinctKeys<T>(key: T -> real, s: seq<T>) {
    forall i, j :: 0 <= i < j < |s| ==> key(s[i]) != key(s[j])
  }

  /** The elements with a given key, in order. */
  function WithKey<T>(key: T -> real, s: seq<T>, k: real): seq<T> {
    if s == [] then [] else (if key(s[0]) == k then [s[0]] else []) + WithKey(key, s[1..], k)
  }

  lemma {:induction false} InsertKeepsElements<T>(key: T -> real, x: T, s: seq<T>)
    ensures multiset(Insert(key, x, s)) == multiset{x} + multiset(s)
  {
    if s == [] || key(x) <= key(s[0]) {
    } else {
      InsertKeepsElements(key, x, s[1..]);
      assert s == [s[0]] + s[1..];
    }
  }

  lemma {:induction false} InsertKeepsAscending<T>(key: T -> real, x: T, s: seq<T>)
    requires Ascending(key, s)
    ensures Ascending(key, Insert(key, x, s))
  {
    if s == [] || key(x) <= key(s[0]) {
    } else {
      var r := Insert(key, x, s[1..]);
      InsertKeepsAscending(key, x, s[1..]);
      InsertKeepsElements(key, x, s[1..]);
      forall j | 0 <= j < |r| ensures key(s[0]) <= key(r[j]) {
        assert r[j] in multiset(r);
        assert r[j] == x || r[j] in s[1..];
      }
    }
  }

  lemma WithKeyCons<T>(key: T -> real, x: T, s: seq<T>, k: real)
    ensures WithKey(key, [x] + s, k) == (if key(x) == k then [x] else []) + WithKey(key, s, k)
  {
    assert ([x] + s)[1..] == s;
  }

  lemma {:induction false} InsertIsStable<T>(key: T -> real, x: T, s: seq<T>, k: real)
    ensures WithKey(key, Insert(key, x, s), k) == (if key(x) == k then [x] else []) + WithKey(key, s, k)
  {
    if s == [] || key(x) <= key(s[0]) {
      WithKeyCons(key, x, s, k);
    } else {
      InsertIsStable(key, x, s[1..], k);
      WithKeyCons(key, s[0], Insert(key, x, s[1..]), k);
      WithKeyCons(key, s[0], s[1..], k);
      assert s == [s[0]] + s[1..];
      if key(x) == k {
        assert [] + ([x] + WithKey(key, s[1..], k)) == [x] + ([] + WithKey(key, s[1..], k));
      }
    }
  }

  /** Sorted, the same elements, and equal keys in their original order. */
  lemma {:induction false} SortSorts<T>(key: T -> real, s: seq<T>, k: real)
    ensures Ascending(key, SortBy(key, s))
    ensures multiset(SortBy(key, s)) == multiset(s)
    ensures WithKey(key, SortBy(key, s), k) == WithKey(key, s, k)
  {
    if s == [] {
    } else {
      var rest := SortBy(key, s[1..]);
      SortSorts(key, s[1..], k);
      InsertKeepsElements(key, s[0], rest);
      InsertKeepsAscending(key, s[0], rest);
      InsertIsStable(key, s[0], rest, k);
      assert s == [s[0]] + s[1..];
    }
  }

  lemma SortKeepsLength<T>(key: T -> real, s: seq<T>)
    ensures |SortBy(key, s)| == |s|
  {
    SortSorts(key, s, 0.0);
    assert |multiset(SortBy(key, s))| == |multiset(s)|;
  }

  // ---- What determines the sorted list --------------------------------------------------------------

  /** The two lists hold the same elements in the same order, key by key. */
  ghost predicate SameByKey<T>(key: T -> real, a: seq<T>, b: seq<T>) {
    forall k :: WithKey(key, a, k) == WithKey(key, b, k)
  }

  lemma {:induction false} KeyPresent<T>(key: T -> real, s: seq<T>, i: nat)
    requires i < |s|
    ensures WithKey(key, s, key(s[i])) != []
  {
    if i == 0 {
    } else {
      KeyPresent(key, s[1..], i - 1);
    }
  }

  lemma {:induction false} KeyFound<T>(key: T -> real, s: seq<T>, k: real) returns (i: nat)
    requires WithKey(key, s, k) != []
    ensures i < |s| && key(s[i]) == k
  {
    if key(s[0]) == k {
      i := 0;
    } else {
      i := KeyFound(key, s[1..], k);
      i := i + 1;
    }
  }

  lemma HeadNotAbove<T>(key: T -> real, a: seq<T>, b: seq<T>)
    requires Ascending(key, a) && SameByKey(key, a, b) && b != []
    ensures a != [] && key(a[0]) <= key(b[0])
  {
    KeyPresent(key, b, 0);
    var k := key(b[0]);
    assert WithKey(key, a, k) == WithKey(key, b, k);
    var i := KeyFound(key, a, k);
    assert i > 0 ==> key(a[0]) <= key(a[i]);
  }

  lemma SameHeadByKey<T>(key: T -> real, a: seq<T>, b: seq<T>)
    requires Ascending(key, a) && Ascending(key, b) && SameByKey(key, a, b) && a != [] && b != []
    ensures a[0] == b[0] && SameByKey(key, a[1..], b[1..])
  {
    HeadNotAbove(key, a, b);
    HeadNotAbove(key, b, a);
    var k0 := key(a[0]);
    assert key(b[0]) == k0;
    assert WithKey(key, a, k0) == WithKey(key, b, k0);
    assert WithKey(key, a, k0)[0] == a[0] && WithKey(key, b, k0)[0] == b[0];
    forall k ensures WithKey(key, a[1..], k) == WithKey(key, b[1..], k) {
      assert WithKey(key, a, k) == WithKey(key, b, k);
      var head := if key(a[0]) == k then [a[0]] else [];
      assert WithKey(key, a, k) == head + WithKey(key, a[1..], k);
      assert WithKey(key, b, k) == head + WithKey(key, b[1..], k);
      assert WithKey(key, a[1..], k) == WithKey(key, a, k)[|head|..];
      assert WithKey(key, b[1..], k) == WithKey(key, b, k)[|head|..];
    }
  }

  lemma {:induction false} AscendingDetermined<T>(key: T -> real, a: seq<T>, b: seq<T>)
    requires Ascending(key, a) && Ascending(key, b) && SameByKey(key, a, b)
    ensures a == b
  {
    if a == [] {
      if b != [] { HeadNotAbove(key, a, b); }
    } else {
      HeadNotAbove(key, b, a);
      SameHeadByKey(key, a, b);
      AscendingDetermined(key, a[1..], b[1..]);
    }
  }

  /** Two lists sort to the same list exactly when, for every key, they hold the same elements in the same order. */
  lemma SameSortIffSameByKey<T>(key: T -> real, a: seq<T>, b: seq<T>)
    ensures SortBy(key, a) == SortBy(key, b) <==> SameByKey(key, a, b)
  {
    forall k ensures WithKey(key, SortBy(key, a), k) == WithKey(key, a, k)
             ensures WithKey(key, SortBy(key, b), k) == WithKey(key, b, k)
    {
      SortSorts(key, a, k);
      SortSorts(key, b, k);
    }
    SortSorts(key, a, 0.0);
    SortSorts(key, b, 0.0);
    if SameByKey(key, a, b) { AscendingDetermined(key, SortBy(key, a), SortBy(key, b)); }
  }

  lemma SameHead<T>(key: T -> real, a: seq<T>, b: seq<T>)
    requires Ascending(key, a) && Ascending(key, b) && DistinctKeys(key, a)
    requires a != [] && b != [] && multiset(a) == multiset(b)
    ensures a[0] == b[0]
  {
    assert a[0] in multiset(b) && b[0] in multiset(a);
    var p :| 0 <= p < |b| && b[p] == a[0];
    var q :| 0 <= q < |a| && a[q] == b[0];
    assert key(b[0]) <= key(b[p]) && key(a[0]) <= key(a[q]);
  }

  lemma MultisetOfTail<T>(s: seq<T>)
    requires s != []
    ensures multiset(s[1..]) == multiset(s) - multiset{s[0]}
  {
    assert s == [s[0]] + s[1..];
  }

  lemma SortedTails<T>(key: T -> real, a: seq<T>, b: seq<T>)
    requires Ascending(key, a) && Ascending(key, b) && DistinctKeys(key, a)
    requires multiset(a) == multiset(b) && a != [] && b != []
    ensures a[0] == b[0]
    ensures Ascending(key, a[1..]) && Ascending(key, b[1..]) && DistinctKeys(key, a[1..])
    ensures multiset(a[1..]) == multiset(b[1..])
  {
    SameHead(key, a, b);
    MultisetOfTail(a);
    MultisetOfTail(b);
  }

  lemma SameLength<T>(a: seq<T>, b: seq<T>)
    requires multiset(a) == multiset(b)
    ensures |a| == |b|
  {
    assert |multiset(a)| == |multiset(b)|;
  }

  lemma {:induction false} SortedUnique<T>(key: T -> real, a: seq<T>, b: seq<T>)
    requires Ascending(key, a) && Ascending(key, b) && DistinctKeys(key, a) && multiset(a) == multiset(b)
    ensures a == b
  {
    SameLength(a, b);
    if a == [] {
    } else {
      SortedTails(key, a, b);
      SortedUnique(key, a[1..], b[1..]);
      assert a == [a[0]] + a[1..] && b == [b[0]] + b[1..];
    }
  }

  lemma DistinctByMultiset<T>(key: T -> real, a: seq<T>, b: seq<T>)
    requires DistinctKeys(key, a) && multiset(a) == multiset(b)
    ensures DistinctKeys(key, b)
  {
    forall i, j | 0 <= i < j < |b| ensures key(b[i]) != key(b[j]) {
      assert b[i] in multiset(a) && b[j] in multiset(a);
      var p :| 0 <= p < |a| && a[p] == b[i];
      var q :| 0 <= q < |a| && a[q] == b[j];
      if p == q {
        TwiceInMultiset(b, i, j);
        OnceInMultiset(key, a, p);
      }
    }
  }

  lemma TwiceInMultiset<T>(s: seq<T>, i: nat, j: nat)
    requires i < j < |s| && s[i] == s[j]
    ensures multiset(s)[s[i]] >= 2
  {
    assert s == s[..i] + [s[i]] + s[i + 1..j] + [s[j]] + s[j + 1..];
  }

  lemma OnceInMultiset<T>(key: T -> real, s: seq<T>, p: nat)
    requires p < |s| && DistinctKeys(key, s)
    ensures multiset(s)[s[p]] == 1
  {
    assert s == s[..p] + [s[p]] + s[p + 1..];
    assert s[p] !in s[..p];
    assert s[p] !in s[p + 1..];
  }

  /** Distinct keys: any two lists of the same elements sort to the same list. */
  lemma SortIgnoresOrder<T>(key: T -> real, a: seq<T>, b: seq<T>)
    requires multiset(a) == multiset(b) && DistinctKeys(key, a)
    ensures SortBy(key, a) == SortBy(key, b)
  {
    SortSorts(key, a, 0.0);
    SortSorts(key, b, 0.0);
    DistinctByMultiset(key, a, SortBy(key, a));
    SortedUnique(key, SortBy(key, a), SortBy(key, b));
  }

  // ---- Sums over a list in any order ------------------------------------------------------------------

  function Without<T>(s: seq<T>, p: nat): seq<T>
    requires p < |s|
  {
    s[..p] + s[p + 1..]
  }

  lemma MultisetWithout<T>(s: seq<T>, p: nat)
    requires p < |s|
    ensures multiset(Without(s, p)) == multiset(s) - multiset{s[p]}
  {
    assert s == s[..p] + [s[p]] + s[p + 1..];
  }

  lemma TotalStep<T>(f: T -> real, s: seq<T>)
    requires s != []
    ensures Total(Map(f, s)) == f(s[0]) + Total(Map(f, s[1..]))
  {
    assert Map(f, s)[1..] == Map(f, s[1..]);
  }

  lemma {:induction false} TotalWithout<T>(f: T -> real, s: seq<T>, p: nat)
    requires p < |s|
    ensures Total(Map(f, s)) == f(s[p]) + Total(Map(f, Without(s, p)))
  {
    TotalStep(f, s);
    if p == 0 {
      assert Without(s, 0) == s[1..];
    } else {
      TotalWithout(f, s[1..], p - 1);
      var rest := Without(s, p);
      assert rest[0] == s[0] && rest[1..] == Without(s[1..], p - 1);
      TotalStep(f, rest);
    }
  }

  lemma {:induction false} TotalOfPermutation<T>(f: T -> real, a: seq<T>, b: seq<T>)
    requires multiset(a) == multiset(b)
    ensures Total(Map(f, a)) == Total(Map(f, b))
  {
    SameLength(a, b);
    if a == [] {
      assert Map(f, a) == Map(f, b);
    } else {
      assert a[0] in multiset(b);
      var p :| 0 <= p < |b| && b[p] == a[0];
      MultisetOfTail(a);
      MultisetWithout(b, p);
      TotalOfPermutation(f, a[1..], Without(b, p));
      TotalStep(f, a);
      TotalWithout(f, b, p);
    }
  }
}
