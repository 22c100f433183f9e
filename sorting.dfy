/**
 * Sequence filtering, stable sorting and slicing: the declarative pieces that the
 * catalog query, the home-page fallbacks and the order pages are built from.
 */
module Sorting {

  /** `s.filter(keep)`, keeping the original order. */
  function Filter<T>(s: seq<T>, keep: T -> bool): (r: seq<T>)
    ensures |r| <= |s|
    ensures forall x :: x in r ==> x in s && keep(x)
    ensures forall x :: x in s && keep(x) ==> x in r
    ensures forall i :: 0 <= i < |r| ==> keep(r[i])
  {
    if s == [] then []
    else if keep(s[0]) then [s[0]] + Filter(s[1..], keep)
    else Filter(s[1..], keep)
  }

  lemma {:induction false} FilterAll<T>(s: seq<T>, keep: T -> bool)
    requires forall x :: x in s ==> keep(x)
    ensures Filter(s, keep) == s
  {
    if s != [] {
      FilterAll(s[1..], keep);
    }
  }

  lemma {:induction false} FilterAppend<T>(a: seq<T>, b: seq<T>, keep: T -> bool)
    ensures Filter(a + b, keep) == Filter(a, keep) + Filter(b, keep)
  {
    if a == [] {
      assert a + b == b;
    } else {
      assert (a + b)[1..] == a[1..] + b;
      FilterAppend(a[1..], b, keep);
    }
  }

  /** Filtering by two tests that agree on every element gives the same result. */
  lemma {:induction false} FilterSame<T>(s: seq<T>, f: T -> bool, g: T -> bool)
    requires forall x :: x in s ==> f(x) == g(x)
    ensures Filter(s, f) == Filter(s, g)
  {
    if s != [] {
      FilterSame(s[1..], f, g);
    }
  }

  /** The number of elements of `s` that `keep` accepts. */
  function Count<T>(s: seq<T>, keep: T -> bool): nat {
    |Filter(s, keep)|
  }

  /** `s.slice(0, n)` for n >= 0. */
  function Take<T>(s: seq<T>, n: nat): (r: seq<T>)
    ensures |r| <= n && |r| <= |s|
    ensures |r| == if n < |s| then n else |s|
    ensures r == s[..|r|]
  {
    if n < |s| then s[..n] else s
  }

  /** `s.slice(-n)` for n > 0: the last n elements, or all of them. */
  function TakeLast<T>(s: seq<T>, n: nat): (r: seq<T>)
    ensures |r| == if n < |s| then n else |s|
    ensures r == s[|s| - |r|..]
  {
    if n < |s| then s[|s| - n..] else s
  }

  // ---------------------------------------------------------------------------
  // Stable insertion sort by a strict "comes before" relation
  // ---------------------------------------------------------------------------

  /** `lt(a, b)`: `a` must be placed before `b`. Elements neither precedes are ties. */
  ghost predicate StrictWeakOrder<T(!new)>(lt: (T, T) -> bool) {
    && (forall a :: !lt(a, a))
    && (forall a, b, c :: lt(a, b) && lt(b, c) ==> lt(a, c))
    && (forall a, b, c :: !lt(a, b) && !lt(b, c) ==> !lt(a, c))
  }

  ghost predicate SortedBy<T>(s: seq<T>, lt: (T, T) -> bool) {
    forall i, j :: 0 <= i < j < |s| ==> !lt(s[j], s[i])
  }

  /** Places `x` after the leading elements that must come before it. */
  function Insert<T>(x: T, s: seq<T>, lt: (T, T) -> bool): (r: seq<T>)
    ensures multiset(r) == multiset(s) + multiset{x}
    ensures |r| == |s| + 1
  {
    if s != [] && lt(s[0], x) then
      assert s == [s[0]] + s[1..];
      [s[0]] + Insert(x, s[1..], lt)
    else
      [x] + s
  }

  /** Sorts `s`; ties keep their relative order, as JavaScript's `Array.prototype.sort` does. */
  function SortBy<T>(s: seq<T>, lt: (T, T) -> bool): (r: seq<T>)
    ensures multiset(r) == multiset(s)
    ensures |r| == |s|
  {
    if s == [] then []
    else
      assert s == [s[0]] + s[1..];
      Insert(s[0], SortBy(s[1..], lt), lt)
  }

  lemma {:induction false} InsertSorted<T(!new)>(x: T, s: seq<T>, lt: (T, T) -> bool)
    requires StrictWeakOrder(lt)
    requires SortedBy(s, lt)
    ensures SortedBy(Insert(x, s, lt), lt)
  {
    if s != [] && lt(s[0], x) {
      var t := s[1..];
      assert SortedBy(t, lt);
      InsertSorted(x, t, lt);
      var r := Insert(x, t, lt);
      forall k | 0 <= k < |r| ensures !lt(r[k], s[0]) {
        assert r[k] in multiset(r);
        assert r[k] in multiset(t) || r[k] == x;
        if r[k] != x {
          var m :| 0 <= m < |t| && t[m] == r[k];
          assert s[m + 1] == t[m];
        }
      }
    } else if s != [] {
      forall k | 0 <= k < |s| ensures !lt(s[k], x) {
        assert !lt(s[k], s[0]);
      }
    }
  }

  /** The sort's result is ordered by `lt`. */
  lemma {:induction false} SortBySorted<T(!new)>(s: seq<T>, lt: (T, T) -> bool)
    requires StrictWeakOrder(lt)
    ensures SortedBy(SortBy(s, lt), lt)
  {
    if s != [] {
      SortBySorted(s[1..], lt);
      InsertSorted(s[0], SortBy(s[1..], lt), lt);
    }
  }

  /**
   * The first `n` of a sort: elements of `s`, in order, and no element left out must come
   * before one that was kept.
   */
  lemma TopOf<T(!new)>(s: seq<T>, lt: (T, T) -> bool, n: nat)
    requires StrictWeakOrder(lt)
    ensures var r := Take(SortBy(s, lt), n);
      && multiset(r) <= multiset(s)
      && SortedBy(r, lt)
      && (forall x, i :: x in s && x !in r && 0 <= i < |r| ==> !lt(x, r[i]))
  {
    var t := SortBy(s, lt);
    var r := Take(t, n);
    SortBySorted(s, lt);
    assert t == r + t[|r|..];
    assert multiset(t) == multiset(r) + multiset(t[|r|..]);
    forall x, i | x in s && x !in r && 0 <= i < |r|
      ensures !lt(x, r[i])
    {
      assert x in multiset(t);
      var j :| 0 <= j < |t| && t[j] == x;
      assert !lt(t[j], t[i]);
    }
  }
}
