/** The library `sorted()` / `sorted(by:)` calls of the source, modelled as an
    insertion sort over a comparison `lt` ("areInIncreasingOrder"). */
module Sorting {

  /** What `sorted(by:)` asks of its comparison: asymmetric, and
      "not less than" is transitive. */
  ghost predicate StrictWeakOrder<T(!new)>(lt: (T, T) -> bool) {
    && (forall a, b :: lt(a, b) ==> !lt(b, a))
    && (forall a, b, c :: !lt(a, b) && !lt(b, c) ==> !lt(a, c))
  }

  /** A strict weak order in which distinct values are always comparable. */
  ghost predicate StrictTotalOrder<T(!new)>(lt: (T, T) -> bool) {
    && StrictWeakOrder(lt)
    && (forall a, b :: a != b ==> lt(a, b) || lt(b, a))
  }

  /** No element is less than one placed before it. */
  predicate SortedBy<T>(s: seq<T>, lt: (T, T) -> bool) {
    forall i, j :: 0 <= i < j < |s| ==> !lt(s[j], s[i])
  }

  /** Inserts `x` before the first element that is not less than it. */
  function Insert<T>(x: T, s: seq<T>, lt: (T, T) -> bool): (r: seq<T>)
    ensures multiset(r) == multiset(s) + multiset{x}
    ensures |r| == |s| + 1
  {
    if s == [] || !lt(s[0], x) then [x] + s
    else
      assert s == [s[0]] + s[1..];
      [s[0]] + Insert(x, s[1..], lt)
  }

  /** The elements of `s` in ascending order. */
  function Sort<T>(s: seq<T>, lt: (T, T) -> bool): (r: seq<T>)
    ensures multiset(r) == multiset(s)
    ensures |r| == |s|
  {
    if s == [] then []
    else
      assert s == [s[0]] + s[1..];
      Insert(s[0], Sort(s[1..], lt), lt)
  }

  lemma {:induction false} InsertSorted<T(!new)>(x: T, s: seq<T>, lt: (T, T) -> bool)
    requires StrictWeakOrder(lt)
    requires SortedBy(s, lt)
    ensures SortedBy(Insert(x, s, lt), lt)
  {
    if s == [] || !lt(s[0], x) {
    } else {
      var t := s[1..];
      InsertSorted(x, t, lt);
      var r := Insert(x, t, lt);
      assert multiset(r) == multiset(t) + multiset{x};
      forall k | 0 <= k < |r|
        ensures !lt(r[k], s[0])
      {
        assert r[k] in multiset(r);
        if r[k] != x {
          assert r[k] in multiset(t);
          var m :| 0 <= m < |t| && t[m] == r[k];
          assert t[m] == s[m + 1];
        }
      }
    }
  }

  lemma {:induction false} SortSorted<T(!new)>(s: seq<T>, lt: (T, T) -> bool)
    requires StrictWeakOrder(lt)
    ensures SortedBy(Sort(s, lt), lt)
  {
    if s != [] {
      SortSorted(s[1..], lt);
      InsertSorted(s[0], Sort(s[1..], lt), lt);
    }
  }

  /** Two sorted arrangements of one multiset start with the same element. */
  lemma SortedHeadsAgree<T(!new)>(a: seq<T>, b: seq<T>, lt: (T, T) -> bool)
    requires StrictTotalOrder(lt)
    requires SortedBy(a, lt) && SortedBy(b, lt)
    requires multiset(a) == multiset(b) && a != [] && b != []
    ensures a[0] == b[0]
  {
    assert a[0] in multiset(b);
    var k :| 0 <= k < |b| && b[k] == a[0];
    assert b[0] in multiset(a);
    var m :| 0 <= m < |a| && a[m] == b[0];
    assert !lt(b[0], a[0]) by { assert m == 0 || !lt(a[m], a[0]); }
    assert !lt(a[0], b[0]) by { assert k == 0 || !lt(b[k], b[0]); }
  }

  /** Under a total order there is exactly one sorted arrangement of a
      multiset: the result of sorting never depends on the input order. */
  lemma {:induction false} SortedUnique<T(!new)>(a: seq<T>, b: seq<T>, lt: (T, T) -> bool)
    requires StrictTotalOrder(lt)
    requires SortedBy(a, lt) && SortedBy(b, lt)
    requires multiset(a) == multiset(b)
    ensures a == b
  {
    assert |a| == |multiset(a)| == |multiset(b)| == |b|;
    if a != [] {
      SortedHeadsAgree(a, b, lt);
      assert a == [a[0]] + a[1..] && b == [b[0]] + b[1..];
      assert multiset(a[1..]) == multiset(a) - multiset{a[0]};
      assert multiset(b[1..]) == multiset(b) - multiset{b[0]};
      SortedUnique(a[1..], b[1..], lt);
    }
  }

  /** Sorting equal multisets gives equal sequences. */
  lemma SortDependsOnlyOnMultiset<T(!new)>(a: seq<T>, b: seq<T>, lt: (T, T) -> bool)
    requires StrictTotalOrder(lt)
    requires multiset(a) == multiset(b)
    ensures Sort(a, lt) == Sort(b, lt)
  {
    SortSorted(a, lt);
    SortSorted(b, lt);
    SortedUnique(Sort(a, lt), Sort(b, lt), lt);
  }
}
