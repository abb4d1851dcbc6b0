/** Swift's `String` ordering, used by `sorted()` on room and user names,
    modelled as the lexicographic order on character codes. */
module StringOrder {

  import opened Sorting

  /** `a < b` on strings: the first differing character decides, and a proper
      prefix comes first. */
  predicate StringLess(a: string, b: string)
    decreases |a|
  {
    if |b| == 0 then false
    else if |a| == 0 then true
    else if a[0] != b[0] then a[0] < b[0]
    else StringLess(a[1..], b[1..])
  }

  lemma {:induction false} StringLessIrreflexive(a: string)
    ensures !StringLess(a, a)
    decreases |a|
  {
    if |a| > 0 {
      StringLessIrreflexive(a[1..]);
    }
  }

  lemma {:induction false} StringLessTransitive(a: string, b: string, c: string)
    requires StringLess(a, b) && StringLess(b, c)
    ensures StringLess(a, c)
    decreases |a|
  {
    if |a| > 0 && a[0] == b[0] && b[0] == c[0] {
      StringLessTransitive(a[1..], b[1..], c[1..]);
    }
  }

  lemma {:induction false} StringLessTotal(a: string, b: string)
    requires a != b
    ensures StringLess(a, b) || StringLess(b, a)
    decreases |a|
  {
    if |a| > 0 && |b| > 0 && a[0] == b[0] {
      assert a == [a[0]] + a[1..] && b == [b[0]] + b[1..];
      StringLessTotal(a[1..], b[1..]);
    }
  }

  lemma {:induction false} StringLessAsymmetric(a: string, b: string)
    requires StringLess(a, b)
    ensures !StringLess(b, a)
  {
    if StringLess(b, a) {
      StringLessTransitive(a, b, a);
      StringLessIrreflexive(a);
    }
  }

  /** The string order meets what `sorted()` needs, and more: it is total. */
  lemma StringLessIsStrictTotal()
    ensures StrictTotalOrder(StringLess)
  {
    forall a, b | StringLess(a, b) ensures !StringLess(b, a) {
      StringLessAsymmetric(a, b);
    }
    forall a, b, c | !StringLess(a, b) && !StringLess(b, c) ensures !StringLess(a, c) {
      if StringLess(a, c) {
        if a == b {
        } else if b == c {
        } else {
          StringLessTotal(a, b);
          StringLessTotal(b, c);
          StringLessTransitive(b, a, c);
        }
      }
    }
    forall a, b | a != b ensures StringLess(a, b) || StringLess(b, a) {
      StringLessTotal(a, b);
    }
  }

  /** `names.sorted()`: the same names, in ascending order. */
  function SortNames(names: seq<string>): (r: seq<string>)
    ensures SortedBy(r, StringLess)
    ensures multiset(r) == multiset(names)
  {
    StringLessIsStrictTotal();
    SortSorted(names, StringLess);
    Sort(names, StringLess)
  }

  /** Two name lists holding the same names (with multiplicity) sort to the
      same list, so the order in which they were gathered does not matter. */
  lemma SortNamesIgnoresOrder(a: seq<string>, b: seq<string>)
    requires multiset(a) == multiset(b)
    ensures SortNames(a) == SortNames(b)
  {
    StringLessIsStrictTotal();
    SortedUnique(SortNames(a), SortNames(b), StringLess);
  }
}
