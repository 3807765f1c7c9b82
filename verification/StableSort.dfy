/** Stable sorting by a comparator, as Array.prototype.sort and ORDER BY are used in the services. */
module StableSort {
  /** "before" is what a consistent comparator's "negative" means: ties are allowed, cycles are not. */
  ghost predicate StrictWeakOrder<T(!new)>(before: (T, T) -> bool) {
    && (forall x, y :: before(x, y) ==> !before(y, x))
    && (forall x, y, z :: before(x, z) ==> before(x, y) || before(y, z))
  }

  ghost predicate Sorted<T>(s: seq<T>, before: (T, T) -> bool) {
    forall i, j :: 0 <= i < j < |s| ==> !before(s[j], s[i])
  }

  function Insert<T>(x: T, s: seq<T>, before: (T, T) -> bool): seq<T> {
    if s == [] || !before(s[0], x) then [x] + s else [s[0]] + Insert(x, s[1..], before)
  }

  function Sort<T>(s: seq<T>, before: (T, T) -> bool): seq<T> {
    if s == [] then [] else Insert(s[0], Sort(s[1..], before), before)
  }

  lemma {:induction false} InsertPermutes<T>(x: T, s: seq<T>, before: (T, T) -> bool)
    ensures multiset(Insert(x, s, before)) == multiset(s) + multiset{x}
  {
    if !(s == [] || !before(s[0], x)) {
      InsertPermutes(x, s[1..], before);
      assert s == [s[0]] + s[1..];
    }
  }

  lemma InsertElements<T>(x: T, s: seq<T>, before: (T, T) -> bool)
    ensures forall y :: y in Insert(x, s, before) <==> y == x || y in s
  {
    InsertPermutes(x, s, before);
    forall y
      ensures y in Insert(x, s, before) <==> y == x || y in s
    {
      assert y in multiset(Insert(x, s, before)) <==> y in multiset(s) + multiset{x};
    }
  }

  lemma {:induction false} SortPermutes<T>(s: seq<T>, before: (T, T) -> bool)
    ensures multiset(Sort(s, before)) == multiset(s)
  {
    if s != [] {
      SortPermutes(s[1..], before);
      InsertPermutes(s[0], Sort(s[1..], before), before);
      assert s == [s[0]] + s[1..];
    }
  }

  lemma {:induction false} InsertSorts<T(!new)>(x: T, s: seq<T>, before: (T, T) -> bool)
    requires StrictWeakOrder(before) && Sorted(s, before)
    ensures Sorted(Insert(x, s, before), before)
  {
    if s == [] {
    } else if !before(s[0], x) {
      forall j | 0 <= j < |s|
        ensures !before(s[j], x)
      {
        assert j > 0 ==> !before(s[j], s[0]);
      }
    } else {
      InsertSorts(x, s[1..], before);
      var rest := Insert(x, s[1..], before);
      InsertElements(x, s[1..], before);
      forall j | 0 <= j < |rest|
        ensures !before(rest[j], s[0])
      {
        assert rest[j] in rest;
        if rest[j] != x {
          var i :| 1 <= i < |s| && s[i] == rest[j];
        }
      }
    }
  }

  lemma {:induction false} SortSorts<T(!new)>(s: seq<T>, before: (T, T) -> bool)
    requires StrictWeakOrder(before)
    ensures Sorted(Sort(s, before), before)
  {
    if s != [] {
      SortSorts(s[1..], before);
      InsertSorts(s[0], Sort(s[1..], before), before);
    }
  }

  lemma SortElements<T>(s: seq<T>, before: (T, T) -> bool)
    ensures |Sort(s, before)| == |s|
    ensures forall x :: x in Sort(s, before) <==> x in s
  {
    SortPermutes(s, before);
    assert |multiset(Sort(s, before))| == |multiset(s)|;
    forall x
      ensures x in Sort(s, before) <==> x in s
    {
      assert x in multiset(Sort(s, before)) <==> x in multiset(s);
    }
  }

  /** ORDER BY ... LIMIT k */
  function SortedFirst<T>(s: seq<T>, before: (T, T) -> bool, k: nat): seq<T> {
    var sorted := Sort(s, before);
    sorted[..if |sorted| < k then |sorted| else k]
  }

  /** The first k are k of the elements, or all of them, in order, and nothing left out comes before any of them. */
  lemma SortedFirstIsBest<T(!new)>(s: seq<T>, before: (T, T) -> bool, k: nat)
    requires StrictWeakOrder(before)
    ensures |SortedFirst(s, before, k)| == if |s| < k then |s| else k
    ensures Sorted(SortedFirst(s, before, k), before)
    ensures forall x :: x in SortedFirst(s, before, k) ==> x in s
    ensures forall x, y :: y in s && y !in SortedFirst(s, before, k) && x in SortedFirst(s, before, k) ==> !before(y, x)
  {
    SortSorts(s, before);
    SortElements(s, before);
    var sorted, first := Sort(s, before), SortedFirst(s, before, k);
    forall x | x in first
      ensures x in s
    {
      assert x in sorted;
    }
    forall x, y | y in s && y !in first && x in first
      ensures !before(y, x)
    {
      assert y in sorted;
      var p :| 0 <= p < |sorted| && sorted[p] == y;
      assert p >= |first| by {
        assert forall i :: 0 <= i < |first| ==> first[i] != y;
      }
    }
  }

  predicate Distinct<T(==)>(s: seq<T>) {
    forall i, j :: 0 <= i < j < |s| ==> s[i] != s[j]
  }

  lemma {:induction false} InsertKeepsDistinct<T>(x: T, s: seq<T>, before: (T, T) -> bool)
    requires Distinct(s) && x !in s
    ensures Distinct(Insert(x, s, before))
  {
    if !(s == [] || !before(s[0], x)) {
      InsertKeepsDistinct(x, s[1..], before);
      InsertElements(x, s[1..], before);
      var rest := Insert(x, s[1..], before);
      forall i | 0 <= i < |rest|
        ensures rest[i] != s[0]
      {
        assert rest[i] in rest;
      }
    }
  }

  lemma {:induction false} SortKeepsDistinct<T>(s: seq<T>, before: (T, T) -> bool)
    requires Distinct(s)
    ensures Distinct(Sort(s, before))
  {
    if s != [] {
      SortKeepsDistinct(s[1..], before);
      SortElements(s[1..], before);
      InsertKeepsDistinct(s[0], Sort(s[1..], before), before);
    }
  }
}
