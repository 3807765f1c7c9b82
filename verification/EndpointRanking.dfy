/** The order of the endpoint breakdown: larger counts first, then endpoints in collation order.
    A collation is a real-valued key per string: comparing keys gives every total preorder of the
    strings there is, localeCompare's among them, ties included. */
module EndpointRanking {
  import opened CounterTable
  import opened StableSort

  type Item = Row<string>

  predicate RanksBefore(a: Item, b: Item, collate: string -> real) {
    a.requestCount > b.requestCount || (a.requestCount == b.requestCount && collate(a.key) < collate(b.key))
  }

  function Ranking(collate: string -> real): (Item, Item) -> bool {
    (a: Item, b: Item) => RanksBefore(a, b, collate)
  }

  /** items is the first k of the endpoints with a positive total, best ranked first, each with its total. */
  ghost predicate IsTop(items: seq<Item>, total: string -> int, k: nat, collate: string -> real) {
    && |items| <= k
    && UniqueKeys(items)
    && (forall i :: 0 <= i < |items| ==> items[i].requestCount == total(items[i].key) && items[i].requestCount >= 1)
    && Sorted(items, Ranking(collate))
    && (forall e :: total(e) >= 1 && !HasKey(items, e) ==>
          && |items| == k
          && forall i :: 0 <= i < |items| ==> !RanksBefore(Row(e, total(e)), items[i], collate))
  }

  lemma RankingIsOrder(collate: string -> real)
    ensures StrictWeakOrder(Ranking(collate))
  {
  }

  lemma {:induction false} InsertKeepsKeysUnique(x: Item, s: seq<Item>, before: (Item, Item) -> bool)
    requires UniqueKeys(s) && !HasKey(s, x.key)
    ensures UniqueKeys(Insert(x, s, before))
  {
    if !(s == [] || !before(s[0], x)) {
      forall i | 0 <= i < |s[1..]|
        ensures s[1..][i].key != x.key
      {
        assert s[i + 1].key != x.key;
      }
      InsertKeepsKeysUnique(x, s[1..], before);
      InsertElements(x, s[1..], before);
      var rest := Insert(x, s[1..], before);
      forall i | 0 <= i < |rest|
        ensures rest[i].key != s[0].key
      {
        assert rest[i] in rest;
        assert s[0].key != x.key;
      }
    }
  }

  lemma {:induction false} SortKeepsKeysUnique(s: seq<Item>, before: (Item, Item) -> bool)
    requires UniqueKeys(s)
    ensures UniqueKeys(Sort(s, before))
  {
    if s != [] {
      SortKeepsKeysUnique(s[1..], before);
      SortElements(s[1..], before);
      var rest := Sort(s[1..], before);
      forall i | 0 <= i < |rest|
        ensures rest[i].key != s[0].key
      {
        assert rest[i] in rest;
        var j :| 0 <= j < |s[1..]| && s[1..][j] == rest[i];
      }
      InsertKeepsKeysUnique(s[0], rest, before);
    }
  }

  lemma LeftOutRanksAfter(sorted: seq<Item>, n: nat, item: Item, collate: string -> real)
    requires Sorted(sorted, Ranking(collate)) && n <= |sorted|
    requires item in sorted && !HasKey(sorted[..n], item.key)
    ensures n < |sorted|
    ensures forall i :: 0 <= i < n ==> !RanksBefore(item, sorted[i], collate)
  {
    var p :| 0 <= p < |sorted| && sorted[p] == item;
    assert p >= n by {
      assert forall i :: 0 <= i < n ==> sorted[..n][i].key != item.key;
    }
    forall i | 0 <= i < n
      ensures !RanksBefore(item, sorted[i], collate)
    {
      assert !Ranking(collate)(sorted[p], sorted[i]);
    }
  }

  /** Sorting all totals and keeping the first k gives the top k. */
  lemma SortedPrefixIsTop(all: seq<Item>, total: string -> int, k: nat, collate: string -> real)
    requires UniqueKeys(all) && Positive(all)
    requires forall item :: item in all ==> item.requestCount == total(item.key)
    requires forall e :: total(e) >= 1 ==> HasKey(all, e)
    ensures var sorted := Sort(all, Ranking(collate));
            IsTop(sorted[..if |sorted| < k then |sorted| else k], total, k, collate)
  {
    RankingIsOrder(collate);
    SortSorts(all, Ranking(collate));
    SortKeepsKeysUnique(all, Ranking(collate));
    SortElements(all, Ranking(collate));
    PrefixOfSortedIsTop(all, Sort(all, Ranking(collate)), total, k, collate);
  }

  lemma PrefixOfSortedIsTop(all: seq<Item>, sorted: seq<Item>, total: string -> int, k: nat, collate: string -> real)
    requires Positive(all) && UniqueKeys(sorted) && Sorted(sorted, Ranking(collate))
    requires forall item :: item in sorted <==> item in all
    requires forall item :: item in all ==> item.requestCount == total(item.key)
    requires forall e :: total(e) >= 1 ==> HasKey(all, e)
    ensures IsTop(sorted[..if |sorted| < k then |sorted| else k], total, k, collate)
  {
    var n := if |sorted| < k then |sorted| else k;
    forall i | 0 <= i < n
      ensures sorted[i].requestCount == total(sorted[i].key) && sorted[i].requestCount >= 1
    {
      assert sorted[i] in all;
    }
    forall e | total(e) >= 1 && !HasKey(sorted[..n], e)
      ensures n == k
      ensures forall i :: 0 <= i < n ==> !RanksBefore(Row(e, total(e)), sorted[..n][i], collate)
    {
      var j :| 0 <= j < |all| && all[j].key == e;
      assert all[j] in all;
      assert all[j] == Row(e, total(e));
      LeftOutRanksAfter(sorted, n, all[j], collate);
    }
  }

  /** When no two strings collate equal, the totals leave no choice: there is one top k. */
  lemma TopIsUnique(a: seq<Item>, b: seq<Item>, total: string -> int, k: nat, collate: string -> real)
    requires IsTop(a, total, k, collate) && IsTop(b, total, k, collate)
    requires forall x, y :: collate(x) == collate(y) ==> x == y
    ensures a == b
  {
    var n := if |a| < |b| then |a| else |b|;
    TopsAgree(a, b, total, k, collate, n);
    assert a[..n] == b[..n];
    NoneFollows(a, b, total, k, collate);
    NoneFollows(b, a, total, k, collate);
  }

  lemma {:induction false} TopsAgree(
    a: seq<Item>, b: seq<Item>, total: string -> int, k: nat, collate: string -> real, n: nat)
    requires IsTop(a, total, k, collate) && IsTop(b, total, k, collate)
    requires forall x, y :: collate(x) == collate(y) ==> x == y
    requires n <= |a| && n <= |b|
    ensures a[..n] == b[..n]
  {
    if n > 0 {
      TopsAgree(a, b, total, k, collate, n - 1);
      TopsAgreeNext(a, b, total, k, collate, n - 1);
      assert a[..n] == a[..n - 1] + [a[n - 1]] && b[..n] == b[..n - 1] + [b[n - 1]];
    }
  }

  lemma TopsAgreeNext(a: seq<Item>, b: seq<Item>, total: string -> int, k: nat, collate: string -> real, n: nat)
    requires IsTop(a, total, k, collate) && IsTop(b, total, k, collate)
    requires forall x, y :: collate(x) == collate(y) ==> x == y
    requires n < |a| && n < |b|
    requires a[..n] == b[..n]
    ensures a[n] == b[n]
  {
    NotRankedBefore(a, b, total, k, collate, n);
    NotRankedBefore(b, a, total, k, collate, n);
    assert a[n].requestCount == b[n].requestCount;
    assert a[n].key == b[n].key;
  }

  lemma NotRankedBefore(a: seq<Item>, b: seq<Item>, total: string -> int, k: nat, collate: string -> real, n: nat)
    requires IsTop(a, total, k, collate) && IsTop(b, total, k, collate)
    requires n < |a| && n < |b|
    requires a[..n] == b[..n]
    ensures !RanksBefore(a[n], b[n], collate)
  {
    var e := a[n].key;
    assert a[n] == Row(e, total(e));
    if HasKey(b, e) {
      var p :| 0 <= p < |b| && b[p].key == e;
      assert p >= n by {
        assert forall i :: 0 <= i < n ==> b[i] == a[..n][i] && b[i].key != e;
      }
      assert b[p] == a[n];
      if p > n {
        assert !Ranking(collate)(b[p], b[n]);
      }
    }
  }

  lemma NoneFollows(a: seq<Item>, b: seq<Item>, total: string -> int, k: nat, collate: string -> real)
    requires IsTop(a, total, k, collate) && IsTop(b, total, k, collate)
    requires |a| <= |b| ==> a == b[..|a|]
    ensures |b| <= |a|
  {
    if |a| < |b| {
      var e := b[|a|].key;
      assert total(e) >= 1;
      assert forall i :: 0 <= i < |a| ==> a[i] == b[i] && a[i].key != e;
    }
  }
}
