/** findMany over the invoice table: the ids a where clause keeps, ordered and limited. Ids are given out
    in order of creation. */
module InvoiceQuery {
  import opened BillingTypes
  import opened StableSort

  /** The ids below n that the clause keeps */
  function IdsWhere(keep: Id -> bool, n: nat): seq<Id> {
    if n == 0 then [] else IdsWhere(keep, n - 1) + if keep(n - 1) then [n - 1] else []
  }

  lemma {:induction false} IdsWhereFinds(keep: Id -> bool, n: nat)
    ensures forall id: Id :: id in IdsWhere(keep, n) <==> id < n && keep(id)
    ensures Distinct(IdsWhere(keep, n))
  {
    if n > 0 {
      IdsWhereFinds(keep, n - 1);
    }
  }

  function FindFirst(keep: Id -> bool, n: nat, before: (Id, Id) -> bool, take: nat): seq<Id> {
    SortedFirst(IdsWhere(keep, n), before, take)
  }

  /** Every id found is kept by the clause, none is found twice, and when fewer than the limit are found,
      none is missed. */
  lemma FoundAreDue(keep: Id -> bool, n: nat, before: (Id, Id) -> bool, take: nat)
    ensures var found := FindFirst(keep, n, before, take);
            && |found| <= take && Distinct(found)
            && (forall id: Id :: id in found ==> id < n && keep(id))
            && (|found| < take ==> forall id: Id :: id < n && keep(id) ==> id in found)
  {
    var all := IdsWhere(keep, n);
    IdsWhereFinds(keep, n);
    SortKeepsDistinct(all, before);
    SortElements(all, before);
    var sorted, found := Sort(all, before), FindFirst(keep, n, before, take);
    forall id: Id | id in found
      ensures id < n && keep(id)
    {
      assert id in sorted;
    }
    if |found| < take {
      assert found == sorted;
    }
  }

  /** An id that was left out comes no earlier than any that was found. */
  lemma FoundAreFirst(keep: Id -> bool, n: nat, before: (Id, Id) -> bool, take: nat, id: Id, other: Id)
    requires StrictWeakOrder(before)
    requires id < n && keep(id) && id !in FindFirst(keep, n, before, take) && other in FindFirst(keep, n, before, take)
    ensures !before(id, other)
  {
    IdsWhereFinds(keep, n);
    SortedFirstIsBest(IdsWhere(keep, n), before, take);
  }
}
