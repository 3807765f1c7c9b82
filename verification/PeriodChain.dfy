/** The billing periods of a locally managed subscription: a zero-price plan whose next period is opened
    by settling the one before. How long a period is enters only as the function periodAfter. */
module PeriodChain {
  import opened Common
  import opened BillingTypes
  import opened BillingDb
  import opened Settlement
  import opened OverageCollection
  import UsageIndex
  import Metering

  /** chain lists the subscription's own invoices in order; settled[i] is what link i was settled for. */
  datatype State = State(db: Db, chain: seq<Id>, settled: seq<Settled>)

  predicate RowOf(db: Db, s: Id, id: Id) {
    id in db.invoices && db.invoices[id].subscriptionId == s && db.invoices[id].kind == SUBSCRIPTION
  }

  ghost predicate IsLink(db: Db, s: Id, id: Id) {
    RowOf(db, s, id) && db.invoices[id].status == PAID && db.invoices[id].provider == STRIPE
  }

  /** The chain is all of the subscription's own invoices, each once. */
  ghost predicate Links(db: Db, s: Id, chain: seq<Id>) {
    && chain != []
    && (forall i :: 0 <= i < |chain| ==> IsLink(db, s, chain[i]))
    && (forall i, j :: 0 <= i < j < |chain| ==> chain[i] != chain[j])
    && (forall id :: RowOf(db, s, id) ==> id in chain)
  }

  /** The first n links are settled, the others not. */
  ghost predicate SettledUpTo(db: Db, chain: seq<Id>, n: int)
    requires forall i :: 0 <= i < |chain| ==> chain[i] in db.invoices
  {
    forall i :: 0 <= i < |chain| ==> (db.invoices[chain[i]].overageProcessedAt.Some? <==> i < n)
  }

  /** Each period starts where the one before ended, and ends one period later. */
  ghost predicate Tiles(db: Db, chain: seq<Id>, periodAfter: int -> int)
    requires forall i :: 0 <= i < |chain| ==> chain[i] in db.invoices
  {
    && (forall i :: 0 <= i < |chain| ==> db.invoices[chain[i]].periodStart < db.invoices[chain[i]].periodEnd)
    && (forall i :: 0 < i < |chain| ==>
          && db.invoices[chain[i]].periodStart == db.invoices[chain[i - 1]].periodEnd
          && db.invoices[chain[i]].periodEnd == periodAfter(db.invoices[chain[i - 1]].periodEnd))
  }

  ghost predicate Increasing(periodAfter: int -> int) { forall t :: t < periodAfter(t) }

  /** Link i has an overage invoice exactly when it was settled for a positive amount, and then the
      invoice carries that settlement and the link's period. */
  ghost predicate OverageSettled(db: Db, chain: seq<Id>, settled: seq<Settled>, i: nat)
    requires i < |chain| && chain[i] in db.invoices
  {
    var source := db.invoices[chain[i]];
    && (HasOverageInvoice(db, chain[i]) <==> i < |settled| && settled[i].amountCents > 0)
    && (i < |settled| ==> forall id :: id in db.invoices && db.invoices[id].overageSourceInvoiceId == Some(chain[i]) ==>
          var row := db.invoices[id];
          && row.kind == OVERAGE && row.subscriptionId == source.subscriptionId
          && row.periodStart == source.periodStart && row.periodEnd == source.periodEnd
          && row.overageRequests == Some(settled[i].overageRequests)
             && row.overageUnits == Some(settled[i].overageUnits)
          && row.amountCents == settled[i].amountCents)
  }

  ghost predicate Inv(st: State, s: Id, plan: Plan, periodAfter: int -> int) {
    var db, chain, settled := st.db, st.chain, st.settled;
    && Valid(db)
    && s in db.subscriptions && IsLocallyManaged(db.subscriptions[s]) && db.subscriptions[s].plan == plan
    && Links(db, s, chain)
    && |chain| - 1 <= |settled| <= |chain|
    && SettledUpTo(db, chain, |settled|)
    && Tiles(db, chain, periodAfter)
    && (forall i :: 0 <= i < |chain| ==> OverageSettled(db, chain, settled, i))
  }

  predicate Renews(sub: Subscription) { IsLocallyManaged(sub) && !sub.cancelAtPeriodEnd && sub.status != CANCELED }

  /** Settling a period leaves a locally managed subscription serving the next one throughout exactly when it renews;
      if it does not, it serves nothing at all. Other subscriptions are not touched. */
  lemma RenewalContinuesService(db: Db, row: Invoice, nextEnd: int, t: int)
    requires row.subscriptionId in db.subscriptions && IsLocallyManaged(db.subscriptions[row.subscriptionId])
    ensures var s := row.subscriptionId;
            var after := Renewed(db, row, nextEnd).subscriptions;
            && after.Keys == db.subscriptions.Keys
            && (Metering.Serves(after[s], t) <==> Renews(db.subscriptions[s]) && row.periodEnd <= t < nextEnd)
            && (forall k :: k in db.subscriptions && k != s ==> after[k] == db.subscriptions[k])
  {
  }

  /** The id a renewal's invoice gets: the next one, or the one after if an overage invoice took that. */
  function RenewalId(db: Db, id: Id, settled: Settled): Id {
    if settled.amountCents > 0 && !HasOverageInvoice(db, id) then db.nextInvoiceId + 1 else db.nextInvoiceId
  }

  /** Exactly what settling writes. */
  ghost predicate Writes(db: Db, after: Db, id: Id, settled: Settled, nextEnd: int, processedAt: int)
    requires id in db.invoices && db.invoices[id].subscriptionId in db.subscriptions
  {
    var row := db.invoices[id];
    var s := row.subscriptionId;
    var sub := db.subscriptions[s];
    var n, m := db.nextInvoiceId, RenewalId(db, id, settled);
    && n !in db.invoices && m !in db.invoices
    && after.invoices.Keys == db.invoices.Keys + (if n != m then {n} else {}) + (if Renews(sub) then {m} else {})
    && after.invoices[id] == row.(overageProcessedAt := Some(processedAt))
    && (forall other :: other in db.invoices && other != id ==> after.invoices[other] == db.invoices[other])
    && (n != m ==> after.invoices[n] == OverageInvoice(id, row, settled))
    && (Renews(sub) ==> after.invoices[m] == NextInvoice(row, sub.plan, nextEnd))
    && after.subscriptions.Keys == db.subscriptions.Keys
    && (forall other :: other in db.subscriptions && other != s ==>
       after.subscriptions[other] == db.subscriptions[other])
    && after.subscriptions[s] ==
         (if !IsLocallyManaged(sub) then sub
          else if sub.cancelAtPeriodEnd then CanceledSubscription(sub)
          else if sub.status == CANCELED then sub
          else RenewedSubscription(sub, row.periodEnd, nextEnd))
  }

  lemma ChargedInvoices(db: Db, id: Id, row: Invoice, settled: Settled)
    requires Valid(db)
    ensures var n, m := db.nextInvoiceId, RenewalId(db, id, settled);
            Charged(db, id, row, settled)
            == Db(if n != m then db.invoices[n := OverageInvoice(id, row, settled)]
                else db.invoices, db.subscriptions, m)
  {
  }

  lemma RenewedTables(db: Db, row: Invoice, nextEnd: int)
    requires row.subscriptionId in db.subscriptions
    ensures var sub, after := db.subscriptions[row.subscriptionId], Renewed(db, row, nextEnd);
            && after.invoices
               == (if Renews(sub) then db.invoices[db.nextInvoiceId := NextInvoice(row, sub.plan, nextEnd)]
               else db.invoices)
            && after.subscriptions == db.subscriptions[row.subscriptionId :=
                 if !IsLocallyManaged(sub) then sub
                 else if sub.cancelAtPeriodEnd then CanceledSubscription(sub)
                 else if sub.status == CANCELED then sub
                 else RenewedSubscription(sub, row.periodEnd, nextEnd)]
  {
  }

  lemma WritesInTurn(
    db: Db, charged: Db, renewed: Db, after: Db, id: Id, settled: Settled, nextEnd: int, processedAt: int)
    requires id in db.invoices && db.invoices[id].subscriptionId in db.subscriptions
    requires forall k :: k in db.invoices ==> k < db.nextInvoiceId
    requires var n, m := db.nextInvoiceId, RenewalId(db, id, settled);
             charged == Db(if n != m then db.invoices[n := OverageInvoice(id, db.invoices[id], settled)]
                 else db.invoices, db.subscriptions, m)
    requires var row, sub := db.invoices[id], db.subscriptions[db.invoices[id].subscriptionId];
             renewed.invoices == if Renews(sub)
                 then charged.invoices[charged.nextInvoiceId := NextInvoice(row, sub.plan, nextEnd)]
                 else charged.invoices
    requires var row, sub := db.invoices[id], db.subscriptions[db.invoices[id].subscriptionId];
             renewed.subscriptions == db.subscriptions[row.subscriptionId :=
                 if !IsLocallyManaged(sub) then sub
                 else if sub.cancelAtPeriodEnd then CanceledSubscription(sub)
                 else if sub.status == CANCELED then sub
                 else RenewedSubscription(sub, row.periodEnd, nextEnd)]
    requires after.subscriptions == renewed.subscriptions
    requires after.invoices == renewed.invoices[id := db.invoices[id].(overageProcessedAt := Some(processedAt))]
    ensures Writes(db, after, id, settled, nextEnd, processedAt)
  {
  }

  lemma MaterializedWrites(db: Db, id: Id, settled: Settled, nextEnd: int, processedAt: int)
    requires Valid(db) && id in db.invoices
    ensures Writes(db, Materialized(db, id, settled, nextEnd, processedAt), id, settled, nextEnd, processedAt)
  {
    var row := db.invoices[id];
    assert Refers(db, row);
    var charged := Charged(db, id, row, settled);
    var renewed := Renewed(charged, row, nextEnd);
    ChargedInvoices(db, id, row, settled);
    RenewedTables(charged, row, nextEnd);
    WritesInTurn(db, charged, renewed, Materialized(db, id, settled, nextEnd, processedAt), id, settled, nextEnd,
        processedAt);
  }

  lemma MaterializedIfDueWrites(db: Db, records: seq<UsageIndex.UsageRecord>, id: Id, at: int)
    requires Valid(db) && ValidPlans(db) && Settles(db, id)
    ensures db.invoices[id].subscriptionId in db.subscriptions
    ensures Writes(db, MaterializedIfDue(db, records, id, at).0, id, SettlementOf(db, records, id),
                   AddPlanPeriod(db.invoices[id].periodEnd), at)
  {
    assert Refers(db, db.invoices[id]);
    MaterializedWrites(db, id, SettlementOf(db, records, id), AddPlanPeriod(db.invoices[id].periodEnd), at);
  }

  // ---------------------------------------------------------------- settling the last link

  /** Settling the last link of a chain, which extends the chain if the subscription renews. */
  ghost predicate SettlesLast(st: State, after: State, s: Id, settled: Settled, nextEnd: int, processedAt: int)
    requires Links(st.db, s, st.chain)
  {
    var id := st.chain[|st.chain| - 1];
    && s in st.db.subscriptions && IsLocallyManaged(st.db.subscriptions[s])
    && IsLink(st.db, s, id)
    && |st.settled| == |st.chain| - 1
    && Writes(st.db, after.db, id, settled, nextEnd, processedAt)
    && after.chain == (if Renews(st.db.subscriptions[s]) then st.chain + [RenewalId(st.db, id, settled)] else st.chain)
    && after.settled == st.settled + [settled]
  }

  lemma SettledLinks(st: State, after: State, s: Id, settled: Settled, nextEnd: int, at: int)
    requires Links(st.db, s, st.chain) && SettlesLast(st, after, s, settled, nextEnd, at)
    ensures Links(after.db, s, after.chain)
  {
    var n := |st.chain|;
    forall i | 0 <= i < n
      ensures IsLink(after.db, s, st.chain[i])
    {
      assert IsLink(st.db, s, st.chain[i]);
    }
    forall k | RowOf(after.db, s, k)
      ensures k in after.chain
    {
      if k in st.db.invoices {
        assert RowOf(st.db, s, k);
        assert k in st.chain;
      } else {
        assert k == after.chain[n];
      }
    }
  }

  lemma LinkRows(st: State, after: State, s: Id, settled: Settled, nextEnd: int, at: int, i: nat)
    requires Links(st.db, s, st.chain) && SettlesLast(st, after, s, settled, nextEnd, at)
    requires i < |st.chain|
    ensures st.chain[i] in st.db.invoices && st.chain[i] in after.db.invoices
    ensures after.db.invoices[st.chain[i]] ==
            if i == |st.chain| - 1 then st.db.invoices[st.chain[i]].(overageProcessedAt := Some(at))
                else st.db.invoices[st.chain[i]]
  {
    assert IsLink(st.db, s, st.chain[i]);
  }

  /** The links there were, as the chain's periods see them. */
  ghost predicate SamePeriods(st: State, after: State) {
    forall i :: 0 <= i < |st.chain| ==>
      && st.chain[i] in st.db.invoices && st.chain[i] in after.db.invoices
      && after.db.invoices[st.chain[i]].periodStart == st.db.invoices[st.chain[i]].periodStart
      && after.db.invoices[st.chain[i]].periodEnd == st.db.invoices[st.chain[i]].periodEnd
      && after.db.invoices[st.chain[i]].overageProcessedAt.Some?
  }

  lemma SettledLinksKeepPeriods(st: State, after: State, s: Id, settled: Settled, nextEnd: int, at: int)
    requires Links(st.db, s, st.chain) && SettledUpTo(st.db, st.chain, |st.settled|)
    requires SettlesLast(st, after, s, settled, nextEnd, at)
    ensures SamePeriods(st, after)
  {
    forall i | 0 <= i < |st.chain|
      ensures st.chain[i] in st.db.invoices && st.chain[i] in after.db.invoices
      ensures after.db.invoices[st.chain[i]].periodStart == st.db.invoices[st.chain[i]].periodStart
      ensures after.db.invoices[st.chain[i]].periodEnd == st.db.invoices[st.chain[i]].periodEnd
      ensures after.db.invoices[st.chain[i]].overageProcessedAt.Some?
    {
      LinkRows(st, after, s, settled, nextEnd, at, i);
    }
  }

  lemma ExtendedTiles(st: State, after: State, periodAfter: int -> int, next: seq<Id>)
    requires st.chain != [] && SamePeriods(st, after) && Tiles(st.db, st.chain, periodAfter) && Increasing(periodAfter)
    requires after.chain == st.chain + next && |next| <= 1
    requires forall i :: 0 <= i < |after.chain| ==> after.chain[i] in after.db.invoices
    requires next != [] ==>
               var last, row := st.db.invoices[st.chain[|st.chain| - 1]], after.db.invoices[after.chain[|st.chain|]];
               row.periodStart == last.periodEnd && row.periodEnd == periodAfter(last.periodEnd)
    ensures Tiles(after.db, after.chain, periodAfter)
  {
  }

  lemma SettledTiles(st: State, after: State, s: Id, settled: Settled, periodAfter: int -> int, at: int)
    requires Links(st.db, s, st.chain) && Tiles(st.db, st.chain, periodAfter) && Increasing(periodAfter)
    requires SettledUpTo(st.db, st.chain, |st.settled|)
    requires SettlesLast(st, after, s, settled, periodAfter(st.db.invoices[st.chain[|st.chain| - 1]].periodEnd), at)
    requires Links(after.db, s, after.chain)
    ensures Tiles(after.db, after.chain, periodAfter) && SettledUpTo(after.db, after.chain, |after.settled|)
  {
    SettledLinksKeepPeriods(st, after, s, settled, periodAfter(st.db.invoices[st.chain[|st.chain| - 1]].periodEnd), at);
    ExtendedTiles(st, after, periodAfter, after.chain[|st.chain|..]);
  }

  /** Invoices of the state before keep their source; the only new one with a source is the one charged. */
  lemma SourcesAfter(db: Db, after: Db, id: Id, settled: Settled, nextEnd: int, at: int, k: Id)
    requires Valid(db) && id in db.invoices && db.invoices[id].subscriptionId in db.subscriptions
    requires Writes(db, after, id, settled, nextEnd, at) && k in after.invoices
    ensures k in db.invoices ==>
              after.invoices[k] == db.invoices[k].(overageProcessedAt := after.invoices[k].overageProcessedAt)
    ensures k !in db.invoices && after.invoices[k].overageSourceInvoiceId.Some? ==>
              k == db.nextInvoiceId != RenewalId(db, id, settled)
                  && after.invoices[k] == OverageInvoice(id, db.invoices[id], settled)
  {
  }

  lemma OverageOfSettled(st: State, after: State, s: Id, settled: Settled, nextEnd: int, at: int)
    requires Valid(st.db) && Links(st.db, s, st.chain) && Links(after.db, s, after.chain)
    requires SettlesLast(st, after, s, settled, nextEnd, at)
    requires OverageSettled(st.db, st.chain, st.settled, |st.settled|)
    ensures OverageSettled(after.db, after.chain, after.settled, |st.settled|)
  {
    var id := st.chain[|st.chain| - 1];
    forall k | k in after.db.invoices && after.db.invoices[k].overageSourceInvoiceId == Some(id)
      ensures k == st.db.nextInvoiceId && settled.amountCents > 0
      ensures after.db.invoices[k] == OverageInvoice(id, st.db.invoices[id], settled)
    {
      SourcesAfter(st.db, after.db, id, settled, nextEnd, at, k);
    }
    if settled.amountCents > 0 {
      assert after.db.invoices[st.db.nextInvoiceId].overageSourceInvoiceId == Some(id);
    }
  }

  lemma OverageOfOthers(st: State, after: State, s: Id, settled: Settled, nextEnd: int, at: int, i: nat)
    requires Valid(st.db) && Links(st.db, s, st.chain) && Links(after.db, s, after.chain)
    requires SettlesLast(st, after, s, settled, nextEnd, at)
    requires i < |after.chain| && i != |st.settled|
    requires i < |st.chain| ==> OverageSettled(st.db, st.chain, st.settled, i)
    ensures OverageSettled(after.db, after.chain, after.settled, i)
  {
    var id, link := st.chain[|st.chain| - 1], after.chain[i];
    forall k | k in after.db.invoices && after.db.invoices[k].overageSourceInvoiceId == Some(link)
      ensures i < |st.chain| && k in st.db.invoices && st.db.invoices[k].overageSourceInvoiceId == Some(link)
      ensures after.db.invoices[k] == st.db.invoices[k].(overageProcessedAt := after.db.invoices[k].overageProcessedAt)
    {
      SourcesAfter(st.db, after.db, id, settled, nextEnd, at, k);
      if k in st.db.invoices {
        assert Refers(st.db, st.db.invoices[k]);
      }
    }
    if i < |st.chain| {
      LinkRows(st, after, s, settled, nextEnd, at, i);
      if HasOverageInvoice(st.db, link) {
        var k :| k in st.db.invoices && st.db.invoices[k].overageSourceInvoiceId == Some(link);
        assert k in after.db.invoices;
        SourcesAfter(st.db, after.db, id, settled, nextEnd, at, k);
      }
    }
  }

  lemma SettlingLastKeepsInv(
    st: State, after: State, s: Id, plan: Plan, settled: Settled, periodAfter: int -> int, at: int)
    requires Inv(st, s, plan, periodAfter) && Valid(after.db) && Increasing(periodAfter)
    requires SettlesLast(st, after, s, settled, periodAfter(st.db.invoices[st.chain[|st.chain| - 1]].periodEnd), at)
    ensures Inv(after, s, plan, periodAfter)
  {
    var nextEnd := periodAfter(st.db.invoices[st.chain[|st.chain| - 1]].periodEnd);
    SettledLinks(st, after, s, settled, nextEnd, at);
    SettledTiles(st, after, s, settled, periodAfter, at);
    forall i | 0 <= i < |after.chain|
      ensures OverageSettled(after.db, after.chain, after.settled, i)
    {
      if i < |st.chain| {
        assert OverageSettled(st.db, st.chain, st.settled, i);
      }
      if i == |st.settled| {
        OverageOfSettled(st, after, s, settled, nextEnd, at);
      } else {
        OverageOfOthers(st, after, s, settled, nextEnd, at, i);
      }
    }
  }
}
