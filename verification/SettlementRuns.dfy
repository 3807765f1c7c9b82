/** Money along the periods of a locally managed subscription: its settlements account for every request
    exactly once. */
module SettlementRuns {
  import opened Common
  import opened BillingTypes
  import opened BillingDb
  import opened Settlement
  import opened OverageCollection
  import opened PeriodChain
  import opened PeriodRuns
  import opened OverageBatch
  import UsageIndex
  import UsageStore

  // ---------------------------------------------------------------- steps only extend a chain

  /** The chain and its settlements only grow, and no link's period changes. */
  ghost predicate Extends(st: State, after: State) {
    && st.chain <= after.chain && st.settled <= after.settled
    && (forall i :: 0 <= i < |st.chain| ==>
          && st.chain[i] in st.db.invoices && st.chain[i] in after.db.invoices
          && after.db.invoices[st.chain[i]].periodStart == st.db.invoices[st.chain[i]].periodStart
          && after.db.invoices[st.chain[i]].periodEnd == st.db.invoices[st.chain[i]].periodEnd)
  }

  lemma FramedExtends(st: State, db: Db, s: Id)
    requires Framed(st, db, s)
    ensures Extends(st, st.(db := db))
  {
    forall i | 0 <= i < |st.chain|
      ensures st.chain[i] in st.db.invoices && st.chain[i] in db.invoices
      ensures SameCharge(st.db.invoices[st.chain[i]], db.invoices[st.chain[i]])
    {
      assert st.chain[i] in st.chain;
    }
  }

  lemma SettlingLastExtends(st: State, after: State, s: Id, settled: Settled, nextEnd: int, at: int)
    requires Links(st.db, s, st.chain) && SettlesLast(st, after, s, settled, nextEnd, at)
    ensures Extends(st, after)
  {
    forall i | 0 <= i < |st.chain|
      ensures st.chain[i] in st.db.invoices && st.chain[i] in after.db.invoices
      ensures after.db.invoices[st.chain[i]].periodStart == st.db.invoices[st.chain[i]].periodStart
      ensures after.db.invoices[st.chain[i]].periodEnd == st.db.invoices[st.chain[i]].periodEnd
    {
      LinkRows(st, after, s, settled, nextEnd, at, i);
    }
  }

  predicate SettlesOwn(st: State, s: Id, step: Step) {
    step.Settle? && Settles(st.db, step.invoiceId) && st.db.invoices[step.invoiceId].subscriptionId == s
  }

  lemma NothingExtends(st: State, s: Id, plan: Plan)
    requires ChainInv(st, s, plan)
    ensures Extends(st, st)
  {
  }

  lemma SettlingOtherExtends(st: State, s: Id, plan: Plan, step: Step)
    requires ChainInv(st, s, plan) && step.Settle? && Settles(st.db, step.invoiceId) && !SettlesOwn(st, s, step)
    ensures Extends(st, Apply(st, s, step)) && Apply(st, s, step).settled == st.settled
  {
    var id := step.invoiceId;
    SettlingOtherWrites(st, s, plan, step);
    SettlingOtherIsFramed(st, Apply(st, s, step).db, s, id, SettlementOf(st.db, step.records, id),
                          AddPlanPeriod(st.db.invoices[id].periodEnd), step.processedAt);
    FramedExtends(st, Apply(st, s, step).db, s);
  }

  lemma StepExtends(st: State, s: Id, plan: Plan, step: Step)
    requires ChainInv(st, s, plan)
    ensures Extends(st, Apply(st, s, step))
    ensures !SettlesOwn(st, s, step) ==> Apply(st, s, step).settled == st.settled
  {
    NothingExtends(st, s, plan);
    match step
    case Settle(id, records, at) =>
      if SettlesOwn(st, s, step) {
        SettleKeepsInv(st, s, plan, step);
        SettlingLastExtends(st, Apply(st, s, step), s, SettlementOf(st.db, records, id),
                            AddPlanPeriod(st.db.invoices[id].periodEnd), at);
      } else if Settles(st.db, id) {
        SettlingOtherExtends(st, s, plan, step);
      }
    case CancelSubscription(id) =>
      CancelIsFramed(st, s, plan, PlanPeriodAfter(), id);
      FramedExtends(st, CancelAtPeriodEnd(st.db, id, None).0, s);
    case ChargeOverage(cfg, id, charge, at) =>
      ChargeIsFramed(st, s, plan, PlanPeriodAfter(), cfg, id, charge, at);
      FramedExtends(st, AfterCharge(st.db, cfg, id, charge, at).0, s);
    case ReplayPaid(p) =>
      if IsReplay(st, p) {
        ReplayIsFramed(st, s, plan, PlanPeriodAfter(), p);
        FramedExtends(st, MarkPaid(st.db, p).0, s);
      }
  }

  // ---------------------------------------------------------------- every request is accounted for once

  function UsedIn(records: seq<UsageIndex.UsageRecord>, s: Id, row: Invoice): int {
    UsageIndex.ScanSum(records, s, row.periodStart, row.periodEnd)
  }

  /** Each settled link was priced by the usage that records show for its period. */
  ghost predicate Priced(st: State, s: Id, plan: Plan, records: seq<UsageIndex.UsageRecord>)
    requires ValidPlan(plan)
  {
    forall i :: 0 <= i < |st.settled| && i < |st.chain| && st.chain[i] in st.db.invoices ==>
      st.settled[i] == BuildSettlement(plan, UsedIn(records, s, st.db.invoices[st.chain[i]]))
  }

  /** Whenever a period of s was settled, all usage that records show for it had been recorded. */
  ghost predicate NothingLate(st: State, s: Id, plan: Plan, steps: seq<Step>, records: seq<UsageIndex.UsageRecord>)
    requires ChainInv(st, s, plan)
  {
    steps != [] ==>
      var before, step := Run(st, s, plan, steps[..|steps| - 1]), steps[|steps| - 1];
      && NothingLate(st, s, plan, steps[..|steps| - 1], records)
      && (SettlesOwn(before, s, step) ==>
            UsedIn(step.records, s, before.db.invoices[step.invoiceId])
                == UsedIn(records, s, before.db.invoices[step.invoiceId]))
  }

  lemma ExtendingKeepsPriced(st: State, after: State, s: Id, plan: Plan, records: seq<UsageIndex.UsageRecord>)
    requires ValidPlan(plan) && Priced(st, s, plan, records) && Extends(st, after) && |st.settled| <= |st.chain|
    requires |st.settled| < |after.settled| ==>
               && |after.settled| == |st.settled| + 1 && |st.settled| < |st.chain|
               && st.chain[|st.settled|] in st.db.invoices
               && after.settled[|st.settled|]
                  == BuildSettlement(plan, UsedIn(records, s, st.db.invoices[st.chain[|st.settled|]]))
    ensures Priced(after, s, plan, records)
  {
  }

  lemma PlanIsValid(st: State, s: Id, plan: Plan)
    requires ChainInv(st, s, plan)
    ensures ValidPlan(plan)
  {
  }

  lemma {:induction false} RunIsPriced(
    st: State, s: Id, plan: Plan, steps: seq<Step>, records: seq<UsageIndex.UsageRecord>)
    requires ChainInv(st, s, plan) && st.settled == [] && NothingLate(st, s, plan, steps, records)
    ensures ValidPlan(plan) && Priced(Run(st, s, plan, steps), s, plan, records)
  {
    PlanIsValid(st, s, plan);
    if steps != [] {
      var before, step := Run(st, s, plan, steps[..|steps| - 1]), steps[|steps| - 1];
      RunIsPriced(st, s, plan, steps[..|steps| - 1], records);
      StepExtends(before, s, plan, step);
      if SettlesOwn(before, s, step) {
        OnlyLastIsUnsettled(before, s, plan, PlanPeriodAfter(), step.invoiceId);
      }
      ExtendingKeepsPriced(before, Apply(before, s, step), s, plan, records);
    }
  }

  /** The requests an invoice's overage invoice bills, none if it has no overage invoice. */
  ghost function Billed(db: Db, source: Id): int {
    if k: Id :| ChargeFor(db, k, source) then OrElse(db.invoices[k].overageRequests, 0) else 0
  }

  /** Over the first n links: usage the quota includes, plus usage the overage invoices bill. */
  ghost function Accounted(st: State, s: Id, plan: Plan, records: seq<UsageIndex.UsageRecord>, n: nat): int
    requires n <= |st.chain| && forall i :: 0 <= i < n ==> st.chain[i] in st.db.invoices
  {
    if n == 0 then 0
    else
      Accounted(st, s, plan, records, n - 1)
      + Min(UsedIn(records, s, st.db.invoices[st.chain[n - 1]]), plan.quotaRequests)
      + Billed(st.db, st.chain[n - 1])
  }

  lemma LinkIsAccounted(st: State, s: Id, plan: Plan, records: seq<UsageIndex.UsageRecord>, i: nat)
    requires ChainInv(st, s, plan) && ChargesOverage(plan) && ValidPlan(plan) && Priced(st, s, plan, records)
    requires i < |st.settled| && st.chain[i] in st.db.invoices
    ensures Min(UsedIn(records, s, st.db.invoices[st.chain[i]]), plan.quotaRequests) + Billed(st.db, st.chain[i])
         == UsedIn(records, s, st.db.invoices[st.chain[i]])
  {
    var used := UsedIn(records, s, st.db.invoices[st.chain[i]]);
    SettlementIsWhatWasProjected(plan, used, 0);
    assert OverageSettled(st.db, st.chain, st.settled, i);
    if HasOverageInvoice(st.db, st.chain[i]) {
      var k: Id :| k in st.db.invoices && st.db.invoices[k].overageSourceInvoiceId == Some(st.chain[i]);
      assert ChargeFor(st.db, k, st.chain[i]);
    }
  }

  lemma {:induction false} LinksAddUp(st: State, s: Id, plan: Plan, records: seq<UsageIndex.UsageRecord>, n: nat)
    requires ChainInv(st, s, plan) && ChargesOverage(plan) && ValidPlan(plan) && Priced(st, s, plan, records)
    requires 0 < n <= |st.settled| && forall i :: 0 <= i < |st.chain| ==> st.chain[i] in st.db.invoices
    ensures st.db.invoices[st.chain[0]].periodStart < st.db.invoices[st.chain[n - 1]].periodEnd
    ensures Accounted(st, s, plan, records, n)
         == UsageIndex.ScanSum(records, s, st.db.invoices[st.chain[0]].periodStart,
             st.db.invoices[st.chain[n - 1]].periodEnd)
  {
    LinkIsAccounted(st, s, plan, records, n - 1);
    var row := st.db.invoices[st.chain[n - 1]];
    assert Tiles(st.db, st.chain, PlanPeriodAfter());
    if n > 1 {
      LinksAddUp(st, s, plan, records, n - 1);
      UsageStore.AdjacentWindowsAdd(records, s, st.db.invoices[st.chain[0]].periodStart, row.periodStart,
          row.periodEnd);
    }
  }

  /** After any run of an overage plan, what the quotas include plus what the overage invoices bill is all the
      usage from the start of the first period to the end of the last settled one, if nothing was late. */
  lemma SettledUsageIsConserved(st: State, s: Id, plan: Plan, steps: seq<Step>, records: seq<UsageIndex.UsageRecord>)
    requires ChainInv(st, s, plan) && st.settled == [] && ChargesOverage(plan)
        && NothingLate(st, s, plan, steps, records)
    ensures var after := Run(st, s, plan, steps);
            && |after.settled| <= |after.chain|
               && (forall i :: 0 <= i < |after.chain| ==> after.chain[i] in after.db.invoices)
            && (after.settled != [] ==>
                  Accounted(after, s, plan, records, |after.settled|)
                  == UsageIndex.ScanSum(records, s, after.db.invoices[after.chain[0]].periodStart,
                                        after.db.invoices[after.chain[|after.settled| - 1]].periodEnd))
  {
    var after := Run(st, s, plan, steps);
    forall i | 0 <= i < |after.chain|
      ensures after.chain[i] in after.db.invoices
    {
      assert IsLink(after.db, s, after.chain[i]);
    }
    RunIsPriced(st, s, plan, steps, records);
    if after.settled != [] {
      LinksAddUp(after, s, plan, records, |after.settled|);
    }
  }
}
