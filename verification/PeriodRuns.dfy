/** Runs of the period chain: settlements and charges by the collection worker, cancellations, and payment
    reports replayed for periods already paid. */
module PeriodRuns {
  import opened Common
  import opened UtcCalendar
  import opened BillingTypes
  import opened BillingDb
  import opened Settlement
  import opened OverageCollection
  import opened PeriodChain
  import opened PaymentProvider
  import opened OverageBatch
  import UsageIndex

  /** Settle reads whatever usage is recorded by then. */
  datatype Step =
    | Settle(invoiceId: Id, records: seq<UsageIndex.UsageRecord>, processedAt: int)
    | CancelSubscription(subscriptionId: Id)
    | ReplayPaid(paid: PaidParams)
    | ChargeOverage(config: Config, overageId: Id, charge: ChargeResult, chargedAt: int)

  function PlanPeriodAfter(): int -> int { (t: int) => AddPlanPeriod(t) }

  lemma PlanPeriodsIncrease()
    ensures Increasing(PlanPeriodAfter())
  {
    forall t
      ensures t < PlanPeriodAfter()(t)
    {
      PeriodLength(t);
    }
  }

  /** A repeated checkout report for an invoice of the chain, carrying no Stripe invoice or subscription id. */
  predicate IsReplay(st: State, p: PaidParams) {
    p.invoiceId in st.chain && p.provider == STRIPE && p.externalInvoiceId.None? && p.externalSubscriptionId.None?
  }

  /** The chain of s after a step; a settlement of its last link may extend it. */
  function Apply(st: State, s: Id, step: Step): State
    requires Valid(st.db) && ValidPlans(st.db)
  {
    match step
    case Settle(id, records, processedAt) =>
      var db := MaterializedIfDue(st.db, records, id, processedAt).0;
      if !Settles(st.db, id) || st.db.invoices[id].subscriptionId != s then st.(db := db)
      else
        var settled := SettlementOf(st.db, records, id);
        State(db,
              if Renews(st.db.subscriptions[s]) then st.chain + [RenewalId(st.db, id, settled)] else st.chain,
              st.settled + [settled])
    case CancelSubscription(subscriptionId) => st.(db := CancelAtPeriodEnd(st.db, subscriptionId, None).0)
    case ReplayPaid(p) => if IsReplay(st, p) then st.(db := MarkPaid(st.db, p).0) else st
    case ChargeOverage(cfg, id, charge, at) => st.(db := AfterCharge(st.db, cfg, id, charge, at).0)
  }

  ghost predicate ChainInv(st: State, s: Id, plan: Plan) {
    Inv(st, s, plan, PlanPeriodAfter()) && ValidPlans(st.db)
  }

  // ---------------------------------------------------------------- steps that leave the chain as it is

  /** The rows a chain is about are the same in db as in the state. */
  ghost predicate Framed(st: State, db: Db, s: Id) {
    && (forall id :: id in st.db.invoices ==> id in db.invoices && SameCharge(st.db.invoices[id], db.invoices[id]))
    && (forall id :: id in st.chain ==>
          && IsLink(db, s, id) && id in st.db.invoices
          && (st.db.invoices[id].overageProcessedAt.Some? <==> db.invoices[id].overageProcessedAt.Some?))
    && (forall id :: id in db.invoices && id !in st.db.invoices ==>
          && !RowOf(db, s, id)
          && (db.invoices[id].overageSourceInvoiceId.Some? ==>
             db.invoices[id].overageSourceInvoiceId.value !in st.chain))
  }

  lemma FramedOverage(st: State, db: Db, s: Id, i: nat)
    requires Framed(st, db, s) && i < |st.chain| && st.chain[i] in st.db.invoices
    requires OverageSettled(st.db, st.chain, st.settled, i)
    ensures st.chain[i] in db.invoices && OverageSettled(db, st.chain, st.settled, i)
  {
    var link := st.chain[i];
    forall id | id in db.invoices && db.invoices[id].overageSourceInvoiceId == Some(link)
      ensures id in st.db.invoices && st.db.invoices[id].overageSourceInvoiceId == Some(link)
    {
      if id in st.db.invoices {
        assert SameCharge(st.db.invoices[id], db.invoices[id]);
      }
    }
    if HasOverageInvoice(st.db, link) {
      var id :| id in st.db.invoices && st.db.invoices[id].overageSourceInvoiceId == Some(link);
      assert SameCharge(st.db.invoices[id], db.invoices[id]);
    }
  }

  lemma FramedLinks(st: State, db: Db, s: Id, plan: Plan, periodAfter: int -> int)
    requires Inv(st, s, plan, periodAfter) && Framed(st, db, s)
    ensures Links(db, s, st.chain)
    ensures Tiles(db, st.chain, periodAfter) && SettledUpTo(db, st.chain, |st.settled|)
  {
    forall i | 0 <= i < |st.chain|
      ensures IsLink(db, s, st.chain[i]) && SameCharge(st.db.invoices[st.chain[i]], db.invoices[st.chain[i]])
      ensures st.db.invoices[st.chain[i]].overageProcessedAt.Some?
          <==> db.invoices[st.chain[i]].overageProcessedAt.Some?
    {
      assert st.chain[i] in st.chain;
    }
    forall id | RowOf(db, s, id)
      ensures id in st.chain
    {
      assert RowOf(st.db, s, id);
    }
  }

  lemma FrameKeepsInv(st: State, db: Db, s: Id, plan: Plan, periodAfter: int -> int)
    requires Inv(st, s, plan, periodAfter) && Framed(st, db, s) && Valid(db)
    requires s in db.subscriptions && IsLocallyManaged(db.subscriptions[s]) && db.subscriptions[s].plan == plan
    ensures Inv(st.(db := db), s, plan, periodAfter)
  {
    FramedLinks(st, db, s, plan, periodAfter);
    forall i | 0 <= i < |st.chain|
      ensures OverageSettled(db, st.chain, st.settled, i)
    {
      assert OverageSettled(st.db, st.chain, st.settled, i);
      FramedOverage(st, db, s, i);
    }
  }

  lemma NewRowsOfSettling(db: Db, after: Db, id: Id, settled: Settled, nextEnd: int, at: int, k: Id)
    requires id in db.invoices && db.invoices[id].subscriptionId in db.subscriptions
    requires Writes(db, after, id, settled, nextEnd, at) && k in after.invoices && k !in db.invoices
    ensures after.invoices[k].subscriptionId == db.invoices[id].subscriptionId
    ensures after.invoices[k].overageSourceInvoiceId in {None, Some(id)}
  {
  }

  /** Settling another subscription's invoice. */
  lemma SettlingOtherIsFramed(st: State, db: Db, s: Id, id: Id, settled: Settled, nextEnd: int, at: int)
    requires Links(st.db, s, st.chain)
    requires id in st.db.invoices && st.db.invoices[id].subscriptionId in st.db.subscriptions
        && st.db.invoices[id].subscriptionId != s
    requires Writes(st.db, db, id, settled, nextEnd, at)
    ensures Framed(st, db, s)
  {
    forall k | k in st.chain
      ensures IsLink(db, s, k) && k in st.db.invoices && db.invoices[k] == st.db.invoices[k]
    {
      var i :| 0 <= i < |st.chain| && st.chain[i] == k;
      assert IsLink(st.db, s, st.chain[i]);
    }
    assert id !in st.chain;
    forall k | k in db.invoices && k !in st.db.invoices
      ensures !RowOf(db, s, k)
      ensures db.invoices[k].overageSourceInvoiceId.Some? ==> db.invoices[k].overageSourceInvoiceId.value !in st.chain
    {
      NewRowsOfSettling(st.db, db, id, settled, nextEnd, at, k);
    }
  }

  lemma ReplayedRowsAreFramed(st: State, db: Db, s: Id, p: PaidParams)
    requires Links(st.db, s, st.chain) && IsReplay(st, p) && p.invoiceId in st.db.invoices
    requires db.invoices == st.db.invoices
        || db.invoices == st.db.invoices[p.invoiceId := PaidInvoice(st.db.invoices[p.invoiceId], p)]
    ensures Framed(st, db, s)
  {
    forall k | k in st.chain
      ensures IsLink(st.db, s, k) && IsLink(db, s, k)
      ensures db.invoices[k].overageProcessedAt == st.db.invoices[k].overageProcessedAt
    {
      var i :| 0 <= i < |st.chain| && st.chain[i] == k;
      assert IsLink(st.db, s, st.chain[i]);
    }
  }

  lemma ReplayIsFramed(st: State, s: Id, plan: Plan, periodAfter: int -> int, p: PaidParams)
    requires Inv(st, s, plan, periodAfter) && IsReplay(st, p)
    ensures var db := MarkPaid(st.db, p).0;
            && Framed(st, db, s) && Valid(db)
            && s in db.subscriptions && IsLocallyManaged(db.subscriptions[s]) && db.subscriptions[s].plan == plan
  {
    MarkPaidIsValid(st.db, p);
    var n :| 0 <= n < |st.chain| && st.chain[n] == p.invoiceId;
    assert IsLink(st.db, s, st.chain[n]);
    PaidWrites(st.db, p);
    ReplayedRowsAreFramed(st, MarkPaid(st.db, p).0, s, p);
  }

  lemma CancelIsFramed(st: State, s: Id, plan: Plan, periodAfter: int -> int, id: Id)
    requires Inv(st, s, plan, periodAfter)
    ensures var db := CancelAtPeriodEnd(st.db, id, None).0;
            && Framed(st, db, s) && Valid(db)
            && s in db.subscriptions && IsLocallyManaged(db.subscriptions[s]) && db.subscriptions[s].plan == plan
  {
    if id in st.db.subscriptions {
      SubscriptionUpdateIsValid(st.db, id, st.db.subscriptions[id].(cancelAtPeriodEnd := true));
    }
    forall k | k in st.chain
      ensures IsLink(st.db, s, k)
    {
      var i :| 0 <= i < |st.chain| && st.chain[i] == k;
    }
  }

  lemma ChargeIsFramed(
    st: State, s: Id, plan: Plan, periodAfter: int -> int, cfg: Config, id: Id, charge: ChargeResult, at: int)
    requires Inv(st, s, plan, periodAfter) && ValidPlans(st.db)
    ensures var db := AfterCharge(st.db, cfg, id, charge, at).0;
            && Framed(st, db, s) && Valid(db) && ValidPlans(db) && db.subscriptions == st.db.subscriptions
  {
    ChargingIsSound(st.db, cfg, id, charge, at);
    ChargeWrites(st.db, cfg, id, charge, at);
    ChargedRowsAreFramed(st, AfterCharge(st.db, cfg, id, charge, at).0, s, id);
  }

  lemma ChargedRowsAreFramed(st: State, db: Db, s: Id, id: Id)
    requires Links(st.db, s, st.chain) && db.invoices.Keys == st.db.invoices.Keys
    requires forall k :: k in st.db.invoices && (k != id || st.db.invoices[k].kind != OVERAGE) ==>
        db.invoices[k] == st.db.invoices[k]
    requires forall k :: k in st.db.invoices ==> SameCharge(st.db.invoices[k], db.invoices[k])
    ensures Framed(st, db, s)
  {
    forall k | k in st.chain
      ensures IsLink(st.db, s, k) && db.invoices[k] == st.db.invoices[k]
    {
      var i :| 0 <= i < |st.chain| && st.chain[i] == k;
      assert IsLink(st.db, s, st.chain[i]);
    }
  }

  // ---------------------------------------------------------------- every step keeps the chain

  /** Only the last link can be unsettled, so it is the only one a settlement can find. */
  lemma OnlyLastIsUnsettled(st: State, s: Id, plan: Plan, periodAfter: int -> int, id: Id)
    requires Inv(st, s, plan, periodAfter) && Settles(st.db, id) && st.db.invoices[id].subscriptionId == s
    ensures |st.settled| == |st.chain| - 1 && id == st.chain[|st.chain| - 1]
  {
    assert RowOf(st.db, s, id);
    var i :| 0 <= i < |st.chain| && st.chain[i] == id;
  }

  lemma SettleKeepsInv(st: State, s: Id, plan: Plan, step: Step)
    requires ChainInv(st, s, plan) && step.Settle? && Settles(st.db, step.invoiceId)
    ensures ChainInv(Apply(st, s, step), s, plan)
    ensures st.db.invoices[step.invoiceId].subscriptionId == s ==>
              && |st.settled| == |st.chain| - 1
              && SettlesLast(st, Apply(st, s, step), s, SettlementOf(st.db, step.records, step.invoiceId),
                             AddPlanPeriod(st.db.invoices[step.invoiceId].periodEnd), step.processedAt)
  {
    var id := step.invoiceId;
    var row := st.db.invoices[id];
    assert Refers(st.db, row);
    var settled := SettlementOf(st.db, step.records, id);
    var nextEnd := PlanPeriodAfter()(row.periodEnd);
    var db := Materialized(st.db, id, settled, nextEnd, step.processedAt);
    MaterializedIsValid(st.db, id, settled, nextEnd, step.processedAt);
    MaterializedWrites(st.db, id, settled, nextEnd, step.processedAt);
    if row.subscriptionId == s {
      OnlyLastIsUnsettled(st, s, plan, PlanPeriodAfter(), id);
      assert IsLink(st.db, s, st.chain[|st.chain| - 1]);
      PlanPeriodsIncrease();
      SettlingLastKeepsInv(st, Apply(st, s, step), s, plan, settled, PlanPeriodAfter(), step.processedAt);
    } else {
      SettlingOtherIsFramed(st, db, s, id, settled, nextEnd, step.processedAt);
      FrameKeepsInv(st, db, s, plan, PlanPeriodAfter());
    }
  }

  lemma PaidKeepsValidPlans(db: Db, p: PaidParams)
    requires Valid(db) && ValidPlans(db)
    ensures ValidPlans(MarkPaid(db, p).0)
  {
    if p.invoiceId in db.invoices {
      PaidWrites(db, p);
    }
  }

  lemma ReplayKeepsInv(st: State, s: Id, plan: Plan, p: PaidParams)
    requires ChainInv(st, s, plan) && IsReplay(st, p)
    ensures ChainInv(Apply(st, s, ReplayPaid(p)), s, plan)
  {
    ReplayIsFramed(st, s, plan, PlanPeriodAfter(), p);
    FrameKeepsInv(st, MarkPaid(st.db, p).0, s, plan, PlanPeriodAfter());
    PaidKeepsValidPlans(st.db, p);
  }

  lemma CancelKeepsInv(st: State, s: Id, plan: Plan, id: Id)
    requires ChainInv(st, s, plan)
    ensures ChainInv(Apply(st, s, CancelSubscription(id)), s, plan)
  {
    CancelIsFramed(st, s, plan, PlanPeriodAfter(), id);
    FrameKeepsInv(st, CancelAtPeriodEnd(st.db, id, None).0, s, plan, PlanPeriodAfter());
  }

  lemma ChargeKeepsInv(st: State, s: Id, plan: Plan, cfg: Config, id: Id, charge: ChargeResult, at: int)
    requires ChainInv(st, s, plan)
    ensures ChainInv(Apply(st, s, ChargeOverage(cfg, id, charge, at)), s, plan)
  {
    ChargeIsFramed(st, s, plan, PlanPeriodAfter(), cfg, id, charge, at);
    FrameKeepsInv(st, AfterCharge(st.db, cfg, id, charge, at).0, s, plan, PlanPeriodAfter());
  }

  lemma StepKeepsInv(st: State, s: Id, plan: Plan, step: Step)
    requires ChainInv(st, s, plan)
    ensures ChainInv(Apply(st, s, step), s, plan)
  {
    match step
    case Settle(id, _, _) =>
      if Settles(st.db, id) {
        SettleKeepsInv(st, s, plan, step);
      }
    case CancelSubscription(id) => CancelKeepsInv(st, s, plan, id);
    case ChargeOverage(cfg, id, charge, at) => ChargeKeepsInv(st, s, plan, cfg, id, charge, at);
    case ReplayPaid(p) =>
      if IsReplay(st, p) {
        ReplayKeepsInv(st, s, plan, p);
      }
  }

  // ---------------------------------------------------------------- runs

  ghost predicate Starts(st: State, s: Id, plan: Plan) {
    ChainInv(st, s, plan) && |st.chain| == 1 && st.settled == [] && Current(st, s)
  }

  /** The subscription is in the period of row, ACTIVE while the chain lives and CANCELED afterwards. */
  predicate InPeriod(sub: Subscription, row: Invoice, live: bool) {
    && sub.currentPeriodStart == Some(row.periodStart) && sub.currentPeriodEnd == Some(row.periodEnd)
    && sub.status == if live then ACTIVE else CANCELED
  }

  function Last(st: State): Id
    requires st.chain != []
  {
    st.chain[|st.chain| - 1]
  }

  predicate Live(st: State) { |st.settled| < |st.chain| }

  /** The current period is that of the last link, and the subscription is live exactly while it is unsettled. */
  ghost predicate Current(st: State, s: Id) {
    && s in st.db.subscriptions && st.chain != [] && Last(st) in st.db.invoices
    && InPeriod(st.db.subscriptions[s], st.db.invoices[Last(st)], Live(st))
  }

  ghost function Run(st: State, s: Id, plan: Plan, steps: seq<Step>): (after: State)
    requires ChainInv(st, s, plan)
    ensures ChainInv(after, s, plan)
  {
    if steps == [] then st
    else
      var before := Run(st, s, plan, steps[..|steps| - 1]);
      StepKeepsInv(before, s, plan, steps[|steps| - 1]);
      Apply(before, s, steps[|steps| - 1])
  }

  lemma RunSnoc(st: State, s: Id, plan: Plan, steps: seq<Step>, step: Step)
    requires ChainInv(st, s, plan)
    ensures Run(st, s, plan, steps + [step]) == Apply(Run(st, s, plan, steps), s, step)
  {
    assert (steps + [step])[..|steps|] == steps;
  }

  // ---------------------------------------------------------------- periods tile time

  lemma {:induction false} PeriodsAreOrdered(st: State, s: Id, plan: Plan, periodAfter: int -> int, i: nat, j: nat)
    requires Inv(st, s, plan, periodAfter) && i < j < |st.chain|
    ensures st.chain[i] in st.db.invoices && st.chain[j] in st.db.invoices
    ensures st.db.invoices[st.chain[i]].periodEnd <= st.db.invoices[st.chain[j]].periodStart
    decreases j - i
  {
    assert IsLink(st.db, s, st.chain[i]) && IsLink(st.db, s, st.chain[j]) && IsLink(st.db, s, st.chain[j - 1]);
    if i < j - 1 {
      PeriodsAreOrdered(st, s, plan, periodAfter, i, j - 1);
    }
  }

  /** Link i of the chain has a period that t lies in. */
  predicate LinkCovers(st: State, i: int, t: int)
    requires 0 <= i < |st.chain|
  {
    st.chain[i] in st.db.invoices
    && st.db.invoices[st.chain[i]].periodStart <= t < st.db.invoices[st.chain[i]].periodEnd
  }

  lemma {:induction false} SomePeriodCovers(
    st: State, s: Id, plan: Plan, periodAfter: int -> int, n: nat, t: int)
    requires Inv(st, s, plan, periodAfter) && n < |st.chain|
    requires st.chain[0] in st.db.invoices && st.chain[n] in st.db.invoices
    requires st.db.invoices[st.chain[0]].periodStart <= t < st.db.invoices[st.chain[n]].periodEnd
    ensures exists i :: 0 <= i < |st.chain| && LinkCovers(st, i, t)
  {
    if t < st.db.invoices[st.chain[n]].periodStart {
      assert IsLink(st.db, s, st.chain[n - 1]);
      SomePeriodCovers(st, s, plan, periodAfter, n - 1, t);
    } else {
      assert LinkCovers(st, n, t);
    }
  }

  /** After any run, every instant from the start of the first period to the end of the last lies in
      exactly one period. */
  lemma PeriodsTileTime(st: State, s: Id, plan: Plan, steps: seq<Step>, t: int)
    requires ChainInv(st, s, plan)
    ensures var after := Run(st, s, plan, steps);
            && after.chain[0] in after.db.invoices && Last(after) in after.db.invoices
            && (after.db.invoices[after.chain[0]].periodStart <= t < after.db.invoices[Last(after)].periodEnd ==>
                  && (exists i :: 0 <= i < |after.chain| && LinkCovers(after, i, t))
                  && (forall i, j :: 0 <= i < j < |after.chain| ==>
                        !(LinkCovers(after, i, t) && LinkCovers(after, j, t))))
  {
    var after := Run(st, s, plan, steps);
    var last := |after.chain| - 1;
    assert IsLink(after.db, s, after.chain[0]) && IsLink(after.db, s, after.chain[last]);
    if after.db.invoices[after.chain[0]].periodStart <= t < after.db.invoices[after.chain[last]].periodEnd {
      SomePeriodCovers(after, s, plan, PlanPeriodAfter(), last, t);
      forall i, j | 0 <= i < j < |after.chain|
        ensures !(LinkCovers(after, i, t) && LinkCovers(after, j, t))
      {
        PeriodsAreOrdered(after, s, plan, PlanPeriodAfter(), i, j);
      }
    }
  }

  // ---------------------------------------------------------------- overage is invoiced once

  predicate ChargeFor(db: Db, id: Id, source: Id) {
    id in db.invoices && db.invoices[id].overageSourceInvoiceId == Some(source)
  }

  /** After any run, a period has at most one overage invoice, and has one exactly when it has been
      settled for a positive amount; all periods but the last are settled. */
  lemma EachPeriodIsChargedOnce(st: State, s: Id, plan: Plan, steps: seq<Step>, i: nat)
    requires ChainInv(st, s, plan) && i < |Run(st, s, plan, steps).chain|
    ensures var after := Run(st, s, plan, steps);
            && |after.chain| - 1 <= |after.settled|
            && after.chain[i] in after.db.invoices
            && (after.db.invoices[after.chain[i]].overageProcessedAt.Some? <==> i < |after.settled|)
            && (forall a, b :: ChargeFor(after.db, a, after.chain[i]) && ChargeFor(after.db, b, after.chain[i]) ==>
               a == b)
            && (HasOverageInvoice(after.db, after.chain[i])
               <==> i < |after.settled| && after.settled[i].amountCents > 0)
  {
    var after := Run(st, s, plan, steps);
    assert OverageSettled(after.db, after.chain, after.settled, i);
    assert IsLink(after.db, s, after.chain[i]);
    forall a, b | ChargeFor(after.db, a, after.chain[i]) && ChargeFor(after.db, b, after.chain[i])
      ensures a == b
    {
      assert InvoiceFits(after.db, a, after.db.invoices[a]);
    }
  }

  /** After any run the chain is all of the subscription's own invoices: its periods are the ones that tile. */
  lemma ChainIsEveryPeriod(st: State, s: Id, plan: Plan, steps: seq<Step>, id: Id)
    requires ChainInv(st, s, plan)
    ensures id in Run(st, s, plan, steps).chain <==> RowOf(Run(st, s, plan, steps).db, s, id)
  {
    var after := Run(st, s, plan, steps);
    if id in after.chain {
      var i :| 0 <= i < |after.chain| && after.chain[i] == id;
      assert IsLink(after.db, s, after.chain[i]);
    }
  }

  // ---------------------------------------------------------------- cancellation

  /** No period is to follow: the subscription is to be cancelled at period end, or the chain has ended. */
  predicate Stopping(st: State, s: Id) {
    !Live(st) || (s in st.db.subscriptions && st.db.subscriptions[s].cancelAtPeriodEnd)
  }

  lemma SettlingLastStops(st: State, after: State, s: Id, settled: Settled, nextEnd: int, at: int)
    requires Links(st.db, s, st.chain) && SettlesLast(st, after, s, settled, nextEnd, at) && Stopping(st, s)
    ensures after.chain == st.chain && !Live(after)
  {
  }

  lemma StepKeepsStopping(st: State, s: Id, plan: Plan, step: Step)
    requires ChainInv(st, s, plan) && Stopping(st, s)
    ensures Apply(st, s, step).chain == st.chain && Stopping(Apply(st, s, step), s)
  {
    match step
    case Settle(id, records, at) =>
      if Settles(st.db, id) {
        if st.db.invoices[id].subscriptionId == s {
          SettleKeepsInv(st, s, plan, step);
          SettlingLastStops(st, Apply(st, s, step), s, SettlementOf(st.db, records, id),
              AddPlanPeriod(st.db.invoices[id].periodEnd), at);
        } else {
          SettlingOtherWrites(st, s, plan, step);
        }
      }
    case CancelSubscription(id) =>
    case ChargeOverage(cfg, id, charge, at) => ChargeWrites(st.db, cfg, id, charge, at);
    case ReplayPaid(p) =>
      if IsReplay(st, p) {
        if MarkPaid(st.db, p).1.Done? {
          ReplayWrites(st, s, plan, p);
        } else {
          RefusedReplay(st, s, plan, p);
        }
      }
  }

  lemma {:induction false} StoppingChainDoesNotGrow(st: State, s: Id, plan: Plan, steps: seq<Step>)
    requires ChainInv(st, s, plan) && Stopping(st, s)
    ensures Run(st, s, plan, steps).chain == st.chain && Stopping(Run(st, s, plan, steps), s)
  {
    if steps != [] {
      StoppingChainDoesNotGrow(st, s, plan, steps[..|steps| - 1]);
      StepKeepsStopping(Run(st, s, plan, steps[..|steps| - 1]), s, plan, steps[|steps| - 1]);
    }
  }

  lemma CancellingStops(st: State, s: Id, plan: Plan)
    requires ChainInv(st, s, plan)
    ensures Stopping(Apply(st, s, CancelSubscription(s)), s) && Apply(st, s, CancelSubscription(s)).chain == st.chain
  {
    assert SubscriptionFits(st.db, s, st.db.subscriptions[s]);
  }

  /** Once a subscription is cancelled, no run opens another period for it. */
  lemma CancellationEndsTheChain(st: State, s: Id, plan: Plan, steps: seq<Step>)
    requires ChainInv(st, s, plan)
    ensures ChainInv(Apply(st, s, CancelSubscription(s)), s, plan)
    ensures Run(Apply(st, s, CancelSubscription(s)), s, plan, steps).chain == st.chain
  {
    CancelKeepsInv(st, s, plan, s);
    CancellingStops(st, s, plan);
    StoppingChainDoesNotGrow(Apply(st, s, CancelSubscription(s)), s, plan, steps);
  }

  lemma EndedStep(st: State, s: Id, plan: Plan, step: Step)
    requires ChainInv(st, s, plan) && |st.settled| == |st.chain|
    ensures Apply(st, s, step).chain == st.chain && Apply(st, s, step).settled == st.settled
  {
    if step.Settle? && Settles(st.db, step.invoiceId) && st.db.invoices[step.invoiceId].subscriptionId == s {
      OnlyLastIsUnsettled(st, s, plan, PlanPeriodAfter(), step.invoiceId);
    }
  }

  /** Once the last link is settled without a successor nothing is ever added. */
  lemma {:induction false} EndedChainStaysEnded(st: State, s: Id, plan: Plan, steps: seq<Step>)
    requires ChainInv(st, s, plan) && |st.settled| == |st.chain|
    ensures Run(st, s, plan, steps).chain == st.chain && Run(st, s, plan, steps).settled == st.settled
  {
    if steps != [] {
      EndedChainStaysEnded(st, s, plan, steps[..|steps| - 1]);
      EndedStep(Run(st, s, plan, steps[..|steps| - 1]), s, plan, steps[|steps| - 1]);
    }
  }

  /** Settling the last link ends the chain exactly when the subscription was to be cancelled or already was. */
  lemma SettlingEndsOrExtends(st: State, s: Id, plan: Plan, step: Step)
    requires ChainInv(st, s, plan) && step.Settle? && Settles(st.db, step.invoiceId)
    requires st.db.invoices[step.invoiceId].subscriptionId == s
    ensures var after, sub := Apply(st, s, step), st.db.subscriptions[s];
            && |after.settled| == |st.chain|
            && (after.chain == st.chain <==> sub.cancelAtPeriodEnd || sub.status == CANCELED)
            && (after.chain != st.chain ==> |after.chain| == |st.chain| + 1)
            && (after.chain == st.chain ==> after.db.subscriptions[s].status == CANCELED)
  {
    SettleKeepsInv(st, s, plan, step);
  }

  // ---------------------------------------------------------------- the current period

  lemma SettlingLastKeepsCurrent(st: State, after: State, s: Id, settled: Settled, nextEnd: int, at: int)
    requires Links(st.db, s, st.chain) && SettlesLast(st, after, s, settled, nextEnd, at) && Current(st, s)
    ensures Current(after, s)
  {
  }

  lemma SettlingOtherKeepsCurrent(st: State, after: State, s: Id, id: Id, settled: Settled, nextEnd: int, at: int)
    requires Links(st.db, s, st.chain) && Current(st, s) && after.chain == st.chain && after.settled == st.settled
    requires id in st.db.invoices && st.db.invoices[id].subscriptionId in st.db.subscriptions
        && st.db.invoices[id].subscriptionId != s
    requires Writes(st.db, after.db, id, settled, nextEnd, at)
    ensures Current(after, s)
  {
    assert IsLink(st.db, s, Last(st));
  }

  lemma SettlingOtherWrites(st: State, s: Id, plan: Plan, step: Step)
    requires ChainInv(st, s, plan) && step.Settle? && Settles(st.db, step.invoiceId)
    requires st.db.invoices[step.invoiceId].subscriptionId != s
    ensures st.db.invoices[step.invoiceId].subscriptionId in st.db.subscriptions
    ensures var after := Apply(st, s, step);
            && after.chain == st.chain && after.settled == st.settled
            && Writes(st.db, after.db, step.invoiceId, SettlementOf(st.db, step.records, step.invoiceId),
                      AddPlanPeriod(st.db.invoices[step.invoiceId].periodEnd), step.processedAt)
  {
    assert Refers(st.db, st.db.invoices[step.invoiceId]);
    MaterializedWrites(st.db, step.invoiceId, SettlementOf(st.db, step.records, step.invoiceId),
                       AddPlanPeriod(st.db.invoices[step.invoiceId].periodEnd), step.processedAt);
  }

  lemma SettleKeepsCurrent(st: State, s: Id, plan: Plan, step: Step)
    requires ChainInv(st, s, plan) && step.Settle? && Settles(st.db, step.invoiceId) && Current(st, s)
    ensures Current(Apply(st, s, step), s)
  {
    var row := st.db.invoices[step.invoiceId];
    var settled := SettlementOf(st.db, step.records, step.invoiceId);
    if row.subscriptionId == s {
      SettleKeepsInv(st, s, plan, step);
      SettlingLastKeepsCurrent(st, Apply(st, s, step), s, settled, AddPlanPeriod(row.periodEnd), step.processedAt);
    } else {
      SettlingOtherWrites(st, s, plan, step);
      SettlingOtherKeepsCurrent(st, Apply(st, s, step), s, step.invoiceId, settled, AddPlanPeriod(row.periodEnd),
          step.processedAt);
    }
  }

  lemma CancelKeepsCurrent(st: State, s: Id, id: Id)
    requires Current(st, s)
    ensures Current(st.(db := CancelAtPeriodEnd(st.db, id, None).0), s)
  {
  }

  /** A replay that reports the last period, while that period is unsettled. */
  predicate ReplaysLive(st: State, p: PaidParams) { st.chain != [] && p.invoiceId == Last(st) && Live(st) }

  lemma ReplayedPeriod(st: State, s: Id, row: Invoice, p: PaidParams, live: bool)
    requires Current(st, s)
    ensures InPeriod(PaidSubscription(st.db.subscriptions[s], row, p), st.db.invoices[Last(st)], live)
            <==> live && row.periodStart == st.db.invoices[Last(st)].periodStart
                 && row.periodEnd == st.db.invoices[Last(st)].periodEnd
  {
  }

  /** The replayed invoice has the last link's period only if it is the last link. */
  lemma OtherLinksHaveOtherPeriods(st: State, s: Id, plan: Plan, periodAfter: int -> int, n: nat)
    requires Inv(st, s, plan, periodAfter) && n < |st.chain| - 1
    ensures st.chain[n] in st.db.invoices && Last(st) in st.db.invoices
    ensures st.db.invoices[st.chain[n]].periodStart != st.db.invoices[Last(st)].periodStart
  {
    PeriodsAreOrdered(st, s, plan, periodAfter, n, |st.chain| - 1);
    assert IsLink(st.db, s, st.chain[n]);
  }

  lemma ReplayWrites(st: State, s: Id, plan: Plan, p: PaidParams)
    requires ChainInv(st, s, plan) && IsReplay(st, p) && MarkPaid(st.db, p).1.Done?
    ensures p.invoiceId in st.db.invoices && s in st.db.subscriptions
    ensures var row, db := st.db.invoices[p.invoiceId], Apply(st, s, ReplayPaid(p)).db;
            && db.invoices == st.db.invoices[p.invoiceId := PaidInvoice(row, p)]
            && db.subscriptions == st.db.subscriptions[s := PaidSubscription(st.db.subscriptions[s], row, p)]
  {
    var n :| 0 <= n < |st.chain| && st.chain[n] == p.invoiceId;
    assert IsLink(st.db, s, st.chain[n]);
  }

  lemma ReplayedCurrent(st: State, after: State, s: Id, p: PaidParams)
    requires Current(st, s) && p.invoiceId in st.db.invoices && after.chain == st.chain && after.settled == st.settled
    requires after.db.invoices == st.db.invoices[p.invoiceId := PaidInvoice(st.db.invoices[p.invoiceId], p)]
    requires after.db.subscriptions
        == st.db.subscriptions[s := PaidSubscription(st.db.subscriptions[s], st.db.invoices[p.invoiceId], p)]
    requires p.invoiceId != Last(st) ==> st.db.invoices[p.invoiceId].periodStart != st.db.invoices[Last(st)].periodStart
    ensures Current(after, s) <==> ReplaysLive(st, p)
  {
    ReplayedPeriod(st, s, st.db.invoices[p.invoiceId], p, Live(st));
  }

  /** What a replay does to the current period: it stays right exactly when the replayed invoice is the
      unsettled last one. Reporting an older period again moves the subscription back to it. */
  lemma ReplayKeepsCurrentExactlyWhenLive(st: State, s: Id, plan: Plan, p: PaidParams)
    requires ChainInv(st, s, plan) && IsReplay(st, p) && MarkPaid(st.db, p).1.Done? && Current(st, s)
    ensures Current(Apply(st, s, ReplayPaid(p)), s) <==> ReplaysLive(st, p)
  {
    ReplayWrites(st, s, plan, p);
    var n :| 0 <= n < |st.chain| && st.chain[n] == p.invoiceId;
    if n < |st.chain| - 1 {
      OtherLinksHaveOtherPeriods(st, s, plan, PlanPeriodAfter(), n);
    }
    ReplayedCurrent(st, Apply(st, s, ReplayPaid(p)), s, p);
  }

  lemma RefusedWritesNothing(db: Db, p: PaidParams)
    requires Valid(db) && p.invoiceId in db.invoices && p.externalInvoiceId.None? && p.externalSubscriptionId.None?
    requires Refers(db, db.invoices[p.invoiceId]) && !MarkPaid(db, p).1.Done?
    ensures MarkPaid(db, p).0 == db
  {
    var row := db.invoices[p.invoiceId];
    assert SubscriptionFits(db, row.subscriptionId, db.subscriptions[row.subscriptionId]);
  }

  /** A replay refused for its checkout session leaves the chain alone. */
  lemma RefusedReplay(st: State, s: Id, plan: Plan, p: PaidParams)
    requires ChainInv(st, s, plan) && IsReplay(st, p) && !MarkPaid(st.db, p).1.Done?
    ensures Apply(st, s, ReplayPaid(p)) == st
  {
    var n :| 0 <= n < |st.chain| && st.chain[n] == p.invoiceId;
    assert IsLink(st.db, s, st.chain[n]);
    RefusedWritesNothing(st.db, p);
  }

  lemma ChargedCurrent(st: State, after: State, s: Id)
    requires Current(st, s) && after.chain == st.chain && after.settled == st.settled
    requires after.db.subscriptions == st.db.subscriptions && after.db.invoices.Keys == st.db.invoices.Keys
    requires forall k :: k in st.db.invoices ==> SameCharge(st.db.invoices[k], after.db.invoices[k])
    ensures Current(after, s)
  {
    assert SameCharge(st.db.invoices[Last(st)], after.db.invoices[Last(st)]);
  }

  lemma ChargeKeepsCurrent(st: State, s: Id, plan: Plan, cfg: Config, id: Id, charge: ChargeResult, at: int)
    requires ChainInv(st, s, plan) && Current(st, s)
    ensures Current(Apply(st, s, ChargeOverage(cfg, id, charge, at)), s)
  {
    ChargeWrites(st.db, cfg, id, charge, at);
    ChargedCurrent(st, Apply(st, s, ChargeOverage(cfg, id, charge, at)), s);
  }

  lemma StepKeepsCurrent(st: State, s: Id, plan: Plan, step: Step)
    requires ChainInv(st, s, plan) && Current(st, s)
    requires step.ReplayPaid? && IsReplay(st, step.paid) ==> ReplaysLive(st, step.paid)
    ensures Current(Apply(st, s, step), s)
  {
    match step
    case Settle(id, _, _) =>
      if Settles(st.db, id) {
        SettleKeepsCurrent(st, s, plan, step);
      }
    case CancelSubscription(id) => CancelKeepsCurrent(st, s, id);
    case ChargeOverage(cfg, id, charge, at) => ChargeKeepsCurrent(st, s, plan, cfg, id, charge, at);
    case ReplayPaid(p) =>
      if IsReplay(st, p) {
        if MarkPaid(st.db, p).1.Done? {
          ReplayKeepsCurrentExactlyWhenLive(st, s, plan, p);
        } else {
          RefusedReplay(st, s, plan, p);
        }
      }
  }

  /** Every replay in the run is of the period that was live when it came. */
  ghost predicate OnlyLiveReplays(st: State, s: Id, plan: Plan, steps: seq<Step>)
    requires ChainInv(st, s, plan)
  {
    steps != [] ==>
      var before, step := Run(st, s, plan, steps[..|steps| - 1]), steps[|steps| - 1];
      && OnlyLiveReplays(st, s, plan, steps[..|steps| - 1])
      && (step.ReplayPaid? && IsReplay(before, step.paid) ==> ReplaysLive(before, step.paid))
  }

  /** With no stale replays, the subscription's current period is always the last link, ACTIVE until the
      chain ends and CANCELED from then on. */
  lemma {:induction false} CurrentPeriodIsLastLink(st: State, s: Id, plan: Plan, steps: seq<Step>)
    requires Starts(st, s, plan) && OnlyLiveReplays(st, s, plan, steps)
    ensures Current(Run(st, s, plan, steps), s)
  {
    if steps != [] {
      CurrentPeriodIsLastLink(st, s, plan, steps[..|steps| - 1]);
      StepKeepsCurrent(Run(st, s, plan, steps[..|steps| - 1]), s, plan, steps[|steps| - 1]);
    }
  }
}
