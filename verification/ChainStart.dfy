/** How the chain of periods of a locally managed subscription starts: it is subscribed to and its checkout is
    completed. And what completing that checkout once more, later, does to it. */
module ChainStart {
  import opened Common
  import opened BillingTypes
  import opened BillingDb
  import opened Settlement
  import opened OverageCollection
  import opened PeriodChain
  import opened PeriodRuns
  import UsageIndex

  function CheckoutCompleted(invoiceId: Id, session: Option<Id>): PaidParams {
    PaidParams(invoiceId, STRIPE, session, None, None, None)
  }

  predicate SessionUnused(db: Db, session: Option<Id>) {
    forall id :: id in db.invoices ==> !Clash(db.invoices[id].externalCheckoutSessionId, session)
  }

  predicate SoldAs(row: Invoice, sub: Subscription) {
    && row.kind == SUBSCRIPTION && row.status == PAID && row.provider == STRIPE
    && row.overageProcessedAt.None? && row.periodStart < row.periodEnd
    && IsLocallyManaged(sub) && InPeriod(sub, row, true)
  }

  lemma PaidIsOneLink(db: Db, paid: Db, s: Id, id: Id, row: Invoice)
    requires row.kind == SUBSCRIPTION && row.status == PAID && row.provider == STRIPE && row.subscriptionId == s
    requires RowOf(db, s, id) && forall k: Id :: RowOf(db, s, k) ==> k == id
    requires paid.invoices == db.invoices[id := row]
    ensures Links(paid, s, [id])
  {
    forall k: Id | RowOf(paid, s, k)
      ensures k == id
    {
      assert k != id ==> RowOf(db, s, k);
    }
  }

  lemma PaidHasNoOverage(db: Db, paid: Db, id: Id, row: Invoice)
    requires id in db.invoices && !HasOverageInvoice(db, id) && row.overageSourceInvoiceId != Some(id)
    requires paid.invoices == db.invoices[id := row]
    ensures OverageSettled(paid, [id], [], 0)
  {
    assert !HasOverageInvoice(paid, id);
  }

  lemma PaidStartsChain(db: Db, paid: Db, s: Id, id: Id, row: Invoice, sub: Subscription)
    requires Valid(paid) && ValidPlans(paid) && SoldAs(row, sub)
    requires RowOf(db, s, id) && forall k: Id :: RowOf(db, s, k) ==> k == id
    requires !HasOverageInvoice(db, id) && row.subscriptionId == s && row.overageSourceInvoiceId != Some(id)
    requires paid.invoices == db.invoices[id := row] && s in paid.subscriptions && paid.subscriptions[s] == sub
    ensures Starts(State(paid, [id], []), s, sub.plan)
  {
    PaidIsOneLink(db, paid, s, id, row);
    PaidHasNoOverage(db, paid, id, row);
  }

  lemma SubscribedRows(db: Db, s: Id, plan: Plan, periodStart: int, periodEnd: int, createdAt: int)
    requires Valid(db) && s !in db.subscriptions
    ensures var subscribed, id := Subscribed(db, s, plan, STRIPE, periodStart, periodEnd, createdAt), db.nextInvoiceId;
            && RowOf(subscribed, s, id) && !HasOverageInvoice(subscribed, id)
            && (forall k: Id :: RowOf(subscribed, s, k) ==> k == id)
  {
    forall k: Id | k in db.invoices
      ensures db.invoices[k].subscriptionId != s && db.invoices[k].overageSourceInvoiceId != Some(db.nextInvoiceId)
    {
      assert Refers(db, db.invoices[k]);
    }
  }

  /** Completing the checkout of a free subscription, which Stripe knows no subscription for, starts a chain
      whose one link is the period it was sold for. */
  lemma CheckoutStartsChain(db: Db, s: Id, plan: Plan, periodStart: int, createdAt: int, session: Option<Id>)
    requires Valid(db) && ValidPlans(db) && s !in db.subscriptions && ValidPlan(plan) && plan.priceCents == 0
    ensures var subscribed := Subscribed(db, s, plan, STRIPE, periodStart, AddPlanPeriod(periodStart), createdAt);
            && Valid(subscribed)
            && var (paid, outcome) := MarkPaid(subscribed, CheckoutCompleted(db.nextInvoiceId, session));
               && (SessionUnused(db, session) ==> outcome.Done?)
               && (outcome.Done? ==>
                  Starts(State(paid, [db.nextInvoiceId], []), s, plan) && Renews(paid.subscriptions[s]))
  {
    var periodEnd := AddPlanPeriod(periodStart);
    PeriodLength(periodStart);
    FirstPaymentStartsChain(db, s, plan, periodStart, periodEnd, createdAt, session);
  }

  lemma FirstPaymentStartsChain(
    db: Db, s: Id, plan: Plan, periodStart: int, periodEnd: int, createdAt: int, session: Option<Id>)
    requires Valid(db) && ValidPlans(db) && s !in db.subscriptions && ValidPlan(plan) && plan.priceCents == 0
    requires periodStart < periodEnd
    ensures var subscribed := Subscribed(db, s, plan, STRIPE, periodStart, periodEnd, createdAt);
            && Valid(subscribed)
            && var (paid, outcome) := MarkPaid(subscribed, CheckoutCompleted(db.nextInvoiceId, session));
               && (SessionUnused(db, session) ==> outcome.Done?)
               && (outcome.Done? ==>
                  Starts(State(paid, [db.nextInvoiceId], []), s, plan) && Renews(paid.subscriptions[s]))
  {
    var id, p := db.nextInvoiceId, CheckoutCompleted(db.nextInvoiceId, session);
    var subscribed := Subscribed(db, s, plan, STRIPE, periodStart, periodEnd, createdAt);
    SubscribedIsValid(db, s, plan, STRIPE, periodStart, periodEnd, createdAt);
    SubscribedRows(db, s, plan, periodStart, periodEnd, createdAt);
    MarkPaidIsValid(subscribed, p);
    PaidRows(subscribed, p);
    if SessionUnused(db, session) {
      UnusedSessionIsApplied(subscribed, s, id, session);
    }
    if MarkPaid(subscribed, p).1.Done? {
      PaidStartsChain(subscribed, MarkPaid(subscribed, p).0, s, id, PaidInvoice(subscribed.invoices[id], p),
                      PaidSubscription(subscribed.subscriptions[s], subscribed.invoices[id], p));
    }
  }

  lemma UnusedSessionIsApplied(db: Db, s: Id, id: Id, session: Option<Id>)
    requires Valid(db) && id in db.invoices && db.invoices[id].subscriptionId == s && s in db.subscriptions
    requires db.invoices[id].externalInvoiceId.None? && db.invoices[id].overageSourceInvoiceId.None?
    requires db.invoices[id].externalCheckoutSessionId.None? && db.subscriptions[s].externalSubscriptionId.None?
    requires forall k :: k in db.invoices && k != id ==> !Clash(db.invoices[k].externalCheckoutSessionId, session)
    ensures MarkPaid(db, CheckoutCompleted(id, session)).1.Done?
  {
    assert InvoiceFits(db, id, PaidInvoice(db.invoices[id], CheckoutCompleted(id, session)));
  }

  lemma PaidRows(db: Db, p: PaidParams)
    requires Valid(db) && p.invoiceId in db.invoices && db.invoices[p.invoiceId].subscriptionId in db.subscriptions
    requires db.invoices[p.invoiceId].kind == SUBSCRIPTION && p.externalInvoiceId.None?
    ensures var row, (paid, outcome) := db.invoices[p.invoiceId], MarkPaid(db, p);
            outcome.Done? ==>
              && paid.invoices == db.invoices[p.invoiceId := PaidInvoice(row, p)]
              && paid.subscriptions
                 == db.subscriptions[row.subscriptionId :=
                 PaidSubscription(db.subscriptions[row.subscriptionId], row, p)]
  {
  }

  // ---------------------------------------------------------------- a checkout reported again

  /** handleCheckoutCompleted for a session without a Stripe subscription. */
  function CheckoutEvent(db: Db, invoiceId: Id, session: Option<Id>): (Db, Outcome)
    requires Valid(db)
  {
    CheckoutIsValid(db, invoiceId, STRIPE, session, None);
    var recorded := RecordCheckout(db, invoiceId, STRIPE, session, None);
    if recorded.1.Done? then MarkPaid(recorded.0, CheckoutCompleted(invoiceId, session)) else recorded
  }

  lemma RedeliveryIsApplied(st: State, s: Id, plan: Plan, n: nat)
    requires ChainInv(st, s, plan) && n < |st.chain|
    ensures var id := st.chain[n];
            && id in st.db.invoices && IsReplay(st, CheckoutCompleted(id, st.db.invoices[id].externalCheckoutSessionId))
            && MarkPaid(st.db, CheckoutCompleted(id, st.db.invoices[id].externalCheckoutSessionId)).1.Done?
  {
    var id := st.chain[n];
    assert IsLink(st.db, s, id);
    assert InvoiceFits(st.db, id, st.db.invoices[id]) && SubscriptionFits(st.db, s, st.db.subscriptions[s]);
  }

  lemma RedeliveryRecordsNothing(st: State, s: Id, plan: Plan, n: nat)
    requires ChainInv(st, s, plan) && n < |st.chain|
    ensures var id := st.chain[n];
            && id in st.db.invoices
            && RecordCheckout(st.db, id, STRIPE, st.db.invoices[id].externalCheckoutSessionId, None) == (st.db, Done)
  {
    var id := st.chain[n];
    assert IsLink(st.db, s, id);
    assert InvoiceFits(st.db, id, st.db.invoices[id]);
    assert st.db.invoices[id := st.db.invoices[id]] == st.db.invoices;
  }

  /** A completed checkout delivered once more, after its period has been followed by another, makes the old
      period the current one again. */
  lemma RedeliveredCheckoutMovesBack(st: State, s: Id, plan: Plan, n: nat)
    requires ChainInv(st, s, plan) && Current(st, s) && n < |st.chain| - 1
    ensures var id := st.chain[n];
            && id in st.db.invoices
            && var session := st.db.invoices[id].externalCheckoutSessionId;
               var after := Apply(st, s, ReplayPaid(CheckoutCompleted(id, session)));
               && CheckoutEvent(st.db, id, session) == (after.db, Done)
               && !Current(after, s)
               && s in after.db.subscriptions
               && after.db.subscriptions[s].currentPeriodStart == Some(st.db.invoices[id].periodStart)
  {
    var id := st.chain[n];
    RedeliveryIsApplied(st, s, plan, n);
    RedeliveryRecordsNothing(st, s, plan, n);
    var p := CheckoutCompleted(id, st.db.invoices[id].externalCheckoutSessionId);
    ReplayKeepsCurrentExactlyWhenLive(st, s, plan, p);
    ReplayWrites(st, s, plan, p);
  }

  lemma RenewalAddsLink(st: State, after: State, s: Id, settled: Settled, nextEnd: int, at: int)
    requires Links(st.db, s, st.chain) && SettlesLast(st, after, s, settled, nextEnd, at)
        && Renews(st.db.subscriptions[s])
    ensures |after.chain| == |st.chain| + 1 && after.chain[0] == st.chain[0]
  {
  }

  lemma SecondPeriodOpens(st: State, s: Id, plan: Plan, records: seq<UsageIndex.UsageRecord>, at: int)
    requires Starts(st, s, plan) && Renews(st.db.subscriptions[s])
    ensures var after := Apply(st, s, Settle(st.chain[0], records, at));
            && ChainInv(after, s, plan) && Current(after, s)
            && |after.chain| == 2 && after.chain[0] == st.chain[0]
  {
    var step := Settle(st.chain[0], records, at);
    assert IsLink(st.db, s, st.chain[0]);
    SettleKeepsInv(st, s, plan, step);
    SettleKeepsCurrent(st, s, plan, step);
    RenewalAddsLink(st, Apply(st, s, step), s, SettlementOf(st.db, records, st.chain[0]),
                    AddPlanPeriod(st.db.invoices[st.chain[0]].periodEnd), at);
  }

  /** The run that shows it: the first period is settled, the second opens, and the first checkout is reported again. */
  function SettleThenRedeliver(st: State, records: seq<UsageIndex.UsageRecord>, at: int, session: Option<Id>): seq<Step>
    requires st.chain != []
  {
    [Settle(st.chain[0], records, at), ReplayPaid(CheckoutCompleted(st.chain[0], session))]
  }

  lemma RunOfTwo(st: State, s: Id, plan: Plan, a: Step, b: Step)
    requires ChainInv(st, s, plan)
    ensures ChainInv(Apply(st, s, a), s, plan)
    ensures Run(st, s, plan, [a, b]) == Apply(Apply(st, s, a), s, b)
  {
    StepKeepsInv(st, s, plan, a);
    RunSnoc(st, s, plan, [], a);
    assert [] + [a] == [a];
    RunSnoc(st, s, plan, [a], b);
    assert [a] + [b] == [a, b];
  }

  lemma StaleAfterRedelivery(st: State, s: Id, plan: Plan)
    requires ChainInv(st, s, plan) && Current(st, s) && |st.chain| == 2
    ensures exists session :: !Current(Apply(st, s, ReplayPaid(CheckoutCompleted(st.chain[0], session))), s)
  {
    RedeliveredCheckoutMovesBack(st, s, plan, 0);
  }

  lemma StaleRun(st: State, renewed: State, s: Id, plan: Plan, step: Step, id: Id)
    requires ChainInv(st, s, plan) && renewed == Apply(st, s, step) && Current(renewed, s)
    requires |renewed.chain| == 2 && renewed.chain[0] == id
    ensures exists session :: !Current(Run(st, s, plan, [step, ReplayPaid(CheckoutCompleted(id, session))]), s)
  {
    StepKeepsInv(st, s, plan, step);
    StaleAfterRedelivery(renewed, s, plan);
    var session :| !Current(Apply(renewed, s, ReplayPaid(CheckoutCompleted(id, session))), s);
    RunOfTwo(st, s, plan, step, ReplayPaid(CheckoutCompleted(id, session)));
  }

  /** A renewal, then the first checkout reported again: the current period is no longer the last one. */
  lemma RedeliveryRun(st: State, s: Id, plan: Plan, records: seq<UsageIndex.UsageRecord>, at: int)
    requires Starts(st, s, plan) && Renews(st.db.subscriptions[s])
    ensures exists session :: !Current(Run(st, s, plan, SettleThenRedeliver(st, records, at, session)), s)
  {
    SecondPeriodOpens(st, s, plan, records, at);
    var step := Settle(st.chain[0], records, at);
    StaleRun(st, Apply(st, s, step), s, plan, step, st.chain[0]);
    var session :| !Current(Run(st, s, plan, [step, ReplayPaid(CheckoutCompleted(st.chain[0], session))]), s);
    assert SettleThenRedeliver(st, records, at, session) == [step, ReplayPaid(CheckoutCompleted(st.chain[0], session))];
  }

  lemma StartedStateExists(db: Db, s: Id, plan: Plan, periodStart: int, createdAt: int, session: Option<Id>)
    requires Valid(db) && ValidPlans(db) && s !in db.subscriptions && ValidPlan(plan) && plan.priceCents == 0
    requires SessionUnused(db, session)
    ensures exists st :: Starts(st, s, plan) && Renews(st.db.subscriptions[s])
  {
    CheckoutStartsChain(db, s, plan, periodStart, createdAt, session);
  }

  /** Every free subscription that is sold and renews once shows it: there is a state its checkout starts it in, and
      a run of one settlement and one repeated report after which its current period is not the last one. */
  lemma EveryRenewalCanBeMovedBack(
    db: Db, s: Id, plan: Plan, periodStart: int, createdAt: int, session: Option<Id>, at: int)
    requires Valid(db) && ValidPlans(db) && s !in db.subscriptions && ValidPlan(plan) && plan.priceCents == 0
    requires SessionUnused(db, session)
    ensures exists st, steps :: Starts(st, s, plan) && |steps| == 2 && !Current(Run(st, s, plan, steps), s)
  {
    StartedStateExists(db, s, plan, periodStart, createdAt, session);
    var st :| Starts(st, s, plan) && Renews(st.db.subscriptions[s]);
    RedeliveryRun(st, s, plan, [], at);
    var again :| !Current(Run(st, s, plan, SettleThenRedeliver(st, [], at, again)), s);
    assert |SettleThenRedeliver(st, [], at, again)| == 2;
  }
}
