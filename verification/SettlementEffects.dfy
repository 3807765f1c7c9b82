/** What settling a paid period leaves in the tables, said of the columns and of the service a subscription gives:
    which periods are settled, what is billed for them, and which subscriptions go on to a next period. */
module SettlementEffects {
  import opened Common
  import opened UtcCalendar
  import opened BillingTypes
  import opened BillingDb
  import opened ManagedRetryPolicy
  import opened Settlement
  import opened Metering

  /** A period that was paid for at Stripe and has not been settled. */
  predicate IsPaidPeriod(db: Db, id: Id) {
    && id in db.invoices && db.invoices[id].kind == SUBSCRIPTION && db.invoices[id].status == PAID
    && db.invoices[id].provider == STRIPE && db.invoices[id].overageProcessedAt.None?
  }

  /** A free subscription at Stripe that Stripe runs no subscription for. */
  predicate RunsLocally(sub: Subscription) {
    && sub.provider == STRIPE && sub.externalSubscriptionId.None? && sub.plan.priceCents == 0
    && sub.currentPeriodEnd.Some?
  }

  predicate Continues(sub: Subscription) { RunsLocally(sub) && !sub.cancelAtPeriodEnd && sub.status != CANCELED }

  /** The plan bills what is used beyond its quota, and so much was used. */
  predicate IsExceeded(plan: Plan, used: int) {
    && plan.allowOverage && plan.overageUnitRequests.Some? && plan.overagePriceCents.Some?
    && used > plan.quotaRequests
  }

  predicate IsBilled(db: Db, id: Id) {
    exists k :: k in db.invoices && db.invoices[k].overageSourceInvoiceId == Some(id)
  }

  predicate IsUntouched(row: Invoice) {
    && row.externalCheckoutSessionId.None? && row.externalInvoiceId.None? && row.overageProcessedAt.None?
    && row.attemptCount == 0 && row.nextPaymentAttemptAt.None? && row.retry == RetryState(0, None, None, None, None)
  }

  /** The invoice for a period's overage: the requests beyond the quota, in the fewest units that cover them. */
  predicate BillsOverage(bill: Invoice, id: Id, row: Invoice, plan: Plan, used: int)
    requires IsExceeded(plan, used)
  {
    && bill.kind == OVERAGE && bill.status == DRAFT && bill.provider == STRIPE && IsUntouched(bill)
    && bill.subscriptionId == row.subscriptionId && bill.overageSourceInvoiceId == Some(id)
    && bill.periodStart == row.periodStart && bill.periodEnd == row.periodEnd
    && bill.overageRequests == Some(used - plan.quotaRequests)
    && bill.overageUnits.Some?
    && (bill.overageUnits.value - 1) * plan.overageUnitRequests.value < used - plan.quotaRequests
    && bill.overageUnits.value * plan.overageUnitRequests.value >= used - plan.quotaRequests
    && bill.amountCents == bill.overageUnits.value * plan.overagePriceCents.value > 0
  }

  function MonthAfter(t: int): int { t + DaysInMonth(YearOf(t), MonthOf(t)) * 86400000 }

  /** The invoice for the next period: paid for, at the plan's price, for the month after the period. */
  predicate OpensPeriod(next: Invoice, row: Invoice, plan: Plan) {
    && next.kind == SUBSCRIPTION && next.status == PAID && next.provider == STRIPE && IsUntouched(next)
    && next.subscriptionId == row.subscriptionId && next.amountCents == plan.priceCents
    && next.overageSourceInvoiceId.None? && next.overageRequests.None? && next.overageUnits.None?
    && next.periodStart == row.periodEnd && next.periodEnd == MonthAfter(row.periodEnd)
  }

  /** What the subscription is sold as and who runs it stays. */
  predicate StaysSold(sub: Subscription, after: Subscription) {
    && after.plan == sub.plan && after.createdAt == sub.createdAt && after.provider == sub.provider
    && after.externalSubscriptionId == sub.externalSubscriptionId
  }

  /** The subscription goes on to serve exactly the next period, ends, or is none of the settlement's business. */
  ghost predicate GoesOn(sub: Subscription, after: Subscription, end: int) {
    && StaysSold(sub, after)
    && (Continues(sub) ==>
          && after.status == ACTIVE && after.gracePeriodEndsAt.None? && !after.cancelAtPeriodEnd
          && ServesExactly(after, end, MonthAfter(end)))
    && (RunsLocally(sub) && sub.cancelAtPeriodEnd ==>
          && after.status == CANCELED && after.gracePeriodEndsAt.None? && !after.cancelAtPeriodEnd
          && forall t :: !Serves(after, t))
    && (!Continues(sub) && !(RunsLocally(sub) && sub.cancelAtPeriodEnd) ==> after == sub)
  }

  /** The invoices after a settlement are those before, this one marked, and new ones under the next free ids, the one
      for overage first. */
  ghost predicate InvoicesGrow(
    db: Db, after: map<Id, Invoice>, nextInvoiceId: Id, id: Id, bills: bool, opens: bool, processedAt: int)
    requires id in db.invoices
  {
    var n := db.nextInvoiceId;
    var m := if bills then n + 1 else n;
    && n !in db.invoices && m !in db.invoices
    && after.Keys == db.invoices.Keys + (if bills then {n} else {}) + (if opens then {m} else {})
    && nextInvoiceId == (if opens then m + 1 else m)
    && after[id] == db.invoices[id].(overageProcessedAt := Some(processedAt))
    && (forall k :: k in db.invoices && k != id ==> after[k] == db.invoices[k])
  }

  ghost predicate InvoicesShow(db: Db, after: Db, id: Id, used: int, processedAt: int)
    requires id in db.invoices && db.invoices[id].subscriptionId in db.subscriptions
  {
    var row, sub := db.invoices[id], db.subscriptions[db.invoices[id].subscriptionId];
    var bills, opens := IsExceeded(sub.plan, used) && !IsBilled(db, id), Continues(sub);
    var n := db.nextInvoiceId;
    var m := if bills then n + 1 else n;
    && InvoicesGrow(db, after.invoices, after.nextInvoiceId, id, bills, opens, processedAt)
    && (bills ==> BillsOverage(after.invoices[n], id, row, sub.plan, used))
    && (opens ==> OpensPeriod(after.invoices[m], row, sub.plan))
  }

  ghost predicate SubscriptionsShow(db: Db, after: Db, s: Id, end: int)
    requires s in db.subscriptions
  {
    && after.subscriptions.Keys == db.subscriptions.Keys
    && (forall k :: k in db.subscriptions && k != s ==> after.subscriptions[k] == db.subscriptions[k])
    && GoesOn(db.subscriptions[s], after.subscriptions[s], end)
  }

  /** The tables after a settlement. */
  ghost predicate SettlementShows(db: Db, after: Db, id: Id, used: int, processedAt: int)
    requires id in db.invoices && db.invoices[id].subscriptionId in db.subscriptions
  {
    && InvoicesShow(db, after, id, used, processedAt)
    && SubscriptionsShow(db, after, db.invoices[id].subscriptionId, db.invoices[id].periodEnd)
  }

  lemma ExceededIsCharged(plan: Plan, used: int)
    requires ValidPlan(plan)
    ensures BuildSettlement(plan, used).amountCents > 0 <==> IsExceeded(plan, used)
    ensures BuildSettlement(plan, used).amountCents >= 0
  {
    SettlementIsWhatWasProjected(plan, used, 0);
  }

  lemma OverageIsBilled(plan: Plan, used: int, id: Id, row: Invoice)
    requires ValidPlan(plan) && IsExceeded(plan, used)
    ensures BillsOverage(OverageInvoice(id, row, BuildSettlement(plan, used)), id, row, plan, used)
  {
    var units := BuildSettlement(plan, used).overageUnits;
    SettlementIsWhatWasProjected(plan, used, units);
    SettlementIsWhatWasProjected(plan, used, units - 1);
  }

  lemma RenewedServesNext(sub: Subscription, end: int, nextEnd: int)
    requires Continues(sub) && nextEnd == MonthAfter(end)
    ensures GoesOn(sub, RenewedSubscription(sub, end, nextEnd), end)
  {
  }

  lemma CanceledServesNothing(sub: Subscription, end: int)
    requires RunsLocally(sub) && sub.cancelAtPeriodEnd
    ensures GoesOn(sub, CanceledSubscription(sub), end)
  {
  }

  lemma SubscriptionGoesOn(db: Db, row: Invoice, nextEnd: int)
    requires row.subscriptionId in db.subscriptions && nextEnd == MonthAfter(row.periodEnd)
    ensures SubscriptionsShow(db, Renewed(db, row, nextEnd), row.subscriptionId, row.periodEnd)
  {
    var sub := db.subscriptions[row.subscriptionId];
    if Continues(sub) {
      RenewedServesNext(sub, row.periodEnd, nextEnd);
    } else if RunsLocally(sub) && sub.cancelAtPeriodEnd {
      CanceledServesNothing(sub, row.periodEnd);
    }
  }

  lemma WritesInTurn(
    db: Db, id: Id, bill: Option<Invoice>, next: Option<Invoice>, processedAt: int)
    requires Valid(db) && id in db.invoices
    ensures var n := db.nextInvoiceId;
            var charged := if bill.Some? then db.invoices[n := bill.value] else db.invoices;
            var m := if bill.Some? then n + 1 else n;
            var renewed := if next.Some? then charged[m := next.value] else charged;
            var after := renewed[id := db.invoices[id].(overageProcessedAt := Some(processedAt))];
            && InvoicesGrow(db, after, if next.Some? then m + 1 else m, id, bill.Some?, next.Some?, processedAt)
            && (bill.Some? ==> after[n] == bill.value)
            && (next.Some? ==> after[m] == next.value)
  {
  }

  lemma InvoicesAreThose(db: Db, id: Id, used: int, nextEnd: int, processedAt: int)
    requires Valid(db) && id in db.invoices && db.invoices[id].subscriptionId in db.subscriptions
    requires ValidPlan(db.subscriptions[db.invoices[id].subscriptionId].plan)
    ensures var row := db.invoices[id];
            var plan := db.subscriptions[row.subscriptionId].plan;
            var settled := BuildSettlement(plan, used);
            var after, n := Materialized(db, id, settled, nextEnd, processedAt), db.nextInvoiceId;
            var bills := IsExceeded(plan, used) && !IsBilled(db, id);
            var opens := Continues(db.subscriptions[row.subscriptionId]);
            var m := if bills then n + 1 else n;
            && InvoicesGrow(db, after.invoices, after.nextInvoiceId, id, bills, opens, processedAt)
            && (bills ==> after.invoices[n] == OverageInvoice(id, row, settled))
            && (opens ==> after.invoices[m] == NextInvoice(row, plan, nextEnd))
  {
    var row := db.invoices[id];
    var plan := db.subscriptions[row.subscriptionId].plan;
    ExceededIsCharged(plan, used);
    assert HasOverageInvoice(db, id) <==> IsBilled(db, id);
    var bills, opens := IsExceeded(plan, used) && !IsBilled(db, id), Continues(db.subscriptions[row.subscriptionId]);
    WritesInTurn(db, id, if bills then Some(OverageInvoice(id, row, BuildSettlement(plan, used))) else None,
      if opens then Some(NextInvoice(row, plan, nextEnd)) else None, processedAt);
  }

  lemma NextInvoiceOpens(row: Invoice, plan: Plan, nextEnd: int)
    requires nextEnd == MonthAfter(row.periodEnd)
    ensures OpensPeriod(NextInvoice(row, plan, nextEnd), row, plan)
  {
  }

  lemma InvoicesTakeEffect(db: Db, id: Id, used: int, nextEnd: int, processedAt: int)
    requires Valid(db) && id in db.invoices && db.invoices[id].subscriptionId in db.subscriptions
    requires ValidPlan(db.subscriptions[db.invoices[id].subscriptionId].plan)
    requires nextEnd == MonthAfter(db.invoices[id].periodEnd)
    ensures var settled := BuildSettlement(db.subscriptions[db.invoices[id].subscriptionId].plan, used);
            InvoicesShow(db, Materialized(db, id, settled, nextEnd, processedAt), id, used, processedAt)
  {
    var row := db.invoices[id];
    var plan := db.subscriptions[row.subscriptionId].plan;
    InvoicesAreThose(db, id, used, nextEnd, processedAt);
    NextInvoiceOpens(row, plan, nextEnd);
    if IsExceeded(plan, used) {
      OverageIsBilled(plan, used, id, row);
    }
  }

  /** Settling a period for what was used in it. */
  lemma SettlementTakesEffect(db: Db, id: Id, used: int, processedAt: int)
    requires Valid(db) && id in db.invoices && db.invoices[id].subscriptionId in db.subscriptions
    requires ValidPlan(db.subscriptions[db.invoices[id].subscriptionId].plan)
    ensures var row := db.invoices[id];
            var settled := BuildSettlement(db.subscriptions[row.subscriptionId].plan, used);
            var after := Materialized(db, id, settled, AddPlanPeriod(row.periodEnd), processedAt);
            SettlementShows(db, after, id, used, processedAt)
  {
    var row := db.invoices[id];
    var plan := db.subscriptions[row.subscriptionId].plan;
    var charged := Charged(db, id, row, BuildSettlement(plan, used));
    PeriodLength(row.periodEnd);
    InvoicesTakeEffect(db, id, used, AddPlanPeriod(row.periodEnd), processedAt);
    assert charged.subscriptions == db.subscriptions;
    SubscriptionGoesOn(charged, row, AddPlanPeriod(row.periodEnd));
  }
}
