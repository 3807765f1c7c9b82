/** Settling a paid period and opening the next one (billing-overage-collection.service.ts). */
module Settlement {
  import opened Common
  import opened UtcCalendar
  import opened BillingTypes
  import opened BillingDb
  import opened ManagedRetryPolicy

  datatype Settled = Settled(overageRequests: int, overageUnits: int, amountCents: int)

  /** !x of a nullable number */
  predicate Falsy(x: Option<int>) { x.None? || x.value == 0 }

  /** Math.ceil(a / b) of integers */
  function CeilDiv(a: int, b: int): int
    requires b > 0
  {
    (a + b - 1) / b
  }

  /** What the plan schema lets in: positive units and prices. */
  predicate ValidPlan(plan: Plan) {
    && plan.priceCents >= 0 && plan.quotaRequests >= 1
    && (plan.overageUnitRequests.Some? ==> plan.overageUnitRequests.value >= 1)
    && (plan.overagePriceCents.Some? ==> plan.overagePriceCents.value >= 1)
  }

  predicate ChargesOverage(plan: Plan) {
    plan.allowOverage && plan.overageUnitRequests.Some? && plan.overagePriceCents.Some?
  }

  /** buildSettlement */
  function BuildSettlement(plan: Plan, usedRequests: int): Settled
    requires ValidPlan(plan)
  {
    if !plan.allowOverage || Falsy(plan.overageUnitRequests) || Falsy(plan.overagePriceCents)
        || usedRequests <= plan.quotaRequests
    then Settled(0, 0, 0)
    else
      var overageRequests := usedRequests - plan.quotaRequests;
      var overageUnits := CeilDiv(overageRequests, plan.overageUnitRequests.value);
      Settled(overageRequests, overageUnits, overageUnits * plan.overagePriceCents.value)
  }

  datatype OverageState = OverageState(
    overageEnabled: bool, overageUnitRequests: Option<int>, overagePriceCents: Option<int>,
    overageRequests: int, projectedOverageAmountCents: int)

  /** getOverageState of usage.service.ts, which prices the same usage for the API's answers. */
  function GetOverageState(plan: Plan, usedRequests: int): OverageState
    requires ValidPlan(plan)
  {
    if !plan.allowOverage || Falsy(plan.overageUnitRequests) || Falsy(plan.overagePriceCents)
        || usedRequests <= plan.quotaRequests
    then OverageState(plan.allowOverage, plan.overageUnitRequests, plan.overagePriceCents, 0, 0)
    else
      var overageRequests := usedRequests - plan.quotaRequests;
      var billedUnits := CeilDiv(overageRequests, plan.overageUnitRequests.value);
      OverageState(plan.allowOverage, plan.overageUnitRequests, plan.overagePriceCents, overageRequests,
                   billedUnits * plan.overagePriceCents.value)
  }

  lemma UnitsAreLeast(overage: int, unit: int, units: int)
    requires unit > 0
    ensures units >= CeilDiv(overage, unit) <==> units * unit >= overage
  {
    var q := CeilDiv(overage, unit);
    assert q * unit <= overage + unit - 1 < q * unit + unit;
    if units >= q {
      assert (units - q) * unit >= 0;
    } else {
      assert (q - 1 - units) * unit >= 0;
    }
  }

  /** What is charged is what the API projected; the units are the fewest that cover the overage; and a
      charge falls due exactly when a plan that charges overage is exceeded. */
  lemma SettlementIsWhatWasProjected(plan: Plan, usedRequests: int, units: int)
    requires ValidPlan(plan)
    ensures var s, o := BuildSettlement(plan, usedRequests), GetOverageState(plan, usedRequests);
            && s.overageRequests == o.overageRequests
               == (if ChargesOverage(plan) && usedRequests > plan.quotaRequests
                   then usedRequests - plan.quotaRequests else 0)
            && s.amountCents == o.projectedOverageAmountCents
            && (s.amountCents > 0 <==> ChargesOverage(plan) && usedRequests > plan.quotaRequests)
            && (s.amountCents > 0 ==>
                  && (units >= s.overageUnits <==> units * plan.overageUnitRequests.value >= s.overageRequests)
                  && s.amountCents == s.overageUnits * plan.overagePriceCents.value)
  {
    if ChargesOverage(plan) && usedRequests > plan.quotaRequests {
      var overage, unit := usedRequests - plan.quotaRequests, plan.overageUnitRequests.value;
      UnitsAreLeast(overage, unit, units);
      UnitsAreLeast(overage, unit, 0);
      assert BuildSettlement(plan, usedRequests).overageUnits >= 1;
      var price, n := plan.overagePriceCents.value, BuildSettlement(plan, usedRequests).overageUnits;
      assert n * price >= 1 by {
        assert (n - 1) * price >= 0;
      }
    }
  }

  // ---------------------------------------------------------------- the next period

  /** addPlanPeriod for the one period there is, a month. */
  function AddPlanPeriod(periodStart: int): int { SetUtcMonth(periodStart, MonthOf(periodStart) + 1) }

  /** A period is as long as the calendar month it starts in, 28 to 31 days, even when its end date overflows. */
  lemma PeriodLength(t: int)
    ensures AddPlanPeriod(t) == t + DaysInMonth(YearOf(t), MonthOf(t)) * 86400000
    ensures t + 28 * 86400000 <= AddPlanPeriod(t) <= t + 31 * 86400000
  {
    MonthAdvance(t);
  }

  /** isLocalManagedStripeSubscription */
  predicate IsLocallyManaged(sub: Subscription) {
    sub.provider == STRIPE && sub.externalSubscriptionId.None? && sub.plan.priceCents == 0 && sub.currentPeriodEnd.Some?
  }

  predicate IsSettleable(row: Invoice) {
    row.kind == SUBSCRIPTION && row.status == PAID && row.provider == STRIPE && row.overageProcessedAt.None?
  }

  /** derivedOverageInvoice */
  predicate HasOverageInvoice(db: Db, source: Id) {
    exists id :: id in db.invoices && db.invoices[id].overageSourceInvoiceId == Some(source)
  }

  function OverageInvoice(source: Id, row: Invoice, s: Settled): Invoice {
    Invoice(row.subscriptionId, STRIPE, OVERAGE, None, None, Some(source), None, Some(s.overageRequests),
        Some(s.overageUnits),
            s.amountCents, DRAFT, 0, None, CLEARED_RETRY_STATE,
            row.periodStart, row.periodEnd)
  }

  function NextInvoice(row: Invoice, plan: Plan, nextEnd: int): Invoice {
    Invoice(row.subscriptionId, STRIPE, SUBSCRIPTION, None, None, None, None, None, None,
            plan.priceCents, PAID, 0, None, CLEARED_RETRY_STATE,
            row.periodEnd, nextEnd)
  }

  /** The invoice for the period's overage, if any is due and none exists yet. */
  function Charged(db: Db, id: Id, row: Invoice, settled: Settled): Db {
    if settled.amountCents > 0 && !HasOverageInvoice(db, id) then Added(db, OverageInvoice(id, row, settled)) else db
  }

  function CanceledSubscription(sub: Subscription): Subscription {
    sub.(status := CANCELED, cancelAtPeriodEnd := false, gracePeriodEndsAt := None)
  }

  function RenewedSubscription(sub: Subscription, start: int, end: int): Subscription {
    sub.(status := ACTIVE, currentPeriodStart := Some(start), currentPeriodEnd := Some(end), gracePeriodEndsAt := None)
  }

  /** A locally managed subscription is ended, or moved to the period after the invoice's. */
  function Renewed(db: Db, row: Invoice, nextEnd: int): Db
    requires row.subscriptionId in db.subscriptions
  {
    var s := row.subscriptionId;
    var sub := db.subscriptions[s];
    if !IsLocallyManaged(sub) then db
    else if sub.cancelAtPeriodEnd then db.(subscriptions := db.subscriptions[s := CanceledSubscription(sub)])
    else if sub.status == CANCELED then db
    else Added(db, NextInvoice(row, sub.plan, nextEnd))
           .(subscriptions := db.subscriptions[s := RenewedSubscription(sub, row.periodEnd, nextEnd)])
  }

  /** materializeSourceInvoice on a settleable invoice, given its settlement and where the period after
      it ends. */
  function Materialized(db: Db, id: Id, settled: Settled, nextEnd: int, processedAt: int): Db
    requires id in db.invoices && db.invoices[id].subscriptionId in db.subscriptions
  {
    var row := db.invoices[id];
    var renewed := Renewed(Charged(db, id, row, settled), row, nextEnd);
    renewed.(invoices := renewed.invoices[id := row.(overageProcessedAt := Some(processedAt))])
  }
}
