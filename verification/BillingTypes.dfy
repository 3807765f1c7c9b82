/** Rows of the billing tables. Identifiers are opaque numbers, times are milliseconds. */
module BillingTypes {
  import opened Common

  type Id = nat

  datatype Provider = MOCK | STRIPE

  datatype SubscriptionStatus = PENDING | ACTIVE | CANCELED | SUB_PAST_DUE

  datatype InvoiceStatus = DRAFT | PAID | PAST_DUE | VOID

  datatype InvoiceKind = SUBSCRIPTION | OVERAGE

  datatype Plan = Plan(
    priceCents: int,
    quotaRequests: int,
    rateLimitRpm: Option<int>,
    allowOverage: bool,
    overageUnitRequests: Option<int>,
    overagePriceCents: Option<int>)

  datatype Subscription = Subscription(
    plan: Plan,
    provider: Provider,
    externalSubscriptionId: Option<Id>,
    status: SubscriptionStatus,
    currentPeriodStart: Option<int>,
    currentPeriodEnd: Option<int>,
    gracePeriodEndsAt: Option<int>,
    cancelAtPeriodEnd: bool,
    createdAt: int)

  datatype RetryState = RetryState(
    retryCount: int,
    nextRetryAt: Option<int>,
    lastRetryAt: Option<int>,
    exhaustedAt: Option<int>,
    lastError: Option<string>)

  datatype Invoice = Invoice(
    subscriptionId: Id,
    provider: Provider,
    kind: InvoiceKind,
    externalCheckoutSessionId: Option<Id>,
    externalInvoiceId: Option<Id>,
    overageSourceInvoiceId: Option<Id>,
    overageProcessedAt: Option<int>,
    overageRequests: Option<int>,
    overageUnits: Option<int>,
    amountCents: int,
    status: InvoiceStatus,
    attemptCount: int,
    nextPaymentAttemptAt: Option<int>,
    retry: RetryState,
    periodStart: int,
    periodEnd: int)

  /** The columns that say what an invoice charges for. */
  predicate SameCharge(a: Invoice, b: Invoice) {
    && a.subscriptionId == b.subscriptionId && a.kind == b.kind && a.overageSourceInvoiceId == b.overageSourceInvoiceId
    && a.overageRequests == b.overageRequests && a.overageUnits == b.overageUnits && a.amountCents == b.amountCents
    && a.periodStart == b.periodStart && a.periodEnd == b.periodEnd
  }
}
