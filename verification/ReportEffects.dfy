/** What the handlers of subscriptions.service.ts leave in the tables, said of the columns and of the service a
    subscription gives: which invoice a report reaches, what it shows afterwards, and what is served from then on. */
module ReportEffects {
  import opened Common
  import opened BillingTypes
  import opened BillingDb
  import opened ManagedRetryPolicy
  import opened Metering
  import opened EventRedelivery

  /** A reported identifier is stored; one that was not reported stays. */
  predicate Names(reported: Option<Id>, before: Option<Id>, after: Option<Id>) {
    if reported.Some? then after == reported else after == before
  }

  /** Only the invoice and, unless it is for overage, its subscription have changed. */
  ghost predicate OnlyRows(db: Db, after: Db, id: Id)
    requires id in db.invoices
  {
    var row := db.invoices[id];
    && after.invoices.Keys == db.invoices.Keys && after.subscriptions.Keys == db.subscriptions.Keys
    && after.nextInvoiceId == db.nextInvoiceId
    && (forall k :: k in db.invoices && k != id ==> after.invoices[k] == db.invoices[k])
    && (forall s :: s in db.subscriptions && (s != row.subscriptionId || row.kind == OVERAGE) ==>
          after.subscriptions[s] == db.subscriptions[s])
  }

  /** No report changes what a subscription is sold as. */
  predicate SameSale(a: Subscription, b: Subscription) {
    a.plan == b.plan && a.cancelAtPeriodEnd == b.cancelAtPeriodEnd && a.createdAt == b.createdAt
  }

  predicate SameBill(a: Invoice, b: Invoice) { SameCharge(a, b) && a.overageProcessedAt == b.overageProcessedAt }

  /** No retry was made or is to come, and no message is left of one. */
  predicate IsIdle(retry: RetryState) {
    && retry.retryCount <= 0 && retry.nextRetryAt.None? && retry.lastRetryAt.None? && retry.exhaustedAt.None?
    && (retry.lastError.None? || retry.lastError == Some(""))
  }

  // ---------------------------------------------------------------- payments

  /** The invoice after a payment: PAID, nothing left to attempt or retry, and charging what it did. */
  predicate ShowsPayment(row: Invoice, after: Invoice, p: PaidParams) {
    && after.status == PAID && SameBill(row, after) && after.provider == p.provider
    && after.nextPaymentAttemptAt.None? && IsIdle(after.retry)
    && (if p.attemptCount.Some? then Some(after.attemptCount) == p.attemptCount
        else after.attemptCount == row.attemptCount)
    && Names(p.externalInvoiceId, row.externalInvoiceId, after.externalInvoiceId)
    && Names(p.checkoutSessionId, row.externalCheckoutSessionId, after.externalCheckoutSessionId)
  }

  /** The subscription after a payment for the period: ACTIVE, served in exactly that period, with no deadline. */
  ghost predicate ServesPaidPeriod(sub: Subscription, after: Subscription, from: int, until: int, p: PaidParams) {
    && after.status == ACTIVE && after.gracePeriodEndsAt.None? && ServesExactly(after, from, until)
    && SameSale(sub, after) && after.provider == p.provider
    && Names(p.externalSubscriptionId, sub.externalSubscriptionId, after.externalSubscriptionId)
  }

  ghost predicate PaymentShows(db: Db, after: Db, p: PaidParams)
    requires p.invoiceId in db.invoices && db.invoices[p.invoiceId].subscriptionId in db.subscriptions
  {
    var id, row := p.invoiceId, db.invoices[p.invoiceId];
    var s := row.subscriptionId;
    && OnlyRows(db, after, id)
    && ShowsPayment(row, after.invoices[id], p)
    && (row.kind == SUBSCRIPTION ==>
          ServesPaidPeriod(db.subscriptions[s], after.subscriptions[s], row.periodStart, row.periodEnd, p))
  }

  /** A report about another external invoice than the one a PAID invoice is bound to. */
  predicate IsForAnother(db: Db, id: Id, externalInvoiceId: Option<Id>) {
    && id in db.invoices && db.invoices[id].status == PAID
    && db.invoices[id].externalInvoiceId.Some? && externalInvoiceId.Some?
    && db.invoices[id].externalInvoiceId != externalInvoiceId
  }

  /** No other invoice has these identifiers. */
  predicate IsFree(db: Db, id: Id, externalInvoiceId: Option<Id>, session: Option<Id>) {
    forall k :: k in db.invoices && k != id ==>
      && !Clash(db.invoices[k].externalInvoiceId, externalInvoiceId)
      && !Clash(db.invoices[k].externalCheckoutSessionId, session)
  }

  predicate IsFreeSubscription(db: Db, s: Id, externalSubscriptionId: Option<Id>) {
    forall k :: k in db.subscriptions && k != s ==>
      !Clash(db.subscriptions[k].externalSubscriptionId, externalSubscriptionId)
  }

  /** A report on a stored invoice is let in exactly when what it names belongs to no other row. */
  predicate IsLetIn(
    db: Db, id: Id, externalInvoiceId: Option<Id>, session: Option<Id>, externalSubscriptionId: Option<Id>)
    requires id in db.invoices
  {
    && IsFree(db, id, externalInvoiceId, session)
    && (db.invoices[id].kind == OVERAGE
        || IsFreeSubscription(db, db.invoices[id].subscriptionId, externalSubscriptionId))
  }

  lemma InvoiceReportFits(db: Db, id: Id, row: Invoice, externalInvoiceId: Option<Id>, session: Option<Id>)
    requires Valid(db) && id in db.invoices && SameCharge(db.invoices[id], row)
    requires row.externalInvoiceId == Coalesce(externalInvoiceId, db.invoices[id].externalInvoiceId)
    requires row.externalCheckoutSessionId == Coalesce(session, db.invoices[id].externalCheckoutSessionId)
    ensures InvoiceFits(db, id, row) <==> IsFree(db, id, externalInvoiceId, session)
  {
    assert InvoiceFits(db, id, db.invoices[id]);
  }

  lemma SubscriptionReportFits(db: Db, s: Id, sub: Subscription, externalSubscriptionId: Option<Id>)
    requires Valid(db) && s in db.subscriptions
    requires sub.externalSubscriptionId == Coalesce(externalSubscriptionId, db.subscriptions[s].externalSubscriptionId)
    ensures SubscriptionFits(db, s, sub) <==> IsFreeSubscription(db, s, externalSubscriptionId)
  {
    assert SubscriptionFits(db, s, db.subscriptions[s]);
  }

  lemma ReportFits(
    db: Db, id: Id, row: Invoice, externalInvoiceId: Option<Id>, session: Option<Id>, s: Id, sub: Subscription,
    externalSubscriptionId: Option<Id>)
    requires Valid(db) && id in db.invoices && db.invoices[id].subscriptionId == s && s in db.subscriptions
    requires SameCharge(db.invoices[id], row)
    requires row.externalInvoiceId == Coalesce(externalInvoiceId, db.invoices[id].externalInvoiceId)
    requires row.externalCheckoutSessionId == Coalesce(session, db.invoices[id].externalCheckoutSessionId)
    requires sub.externalSubscriptionId == Coalesce(externalSubscriptionId, db.subscriptions[s].externalSubscriptionId)
    ensures InvoiceFits(db, id, row) <==> IsFree(db, id, externalInvoiceId, session)
    ensures SubscriptionFits(db, s, sub) <==> IsFreeSubscription(db, s, externalSubscriptionId)
    ensures Both(db, id, row, s, sub).1.Done? <==> InvoiceFits(db, id, row) && SubscriptionFits(db, s, sub)
  {
    InvoiceReportFits(db, id, row, externalInvoiceId, session);
    SubscriptionReportFits(db, s, sub, externalSubscriptionId);
    BothAreLetIn(db, id, row, s, sub);
  }

  lemma BothAreLetIn(db: Db, id: Id, row: Invoice, s: Id, sub: Subscription)
    ensures Both(db, id, row, s, sub).1.Done? <==> InvoiceFits(db, id, row) && SubscriptionFits(db, s, sub)
  {
  }

  lemma PaidRowShows(row: Invoice, p: PaidParams)
    ensures ShowsPayment(row, PaidInvoice(row, p), p)
  {
  }

  lemma PaidSubscriptionServes(sub: Subscription, row: Invoice, p: PaidParams)
    ensures ServesPaidPeriod(sub, PaidSubscription(sub, row, p), row.periodStart, row.periodEnd, p)
  {
  }

  /** The two updates of a handler, when both are let in. */
  lemma BothRows(db: Db, id: Id, row: Invoice, s: Id, sub: Subscription)
    requires id in db.invoices && db.invoices[id].subscriptionId == s && s in db.subscriptions
    ensures var (after, outcome) := WithInvoice(db, id, row);
            outcome.Done? ==>
              after.invoices.Keys == db.invoices.Keys && after.invoices[id] == row && OnlyRows(db, after, id)
    ensures db.invoices[id].kind != OVERAGE ==>
              var (after, outcome) := Both(db, id, row, s, sub);
              outcome.Done? ==>
                && after.invoices.Keys == db.invoices.Keys && after.subscriptions.Keys == db.subscriptions.Keys
                && after.invoices[id] == row && after.subscriptions[s] == sub && OnlyRows(db, after, id)
  {
  }

  /** A payment report does nothing exactly when its invoice is unknown or paid for under another id; what it does
      otherwise shows in the two rows alone. */
  lemma PaymentTakesEffect(db: Db, p: PaidParams)
    requires Valid(db)
    ensures var (after, outcome) := MarkPaid(db, p);
            && (outcome.InvoiceNotFound? <==> p.invoiceId !in db.invoices)
            && (outcome.Ignored? <==> IsForAnother(db, p.invoiceId, p.externalInvoiceId))
            && (!outcome.Done? && !outcome.UniqueViolation? ==> after == db)
            && (outcome.Done? ==>
                  p.invoiceId in db.invoices && db.invoices[p.invoiceId].subscriptionId in db.subscriptions
                  && PaymentShows(db, after, p))
  {
    if p.invoiceId in db.invoices && !ReportIgnored(db.invoices[p.invoiceId], p.externalInvoiceId) {
      var id, row := p.invoiceId, db.invoices[p.invoiceId];
      assert Refers(db, row);
      var s, sub := row.subscriptionId, db.subscriptions[row.subscriptionId];
      PaidUnfolds(db, p, row, sub);
      AppliedPaymentShows(db, MarkPaid(db, p), p, row, sub);
    }
  }

  lemma AppliedPaymentShows(db: Db, result: (Db, Outcome), p: PaidParams, row: Invoice, sub: Subscription)
    requires p.invoiceId in db.invoices && db.invoices[p.invoiceId] == row
    requires row.subscriptionId in db.subscriptions && db.subscriptions[row.subscriptionId] == sub
    requires result == if row.kind == OVERAGE then WithInvoice(db, p.invoiceId, PaidInvoice(row, p))
             else Both(db, p.invoiceId, PaidInvoice(row, p), row.subscriptionId, PaidSubscription(sub, row, p))
    ensures result.1.Done? ==> PaymentShows(db, result.0, p)
    ensures result.1.Done? || result.1.UniqueViolation?
  {
    PaidRowShows(row, p);
    PaidSubscriptionServes(sub, row, p);
    BothRows(db, p.invoiceId, PaidInvoice(row, p), row.subscriptionId, PaidSubscription(sub, row, p));
  }

  /** A payment is applied exactly when its invoice is stored, it is not for another than the one paid, and what it
      names is free. */
  lemma PaymentIsApplied(db: Db, p: PaidParams)
    requires Valid(db)
    ensures MarkPaid(db, p).1.Done?
       <==> && p.invoiceId in db.invoices && !IsForAnother(db, p.invoiceId, p.externalInvoiceId)
            && IsLetIn(db, p.invoiceId, p.externalInvoiceId, p.checkoutSessionId, p.externalSubscriptionId)
  {
    if p.invoiceId in db.invoices && !ReportIgnored(db.invoices[p.invoiceId], p.externalInvoiceId) {
      var row := db.invoices[p.invoiceId];
      assert Refers(db, row);
      var sub := db.subscriptions[row.subscriptionId];
      PaidUnfolds(db, p, row, sub);
      ReportFits(db, p.invoiceId, PaidInvoice(row, p), p.externalInvoiceId, p.checkoutSessionId, row.subscriptionId,
          PaidSubscription(sub, row, p), p.externalSubscriptionId);
    }
  }

  /** A payment that names another subscription's external id, but no other invoice's, is refused half-way: its invoice
      is PAID, and its subscription as it was. */
  lemma RefusedPaymentLeavesSubscription(db: Db, p: PaidParams)
    requires Valid(db) && MarkPaid(db, p).1.UniqueViolation?
    ensures p.invoiceId in db.invoices
    ensures var after := MarkPaid(db, p).0;
            && after.subscriptions == db.subscriptions
            && (if IsFree(db, p.invoiceId, p.externalInvoiceId, p.checkoutSessionId) then
                  && after.invoices.Keys == db.invoices.Keys && OnlyRows(db, after, p.invoiceId)
                  && ShowsPayment(db.invoices[p.invoiceId], after.invoices[p.invoiceId], p)
                else after == db)
  {
    var row := db.invoices[p.invoiceId];
    assert Refers(db, row);
    var sub := db.subscriptions[row.subscriptionId];
    PaidUnfolds(db, p, row, sub);
    PaidRowShows(row, p);
    ReportFits(db, p.invoiceId, PaidInvoice(row, p), p.externalInvoiceId, p.checkoutSessionId, row.subscriptionId,
        PaidSubscription(sub, row, p), p.externalSubscriptionId);
    BothRows(db, p.invoiceId, PaidInvoice(row, p), row.subscriptionId, PaidSubscription(sub, row, p));
  }

  /** What a payment names is found under that name afterwards. */
  lemma ReportedIdsAreFound(db: Db, p: PaidParams)
    requires Valid(db) && MarkPaid(db, p).1.Done?
    ensures Valid(MarkPaid(db, p).0) && p.invoiceId in db.invoices
    ensures var after, row := MarkPaid(db, p).0, db.invoices[p.invoiceId];
            && (p.externalInvoiceId.Some? ==>
                  InvoiceByExternalId(after, p.externalInvoiceId.value) == Some(p.invoiceId))
            && (p.externalSubscriptionId.Some? && row.kind == SUBSCRIPTION ==>
                  SubscriptionByExternalId(after, p.externalSubscriptionId.value) == Some(row.subscriptionId))
  {
    MarkPaidIsValid(db, p);
    PaymentTakesEffect(db, p);
    var after, s := MarkPaid(db, p).0, db.invoices[p.invoiceId].subscriptionId;
    assert InvoiceFits(after, p.invoiceId, after.invoices[p.invoiceId]);
    assert SubscriptionFits(after, s, after.subscriptions[s]);
  }

  // ---------------------------------------------------------------- failures

  /** The invoice after a failure, but for its retry columns. */
  predicate ShowsFailure(row: Invoice, after: Invoice, p: FailedParams) {
    && after.status == (if p.invoiceStatus.Some? then p.invoiceStatus.value else VOID)
    && SameBill(row, after) && after.provider == p.provider
    && after.nextPaymentAttemptAt == (if after.status == PAST_DUE then p.nextPaymentAttemptAt else None)
    && (if p.attemptCount.Some? then Some(after.attemptCount) == p.attemptCount
        else if after.status != PAST_DUE then after.attemptCount == 0
        else after.attemptCount == if row.attemptCount < 1 then 1 else row.attemptCount)
    && Names(p.externalInvoiceId, row.externalInvoiceId, after.externalInvoiceId)
    && Names(p.checkoutSessionId, row.externalCheckoutSessionId, after.externalCheckoutSessionId)
  }

  /** The retry columns after a failure: for a renewal that is past due at Stripe a schedule under way goes on, and
      one that is not starts with the first delay; for anything else there is none. */
  predicate ShowsSchedule(cfg: Config, row: Invoice, sub: Subscription, after: Invoice, now: int) {
    var delays := cfg.retryDelaysMinutes;
    if !(cfg.retryEnabled && row.kind == SUBSCRIPTION && after.provider == STRIPE && after.status == PAST_DUE
         && sub.currentPeriodStart.Some?)
    then IsIdle(after.retry)
    else if row.status == PAST_DUE && !IsIdle(row.retry) then after.retry == row.retry
    else
      && after.retry.retryCount == 0 && after.retry.lastRetryAt.None? && after.retry.lastError.None?
      && (if delays != [] && delays[0] != 0
          then after.retry.nextRetryAt == Some(now + delays[0] * 60000) && after.retry.exhaustedAt.None?
          else after.retry.nextRetryAt.None? && after.retry.exhaustedAt == Some(now))
  }

  /** The time a past due subscription is served to: the later of the deadline it had and the full grace period after
      now or after the end of its period. */
  function GraceEnd(cfg: Config, sub: Subscription, now: int): int {
    var full := cfg.graceDays * 86400000
        + if sub.currentPeriodEnd.Some? && sub.currentPeriodEnd.value > now then sub.currentPeriodEnd.value else now;
    if sub.gracePeriodEndsAt.Some? && sub.gracePeriodEndsAt.value > full then sub.gracePeriodEndsAt.value else full
  }

  /** The subscription after a failure: PAST_DUE in the period it had, served until its grace ends or not at all. */
  ghost predicate ServesGrace(cfg: Config, sub: Subscription, after: Subscription, p: FailedParams, now: int) {
    && after.status == SUB_PAST_DUE && SameSale(sub, after) && after.provider == p.provider
    && after.currentPeriodStart == sub.currentPeriodStart && after.currentPeriodEnd == sub.currentPeriodEnd
    && Names(p.externalSubscriptionId, sub.externalSubscriptionId, after.externalSubscriptionId)
    && (if cfg.graceDays <= 0 || sub.currentPeriodStart.None? then forall t :: !Serves(after, t)
        else ServesExactly(after, sub.currentPeriodStart.value, GraceEnd(cfg, sub, now)))
  }

  /** What a failure shows, apart from the retry columns. */
  ghost predicate FailureShows(db: Db, cfg: Config, after: Db, p: FailedParams, now: int)
    requires p.invoiceId in db.invoices && db.invoices[p.invoiceId].subscriptionId in db.subscriptions
  {
    var id, row := p.invoiceId, db.invoices[p.invoiceId];
    var s := row.subscriptionId;
    && OnlyRows(db, after, id)
    && ShowsFailure(row, after.invoices[id], p)
    && (row.kind == SUBSCRIPTION ==> ServesGrace(cfg, db.subscriptions[s], after.subscriptions[s], p, now))
  }

  lemma FailedRowShows(cfg: Config, row: Invoice, sub: Subscription, p: FailedParams, now: int)
    ensures ShowsFailure(row, FailedInvoice(cfg, row, sub, p, now), p)
    ensures ShowsSchedule(cfg, row, sub, FailedInvoice(cfg, row, sub, p, now), now)
  {
  }

  lemma FailedSubscriptionServes(cfg: Config, sub: Subscription, p: FailedParams, now: int)
    ensures ServesGrace(cfg, sub, FailedSubscription(cfg, sub, p, now), p, now)
  {
  }

  /** A failure report does nothing exactly when its invoice is unknown or paid for under another id; what it does
      otherwise shows in the two rows alone. */
  lemma FailureTakesEffect(db: Db, cfg: Config, p: FailedParams, now: int)
    requires Valid(db)
    ensures var (after, outcome) := MarkFailed(db, cfg, p, now);
            && (outcome.InvoiceNotFound? <==> p.invoiceId !in db.invoices)
            && (outcome.Ignored? <==> IsForAnother(db, p.invoiceId, p.externalInvoiceId))
            && (!outcome.Done? && !outcome.UniqueViolation? ==> after == db)
            && (outcome.Done? ==>
                  && p.invoiceId in db.invoices && db.invoices[p.invoiceId].subscriptionId in db.subscriptions
                  && FailureShows(db, cfg, after, p, now)
                  && var row := db.invoices[p.invoiceId];
                     ShowsSchedule(cfg, row, db.subscriptions[row.subscriptionId], after.invoices[p.invoiceId], now))
  {
    if p.invoiceId in db.invoices && !ReportIgnored(db.invoices[p.invoiceId], p.externalInvoiceId) {
      var row := db.invoices[p.invoiceId];
      assert Refers(db, row);
      var sub := db.subscriptions[row.subscriptionId];
      FailedUnfolds(db, cfg, p, now, row, sub);
      AppliedFailureShows(db, MarkFailed(db, cfg, p, now), cfg, p, now, row, sub);
    }
  }

  lemma AppliedFailureShows(
    db: Db, result: (Db, Outcome), cfg: Config, p: FailedParams, now: int, row: Invoice, sub: Subscription)
    requires p.invoiceId in db.invoices && db.invoices[p.invoiceId] == row
    requires row.subscriptionId in db.subscriptions && db.subscriptions[row.subscriptionId] == sub
    requires var failed := FailedInvoice(cfg, row, sub, p, now);
             result == if row.kind == OVERAGE then WithInvoice(db, p.invoiceId, failed)
             else Both(db, p.invoiceId, failed, row.subscriptionId, FailedSubscription(cfg, sub, p, now))
    ensures result.1.Done? ==>
              && FailureShows(db, cfg, result.0, p, now)
              && ShowsSchedule(cfg, row, sub, result.0.invoices[p.invoiceId], now)
    ensures result.1.Done? || result.1.UniqueViolation?
  {
    FailedRowShows(cfg, row, sub, p, now);
    FailedSubscriptionServes(cfg, sub, p, now);
    BothRows(db, p.invoiceId, FailedInvoice(cfg, row, sub, p, now), row.subscriptionId,
        FailedSubscription(cfg, sub, p, now));
  }

  /** A failure is applied exactly when its invoice is stored, it is not for another than the one paid, and what it
      names is free. */
  lemma FailureIsApplied(db: Db, cfg: Config, p: FailedParams, now: int)
    requires Valid(db)
    ensures MarkFailed(db, cfg, p, now).1.Done?
       <==> && p.invoiceId in db.invoices && !IsForAnother(db, p.invoiceId, p.externalInvoiceId)
            && IsLetIn(db, p.invoiceId, p.externalInvoiceId, p.checkoutSessionId, p.externalSubscriptionId)
  {
    if p.invoiceId in db.invoices && !ReportIgnored(db.invoices[p.invoiceId], p.externalInvoiceId) {
      var row := db.invoices[p.invoiceId];
      assert Refers(db, row);
      var sub := db.subscriptions[row.subscriptionId];
      FailedUnfolds(db, cfg, p, now, row, sub);
      ReportFits(db, p.invoiceId, FailedInvoice(cfg, row, sub, p, now), p.externalInvoiceId, p.checkoutSessionId,
          row.subscriptionId, FailedSubscription(cfg, sub, p, now), p.externalSubscriptionId);
    }
  }

  /** A failure refused half-way leaves its subscription as it was too. */
  lemma RefusedFailureLeavesSubscription(db: Db, cfg: Config, p: FailedParams, now: int)
    requires Valid(db) && MarkFailed(db, cfg, p, now).1.UniqueViolation?
    ensures p.invoiceId in db.invoices
    ensures var after := MarkFailed(db, cfg, p, now).0;
            && after.subscriptions == db.subscriptions
            && (if IsFree(db, p.invoiceId, p.externalInvoiceId, p.checkoutSessionId) then
                  && after.invoices.Keys == db.invoices.Keys && OnlyRows(db, after, p.invoiceId)
                  && ShowsFailure(db.invoices[p.invoiceId], after.invoices[p.invoiceId], p)
                else after == db)
  {
    var row := db.invoices[p.invoiceId];
    assert Refers(db, row);
    var sub := db.subscriptions[row.subscriptionId];
    var failed := FailedInvoice(cfg, row, sub, p, now);
    FailedUnfolds(db, cfg, p, now, row, sub);
    FailedRowShows(cfg, row, sub, p, now);
    ReportFits(db, p.invoiceId, failed, p.externalInvoiceId, p.checkoutSessionId, row.subscriptionId,
        FailedSubscription(cfg, sub, p, now), p.externalSubscriptionId);
    BothRows(db, p.invoiceId, failed, row.subscriptionId, FailedSubscription(cfg, sub, p, now));
  }

  // ---------------------------------------------------------------- which invoice an event is about

  predicate IsBound(db: Db, externalInvoiceId: Id, id: Id) {
    id in db.invoices && db.invoices[id].externalInvoiceId == Some(externalInvoiceId)
  }

  /** The invoice that the event names itself, if it may: stored, and not bound to another external invoice. */
  predicate IsNamed(db: Db, p: SyncParams, id: Id) {
    && p.allowMetadataInvoiceId && p.metadataInvoiceId == Some(id) && id in db.invoices
    && (db.invoices[id].externalInvoiceId.None? || IsBound(db, p.externalInvoiceId, id))
  }

  predicate IsSubscribed(db: Db, p: SyncParams, s: Id) {
    p.externalSubscriptionId.Some? && s in db.subscriptions
        && db.subscriptions[s].externalSubscriptionId == p.externalSubscriptionId
  }

  /** The invoice an event creates: an unpaid one for its subscription, of its amount and period. */
  predicate IsCreatedFor(db: Db, row: Invoice, p: SyncParams) {
    && IsSubscribed(db, p, row.subscriptionId) && row.kind == SUBSCRIPTION && row.status == DRAFT
    && row.provider == p.provider && row.externalInvoiceId == Some(p.externalInvoiceId)
    && row.externalCheckoutSessionId == p.checkoutSessionId
    && row.amountCents == p.amountCents && row.periodStart == p.periodStart && row.periodEnd == p.periodEnd
    && row.attemptCount == 0 && row.nextPaymentAttemptAt.None? && IsIdle(row.retry)
    && row.overageSourceInvoiceId.None? && row.overageProcessedAt.None?
    && row.overageRequests.None? && row.overageUnits.None?
  }

  /** An event is about the invoice bound to its external id; if there is none, about the one it names; if it may
      name none, about a new one of its subscription, which has to be known. */
  lemma ResolutionIsExact(db: Db, p: SyncParams)
    requires Valid(db)
    ensures var (after, outcome, id) := ResolveInvoice(db, p);
            if exists k :: IsBound(db, p.externalInvoiceId, k) then
              after == db && outcome.Done? && IsBound(db, p.externalInvoiceId, id)
            else if exists k :: IsNamed(db, p, k) then after == db && outcome.Done? && IsNamed(db, p, id)
            else
              && (outcome.SubscriptionNotFound? <==> forall s :: !IsSubscribed(db, p, s))
              && (!outcome.Done? ==> after == db)
              && (outcome.Done? ==>
                    && id == db.nextInvoiceId && id !in db.invoices && after.subscriptions == db.subscriptions
                    && after.invoices.Keys == db.invoices.Keys + {id} && IsCreatedFor(db, after.invoices[id], p)
                    && forall k :: k in db.invoices ==> after.invoices[k] == db.invoices[k])
  {
    var bound := InvoiceByExternalId(db, p.externalInvoiceId);
    if bound.Some? {
      assert IsBound(db, p.externalInvoiceId, bound.value);
    } else if MetadataNames(db, p) {
      assert IsNamed(db, p, p.metadataInvoiceId.value);
    } else {
      assert forall k :: !IsNamed(db, p, k);
      CreationIsExact(db, p);
    }
  }

  lemma CreationIsExact(db: Db, p: SyncParams)
    requires Valid(db) && InvoiceByExternalId(db, p.externalInvoiceId).None? && !MetadataNames(db, p)
    ensures var (after, outcome, id) := ResolveInvoice(db, p);
            && (outcome.SubscriptionNotFound? <==> forall s :: !IsSubscribed(db, p, s))
            && (!outcome.Done? ==> after == db)
            && (outcome.Done? ==>
                  && id == db.nextInvoiceId && id !in db.invoices && after.subscriptions == db.subscriptions
                  && after.invoices.Keys == db.invoices.Keys + {id} && IsCreatedFor(db, after.invoices[id], p)
                  && forall k :: k in db.invoices ==> after.invoices[k] == db.invoices[k])
  {
    if p.externalSubscriptionId.Some? {
      var sub := SubscriptionByExternalId(db, p.externalSubscriptionId.value);
      if sub.Some? {
        assert IsSubscribed(db, p, sub.value);
      }
    }
  }

  // ---------------------------------------------------------------- events

  /** The invoice after a draft event: the event's amount and period, under the event's id; an invoice past DRAFT
      keeps its status and its attempts. */
  predicate ShowsDraft(row: Invoice, after: Invoice, p: SyncParams) {
    && after.amountCents == p.amountCents && after.periodStart == p.periodStart && after.periodEnd == p.periodEnd
    && after.provider == p.provider && after.externalInvoiceId == Some(p.externalInvoiceId)
    && Names(p.checkoutSessionId, row.externalCheckoutSessionId, after.externalCheckoutSessionId)
    && after.status == row.status && after.kind == row.kind && after.subscriptionId == row.subscriptionId
    && after.retry == row.retry && after.overageProcessedAt == row.overageProcessedAt
    && after.overageSourceInvoiceId == row.overageSourceInvoiceId
    && after.overageRequests == row.overageRequests && after.overageUnits == row.overageUnits
    && (if row.status == DRAFT
        then after.attemptCount == (if p.attemptCount.Some? then p.attemptCount.value else 0)
             && after.nextPaymentAttemptAt == p.nextPaymentAttemptAt
        else after.attemptCount == row.attemptCount && after.nextPaymentAttemptAt == row.nextPaymentAttemptAt)
  }

  /** What an event shows in the tables, which before it were db and already have its invoice. */
  ghost predicate EventShows(db: Db, cfg: Config, after: Db, id: Id, p: SyncParams, now: int)
    requires id in db.invoices && db.invoices[id].subscriptionId in db.subscriptions
  {
    match p.status
    case DRAFT =>
      && OnlyRows(db, after, id) && after.subscriptions == db.subscriptions
      && ShowsDraft(db.invoices[id], after.invoices[id], p)
    case PAID =>
      PaymentShows(db, after, PaidParams(id, p.provider, p.checkoutSessionId, Some(p.externalInvoiceId),
          p.externalSubscriptionId, p.attemptCount))
    case _ =>
      && FailureShows(db, cfg, after, FailedParams(id, p.provider, p.checkoutSessionId, Some(p.externalInvoiceId),
             p.externalSubscriptionId, Some(p.status), p.attemptCount, p.nextPaymentAttemptAt), now)
      && ShowsSchedule(cfg, db.invoices[id], db.subscriptions[db.invoices[id].subscriptionId], after.invoices[id], now)
  }

  /** An event shows in the invoice it is about. */
  lemma EventTakesEffect(db: Db, cfg: Config, p: SyncParams, now: int)
    requires Valid(db)
    ensures var (resolved, found, about) := ResolveInvoice(db, p);
            var (after, outcome, id) := SyncInvoice(db, cfg, p, now);
            && !outcome.Ignored?
            && (!found.Done? ==> after == db && outcome == found)
            && (outcome.Done? ==>
                  && found.Done? && id == about && id in resolved.invoices
                  && resolved.invoices[id].subscriptionId in resolved.subscriptions
                  && EventShows(resolved, cfg, after, id, p, now))
  {
    var (resolved, found, id) := ResolveInvoice(db, p);
    ResolvedIsValid(db, p);
    if found.Done? {
      ResolvedIsUnbound(db, p);
      assert Refers(resolved, resolved.invoices[id]);
      if p.status == DRAFT {
        DraftShows(resolved, id, p);
      } else if p.status == PAID {
        PaidEventShows(resolved, cfg, id, p, now);
      } else {
        FailedEventShows(resolved, cfg, id, p, now);
      }
    }
  }

  /** The invoice an event is about is bound to no other external invoice than the event's. */
  lemma ResolvedIsUnbound(db: Db, p: SyncParams)
    requires Valid(db) && ResolveInvoice(db, p).1.Done?
    ensures var (resolved, _, id) := ResolveInvoice(db, p);
            id in resolved.invoices && resolved.invoices[id].externalInvoiceId in {None, Some(p.externalInvoiceId)}
  {
  }

  lemma PaidEventShows(db: Db, cfg: Config, id: Id, p: SyncParams, now: int)
    requires Valid(db) && p.status == PAID && id in db.invoices && db.invoices[id].subscriptionId in db.subscriptions
    requires db.invoices[id].externalInvoiceId in {None, Some(p.externalInvoiceId)}
    ensures var (after, outcome) := MarkPaid(db, SyncPaid(id, p));
            !outcome.Ignored? && (outcome.Done? ==> EventShows(db, cfg, after, id, p, now))
  {
    PaymentTakesEffect(db, SyncPaid(id, p));
  }

  lemma FailedEventShows(db: Db, cfg: Config, id: Id, p: SyncParams, now: int)
    requires Valid(db) && (p.status == VOID || p.status == PAST_DUE)
    requires id in db.invoices && db.invoices[id].subscriptionId in db.subscriptions
    requires db.invoices[id].externalInvoiceId in {None, Some(p.externalInvoiceId)}
    ensures var (after, outcome) := MarkFailed(db, cfg, SyncFailed(id, p), now);
            !outcome.Ignored? && (outcome.Done? ==> EventShows(db, cfg, after, id, p, now))
  {
    FailureTakesEffect(db, cfg, SyncFailed(id, p), now);
  }

  lemma DraftShows(db: Db, id: Id, p: SyncParams)
    requires id in db.invoices && db.invoices[id].subscriptionId in db.subscriptions
    ensures var (after, outcome) := WithInvoice(db, id, DraftedInvoice(db.invoices[id], p));
            && !outcome.Ignored?
            && (outcome.Done? ==>
                  && OnlyRows(db, after, id) && after.subscriptions == db.subscriptions
                  && ShowsDraft(db.invoices[id], after.invoices[id], p))
  {
    BothRows(db, id, DraftedInvoice(db.invoices[id], p), db.invoices[id].subscriptionId,
        db.subscriptions[db.invoices[id].subscriptionId]);
  }

  /** An invoice for a period of a stored subscription. */
  predicate IsRenewalAfter(db: Db, id: Id) {
    id in db.invoices && db.invoices[id].kind == SUBSCRIPTION && db.invoices[id].subscriptionId in db.subscriptions
  }

  /** A renewal that is drafted and then paid opens exactly the period that was drafted, for the amount drafted. */
  lemma DraftThenPaymentOpensPeriod(db: Db, cfg: Config, draft: SyncParams, payment: SyncParams, t1: int, t2: int)
    requires Valid(db) && draft.status == DRAFT && payment.status == PAID
    requires payment.externalInvoiceId == draft.externalInvoiceId
    ensures var (drafted, first, id) := SyncInvoice(db, cfg, draft, t1);
            && Valid(drafted)
            && var (paid, second, about) := SyncInvoice(drafted, cfg, payment, t2);
               first.Done? && second.Done? ==>
                 && about == id && id in paid.invoices
                 && paid.invoices[id].status == PAID && paid.invoices[id].amountCents == draft.amountCents
                 && (IsRenewalAfter(paid, id) ==>
                       var sub := paid.subscriptions[paid.invoices[id].subscriptionId];
                       sub.status == ACTIVE && ServesExactly(sub, draft.periodStart, draft.periodEnd))
  {
    SyncInvoiceIsValid(db, cfg, draft, t1);
    EventTakesEffect(db, cfg, draft, t1);
    var (drafted, first, id) := SyncInvoice(db, cfg, draft, t1);
    if first.Done? {
      EventTakesEffect(drafted, cfg, payment, t2);
      ResolutionIsExact(drafted, payment);
      assert IsBound(drafted, draft.externalInvoiceId, id);
      BoundOnce(drafted, draft.externalInvoiceId, id);
    }
  }

  lemma BoundOnce(db: Db, externalInvoiceId: Id, id: Id)
    requires Valid(db) && IsBound(db, externalInvoiceId, id)
    ensures forall k :: IsBound(db, externalInvoiceId, k) ==> k == id
  {
    assert InvoiceFits(db, id, db.invoices[id]);
  }

  /** A payment that no draft announced opens exactly the period it carries. */
  lemma PaymentAloneOpensPeriod(db: Db, cfg: Config, p: SyncParams, now: int)
    requires Valid(db) && p.status == PAID
    requires forall k :: !IsBound(db, p.externalInvoiceId, k) && !IsNamed(db, p, k)
    ensures var (paid, outcome, id) := SyncInvoice(db, cfg, p, now);
            outcome.Done? ==>
              && IsRenewalAfter(paid, id) && paid.invoices[id].status == PAID
              && paid.invoices[id].amountCents == p.amountCents && IsSubscribed(db, p, paid.invoices[id].subscriptionId)
              && var sub := paid.subscriptions[paid.invoices[id].subscriptionId];
                 sub.status == ACTIVE && ServesExactly(sub, p.periodStart, p.periodEnd)
  {
    EventTakesEffect(db, cfg, p, now);
    ResolutionIsExact(db, p);
  }

  // ---------------------------------------------------------------- events about subscriptions

  /** An event that says a subscription is past due leaves it served to the end of its grace, or not at all; a deadline
      it already had is not moved earlier. */
  lemma PastDueEventServesGrace(db: Db, cfg: Config, e: SubscriptionEvent, now: int, s: Id)
    requires Valid(db) && e.status == Some(SUB_PAST_DUE)
    requires s in db.subscriptions && db.subscriptions[s].externalSubscriptionId == Some(e.externalSubscriptionId)
    ensures var (after, outcome) := SyncSubscription(db, cfg, e, now);
            var sub := db.subscriptions[s];
            var start := if e.currentPeriodStart.Some? then e.currentPeriodStart.value else sub.currentPeriodStart;
            var end := if e.currentPeriodEnd.Some? then e.currentPeriodEnd.value else sub.currentPeriodEnd;
            && outcome.Done? && s in after.subscriptions && after.subscriptions[s].status == SUB_PAST_DUE
            && (if cfg.graceDays <= 0 || start.None? then forall t :: !Serves(after.subscriptions[s], t)
                else ServesExactly(after.subscriptions[s], start.value,
                       GraceEnd(cfg, sub.(currentPeriodEnd := end), now)))
  {
    SubscriptionEventTwice(db, cfg, e, now);
    assert SubscriptionFits(db, s, db.subscriptions[s]);
  }

  // ---------------------------------------------------------------- a subscription that is sold

  /** A new subscription serves nothing; its one invoice asks for the plan's price, for its first period. */
  lemma SoldSubscriptionAwaitsPayment(
    db: Db, s: Id, plan: Plan, provider: Provider, periodStart: int, periodEnd: int, createdAt: int)
    requires Valid(db) && s !in db.subscriptions
    ensures var after := Subscribed(db, s, plan, provider, periodStart, periodEnd, createdAt);
            var id := db.nextInvoiceId;
            && id !in db.invoices && after.invoices.Keys == db.invoices.Keys + {id}
            && after.subscriptions.Keys == db.subscriptions.Keys + {s}
            && (forall k :: k in db.invoices ==> after.invoices[k] == db.invoices[k])
            && (forall k :: k in db.subscriptions ==> after.subscriptions[k] == db.subscriptions[k])
            && var row, sub := after.invoices[id], after.subscriptions[s];
               && row.subscriptionId == s && row.kind == SUBSCRIPTION && row.status == DRAFT && row.provider == provider
               && row.amountCents == plan.priceCents && row.periodStart == periodStart && row.periodEnd == periodEnd
               && row.externalInvoiceId.None? && row.externalCheckoutSessionId.None? && IsIdle(row.retry)
               && row.overageSourceInvoiceId.None? && row.overageProcessedAt.None? && row.attemptCount == 0
               && sub.status == PENDING && sub.plan == plan && sub.provider == provider
               && sub.externalSubscriptionId.None? && !sub.cancelAtPeriodEnd && sub.createdAt == createdAt
               && forall t :: !Serves(sub, t)
  {
  }

  /** Paying for it lets it serve exactly that period. */
  lemma SoldSubscriptionIsPaid(
    db: Db, s: Id, plan: Plan, provider: Provider, periodStart: int, periodEnd: int, createdAt: int, p: PaidParams)
    requires Valid(db) && s !in db.subscriptions && p.invoiceId == db.nextInvoiceId
    ensures var sold := Subscribed(db, s, plan, provider, periodStart, periodEnd, createdAt);
            && Valid(sold)
            && var (paid, outcome) := MarkPaid(sold, p);
               outcome.Done? ==>
                 && p.invoiceId in paid.invoices && paid.invoices[p.invoiceId].status == PAID
                 && paid.invoices[p.invoiceId].amountCents == plan.priceCents
                 && s in paid.subscriptions && paid.subscriptions[s].status == ACTIVE
                 && paid.subscriptions[s].plan == plan && ServesExactly(paid.subscriptions[s], periodStart, periodEnd)
  {
    SubscribedIsValid(db, s, plan, provider, periodStart, periodEnd, createdAt);
    SoldSubscriptionAwaitsPayment(db, s, plan, provider, periodStart, periodEnd, createdAt);
    PaymentTakesEffect(Subscribed(db, s, plan, provider, periodStart, periodEnd, createdAt), p);
  }
}
