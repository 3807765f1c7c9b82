/** The invoice and subscription tables and what each operation of subscriptions.service.ts makes of
    them. The operations are not transactions: one that fails half-way leaves its first update behind. */
module BillingDb {
  import opened Common
  import opened UtcCalendar
  import opened BillingTypes
  import opened ManagedRetryPolicy

  datatype Config = Config(graceDays: int, retryEnabled: bool, retryDelaysMinutes: seq<int>)

  datatype Db = Db(invoices: map<Id, Invoice>, subscriptions: map<Id, Subscription>, nextInvoiceId: Id)

  datatype Outcome = Done | Ignored | InvoiceNotFound | SubscriptionNotFound | UniqueViolation

  predicate Succeeded(o: Outcome) { o.Done? || o.Ignored? }

  predicate Clash(a: Option<Id>, b: Option<Id>) { a.Some? && a == b }

  /** The unique columns of an invoice that other invoices may not share. */
  predicate InvoiceFits(db: Db, id: Id, row: Invoice) {
    forall other :: other in db.invoices && other != id ==>
      && !Clash(db.invoices[other].externalInvoiceId, row.externalInvoiceId)
      && !Clash(db.invoices[other].externalCheckoutSessionId, row.externalCheckoutSessionId)
      && !Clash(db.invoices[other].overageSourceInvoiceId, row.overageSourceInvoiceId)
  }

  predicate SubscriptionFits(db: Db, id: Id, row: Subscription) {
    forall other :: other in db.subscriptions && other != id ==>
      !Clash(db.subscriptions[other].externalSubscriptionId, row.externalSubscriptionId)
  }

  predicate Refers(db: Db, row: Invoice) {
    && row.subscriptionId in db.subscriptions
    && (row.overageSourceInvoiceId.Some? ==> row.overageSourceInvoiceId.value in db.invoices)
  }

  /** Unique columns are unique, references resolve, fresh ids are fresh. */
  ghost predicate Valid(db: Db) {
    && (forall id :: id in db.invoices ==>
          && id < db.nextInvoiceId
          && Refers(db, db.invoices[id])
          && InvoiceFits(db, id, db.invoices[id]))
    && (forall id :: id in db.subscriptions ==> SubscriptionFits(db, id, db.subscriptions[id]))
  }

  function WithInvoice(db: Db, id: Id, row: Invoice): (Db, Outcome) {
    if InvoiceFits(db, id, row) then (db.(invoices := db.invoices[id := row]), Done) else (db, UniqueViolation)
  }

  function WithSubscription(db: Db, id: Id, row: Subscription): (Db, Outcome) {
    if SubscriptionFits(db, id, row) then (db.(subscriptions := db.subscriptions[id := row]), Done)
        else (db, UniqueViolation)
  }

  function WithNewInvoice(db: Db, row: Invoice): (Db, Outcome) {
    var (db', outcome) := WithInvoice(db, db.nextInvoiceId, row);
    (if outcome.Done? then db'.(nextInvoiceId := db.nextInvoiceId + 1) else db', outcome)
  }

  function Added(db: Db, row: Invoice): Db {
    db.(invoices := db.invoices[db.nextInvoiceId := row], nextInvoiceId := db.nextInvoiceId + 1)
  }

  /** subscribe: a PENDING subscription with a DRAFT invoice for its first period. */
  function Subscribed(
    db: Db, s: Id, plan: Plan, provider: Provider, periodStart: int, periodEnd: int, createdAt: int): Db {
    Added(db, Invoice(s, provider, SUBSCRIPTION, None, None, None, None, None, None, plan.priceCents, DRAFT, 0, None,
                      CLEARED_RETRY_STATE, periodStart, periodEnd))
      .(subscriptions :=
          db.subscriptions[s := Subscription(plan, provider, None, PENDING, None, None, None, false, createdAt)])
  }

  // ---------------------------------------------------------------- values the operations compute

  /** setUTCDate(getUTCDate() + days) */
  function AddUtcDays(t: int, days: int): int { t + days * MS_PER_DAY }

  lemma AddUtcDaysIsSetUtcDate(t: int, days: int)
    ensures AddUtcDays(t, days) == SetUtcDate(t, DateOf(t) + days) == t + days * 86400000
  {
    SetUtcDateShiftsByDays(t, days);
  }

  /** resolveGracePeriodEndsAt */
  function GracePeriodEnd(cfg: Config, status: SubscriptionStatus, periodStart: Option<int>, periodEnd: Option<int>,
                          existing: Option<int>, now: int): Option<int>
  {
    if status != SUB_PAST_DUE || periodStart.None? || cfg.graceDays <= 0 then None
    else
      var base := if periodEnd.Some? && periodEnd.value > now then periodEnd.value else now;
      var deadline := AddUtcDays(base, cfg.graceDays);
      if existing.Some? && existing.value > deadline then existing else Some(deadline)
  }

  /** shouldUseManagedRenewalRetry */
  predicate UsesManagedRetry(
    cfg: Config, kind: InvoiceKind, provider: Provider, status: InvoiceStatus, periodStart: Option<int>) {
    cfg.retryEnabled && kind == SUBSCRIPTION && provider == STRIPE && status == PAST_DUE && periodStart.Some?
  }

  /** resolveManagedRetryState and the spread of its result over the row: the row's retry columns after a failure. */
  function RetryStateAfterFailure(cfg: Config, row: Invoice, provider: Provider, status: InvoiceStatus,
                                  periodStart: Option<int>, now: int): RetryState
  {
    if !UsesManagedRetry(cfg, row.kind, provider, status, periodStart) then
      if HasRetryState(row.retry) then CLEARED_RETRY_STATE else row.retry
    else if row.status == PAST_DUE && HasRetryState(row.retry) then row.retry
    else InitialRetryState(now, cfg.retryDelaysMinutes)
  }

  // ---------------------------------------------------------------- markInvoicePaid

  datatype PaidParams = PaidParams(
    invoiceId: Id, provider: Provider, checkoutSessionId: Option<Id>, externalInvoiceId: Option<Id>,
    externalSubscriptionId: Option<Id>, attemptCount: Option<int>)

  /** A PAID invoice bound to one external invoice ignores reports about another. */
  predicate ReportIgnored(row: Invoice, externalInvoiceId: Option<Id>) {
    row.status == PAID && row.externalInvoiceId.Some? && externalInvoiceId.Some?
        && row.externalInvoiceId != externalInvoiceId
  }

  function PaidInvoice(row: Invoice, p: PaidParams): Invoice {
    row.(status := PAID,
         provider := p.provider,
         externalCheckoutSessionId := Coalesce(p.checkoutSessionId, row.externalCheckoutSessionId),
         externalInvoiceId := Coalesce(p.externalInvoiceId, row.externalInvoiceId),
         attemptCount := OrElse(p.attemptCount, row.attemptCount),
         nextPaymentAttemptAt := None,
         retry := if HasRetryState(row.retry) then CLEARED_RETRY_STATE else row.retry)
  }

  function PaidSubscription(sub: Subscription, row: Invoice, p: PaidParams): Subscription {
    sub.(status := ACTIVE,
         provider := p.provider,
         externalSubscriptionId := Coalesce(p.externalSubscriptionId, sub.externalSubscriptionId),
         currentPeriodStart := Some(row.periodStart),
         currentPeriodEnd := Some(row.periodEnd),
         gracePeriodEndsAt := None)
  }

  function MarkPaid(db: Db, p: PaidParams): (Db, Outcome)
    requires Valid(db)
  {
    if p.invoiceId !in db.invoices then (db, InvoiceNotFound)
    else
      var row := db.invoices[p.invoiceId];
      if ReportIgnored(row, p.externalInvoiceId) then (db, Ignored)
      else
        var (updated, outcome) := WithInvoice(db, p.invoiceId, PaidInvoice(row, p));
        if !outcome.Done? || row.kind == OVERAGE then (updated, outcome)
        else WithSubscription(updated, row.subscriptionId,
            PaidSubscription(db.subscriptions[row.subscriptionId], row, p))
  }

  // ---------------------------------------------------------------- markInvoiceFailed

  datatype FailedParams = FailedParams(
    invoiceId: Id, provider: Provider, checkoutSessionId: Option<Id>, externalInvoiceId: Option<Id>,
    externalSubscriptionId: Option<Id>, invoiceStatus: Option<InvoiceStatus>, attemptCount: Option<int>,
    nextPaymentAttemptAt: Option<int>)

  function FailedInvoice(cfg: Config, row: Invoice, sub: Subscription, p: FailedParams, now: int): Invoice {
    var status := OrElse(p.invoiceStatus, VOID);
    row.(status := status,
         provider := p.provider,
         externalCheckoutSessionId := Coalesce(p.checkoutSessionId, row.externalCheckoutSessionId),
         externalInvoiceId := Coalesce(p.externalInvoiceId, row.externalInvoiceId),
         attemptCount := OrElse(p.attemptCount, if status == PAST_DUE then Max(1, row.attemptCount) else 0),
         nextPaymentAttemptAt := if status == PAST_DUE then p.nextPaymentAttemptAt else None,
         retry := RetryStateAfterFailure(cfg, row, p.provider, status, sub.currentPeriodStart, now))
  }

  function FailedSubscription(cfg: Config, sub: Subscription, p: FailedParams, now: int): Subscription {
    sub.(status := SUB_PAST_DUE,
         provider := p.provider,
         externalSubscriptionId := Coalesce(p.externalSubscriptionId, sub.externalSubscriptionId),
         gracePeriodEndsAt :=
             GracePeriodEnd(cfg, SUB_PAST_DUE, sub.currentPeriodStart, sub.currentPeriodEnd, sub.gracePeriodEndsAt,
             now))
  }

  function MarkFailed(db: Db, cfg: Config, p: FailedParams, now: int): (Db, Outcome)
    requires Valid(db)
  {
    if p.invoiceId !in db.invoices then (db, InvoiceNotFound)
    else
      var row := db.invoices[p.invoiceId];
      if ReportIgnored(row, p.externalInvoiceId) then (db, Ignored)
      else
        var sub := db.subscriptions[row.subscriptionId];
        var (updated, outcome) := WithInvoice(db, p.invoiceId, FailedInvoice(cfg, row, sub, p, now));
        if !outcome.Done? || row.kind == OVERAGE then (updated, outcome)
        else WithSubscription(updated, row.subscriptionId, FailedSubscription(cfg, sub, p, now))
  }

  // ---------------------------------------------------------------- syncInvoiceFromExternal

  datatype SyncParams = SyncParams(
    provider: Provider, externalInvoiceId: Id, externalSubscriptionId: Option<Id>, checkoutSessionId: Option<Id>,
    metadataInvoiceId: Option<Id>, allowMetadataInvoiceId: bool, amountCents: int, periodStart: int, periodEnd: int,
    status: InvoiceStatus, attemptCount: Option<int>, nextPaymentAttemptAt: Option<int>)

  /** invoice.findUnique by external id */
  function InvoiceByExternalId(db: Db, externalInvoiceId: Id): (found: Option<Id>)
    requires Valid(db)
    ensures found.Some? ==>
        found.value in db.invoices && db.invoices[found.value].externalInvoiceId == Some(externalInvoiceId)
    ensures found.None? ==> forall id :: id in db.invoices ==>
        db.invoices[id].externalInvoiceId != Some(externalInvoiceId)
  {
    if exists id: Id :: id in db.invoices && db.invoices[id].externalInvoiceId == Some(externalInvoiceId) then
      assert forall id, other :: id in db.invoices && other in db.invoices && id != other ==>
        !Clash(db.invoices[other].externalInvoiceId, db.invoices[id].externalInvoiceId);
      var id: Id :| id in db.invoices && db.invoices[id].externalInvoiceId == Some(externalInvoiceId);
      Some(id)
    else None
  }

  /** subscription.findUnique by external id */
  function SubscriptionByExternalId(db: Db, externalSubscriptionId: Id): (found: Option<Id>)
    requires Valid(db)
    ensures found.Some? ==>
              found.value in db.subscriptions
                  && db.subscriptions[found.value].externalSubscriptionId == Some(externalSubscriptionId)
    ensures found.None? ==> forall id :: id in db.subscriptions ==>
        db.subscriptions[id].externalSubscriptionId != Some(externalSubscriptionId)
  {
    if exists id: Id ::
        id in db.subscriptions && db.subscriptions[id].externalSubscriptionId == Some(externalSubscriptionId) then
      assert forall id, other :: id in db.subscriptions && other in db.subscriptions && id != other ==>
        !Clash(db.subscriptions[other].externalSubscriptionId, db.subscriptions[id].externalSubscriptionId);
      var id: Id :| id in db.subscriptions
          && db.subscriptions[id].externalSubscriptionId == Some(externalSubscriptionId);
      Some(id)
    else None
  }

  /** The invoice named by metadata, if it may be used: it exists and is not bound to another external invoice. */
  predicate MetadataNames(db: Db, p: SyncParams) {
    && p.allowMetadataInvoiceId && p.metadataInvoiceId.Some? && p.metadataInvoiceId.value in db.invoices
    && (db.invoices[p.metadataInvoiceId.value].externalInvoiceId.None?
        || db.invoices[p.metadataInvoiceId.value].externalInvoiceId == Some(p.externalInvoiceId))
  }

  function SyncedInvoice(subscriptionId: Id, p: SyncParams): Invoice {
    Invoice(subscriptionId, p.provider, SUBSCRIPTION, p.checkoutSessionId, Some(p.externalInvoiceId), None, None,
        None, None,
            p.amountCents, DRAFT, 0, None, CLEARED_RETRY_STATE, p.periodStart, p.periodEnd)
  }

  /** resolveInvoiceForExternalSync; on Done the invoice id is the third component. */
  function ResolveInvoice(db: Db, p: SyncParams): (r: (Db, Outcome, Id))
    requires Valid(db)
    ensures r.1.Done? ==> r.2 in r.0.invoices
    ensures !r.1.Done? ==> r.0 == db
  {
    var bound := InvoiceByExternalId(db, p.externalInvoiceId);
    if bound.Some? then (db, Done, bound.value)
    else if MetadataNames(db, p) then (db, Done, p.metadataInvoiceId.value)
    else if p.externalSubscriptionId.None? then (db, SubscriptionNotFound, 0)
    else
      var sub := SubscriptionByExternalId(db, p.externalSubscriptionId.value);
      if sub.None? then (db, SubscriptionNotFound, 0)
      else
        var (created, outcome) := WithNewInvoice(db, SyncedInvoice(sub.value, p));
        (created, outcome, db.nextInvoiceId)
  }

  /** The DRAFT branch of the sync: an invoice past DRAFT keeps its status and attempt columns. */
  function DraftedInvoice(row: Invoice, p: SyncParams): Invoice {
    row.(provider := p.provider,
         externalCheckoutSessionId := Coalesce(p.checkoutSessionId, row.externalCheckoutSessionId),
         externalInvoiceId := Some(p.externalInvoiceId),
         amountCents := p.amountCents,
         attemptCount := if row.status == DRAFT then OrElse(p.attemptCount, 0) else row.attemptCount,
         nextPaymentAttemptAt := if row.status == DRAFT then p.nextPaymentAttemptAt else row.nextPaymentAttemptAt,
         periodStart := p.periodStart,
         periodEnd := p.periodEnd)
  }

  function SyncPaid(id: Id, p: SyncParams): PaidParams {
    PaidParams(id, p.provider, p.checkoutSessionId, Some(p.externalInvoiceId), p.externalSubscriptionId, p.attemptCount)
  }

  function SyncFailed(id: Id, p: SyncParams): FailedParams {
    FailedParams(id, p.provider, p.checkoutSessionId, Some(p.externalInvoiceId), p.externalSubscriptionId,
        Some(p.status),
                 p.attemptCount, p.nextPaymentAttemptAt)
  }

  lemma ResolvedIsValid(db: Db, p: SyncParams)
    requires Valid(db)
    ensures Valid(ResolveInvoice(db, p).0)
  {
    var (after, outcome, id) := ResolveInvoice(db, p);
    if after != db {
      var row := after.invoices[id];
      assert InvoiceFits(db, id, row);
      assert row.subscriptionId in db.subscriptions;
      forall i | i in after.invoices
        ensures i < after.nextInvoiceId && Refers(after, after.invoices[i])
        ensures InvoiceFits(after, i, after.invoices[i])
      {
        if i != id {
          assert InvoiceFits(db, i, db.invoices[i]);
        }
      }
    }
  }

  function SyncInvoice(db: Db, cfg: Config, p: SyncParams, now: int): (Db, Outcome, Id)
    requires Valid(db)
  {
    var (resolved, outcome, id) := ResolveInvoice(db, p);
    ResolvedIsValid(db, p);
    if !outcome.Done? then (resolved, outcome, 0)
    else if p.status == DRAFT then
      var (drafted, o) := WithInvoice(resolved, id, DraftedInvoice(resolved.invoices[id], p));
      (drafted, o, id)
    else if p.status == PAID then
      var (paid, o) := MarkPaid(resolved, SyncPaid(id, p));
      (paid, o, id)
    else
      var (failed, o) := MarkFailed(resolved, cfg, SyncFailed(id, p), now);
      (failed, o, id)
  }

  // ---------------------------------------------------------------- subscription events

  /** markSubscriptionCanceledByExternalId */
  function CancelByExternalId(db: Db, externalSubscriptionId: Id): (Db, Outcome)
    requires Valid(db)
  {
    var found := SubscriptionByExternalId(db, externalSubscriptionId);
    if found.None? then (db, SubscriptionNotFound)
    else
      var sub := db.subscriptions[found.value];
      WithSubscription(db, found.value, sub.(status := CANCELED, gracePeriodEndsAt := None, cancelAtPeriodEnd := false))
  }

  /** None fields were not part of the event; Some(None) is an explicit null. */
  datatype SubscriptionEvent = SubscriptionEvent(
    externalSubscriptionId: Id, cancelAtPeriodEnd: bool, status: Option<SubscriptionStatus>,
    currentPeriodStart: Option<Option<int>>, currentPeriodEnd: Option<Option<int>>)

  function SyncedSubscription(cfg: Config, sub: Subscription, e: SubscriptionEvent, now: int): Subscription {
    var start := OrElse(e.currentPeriodStart, sub.currentPeriodStart);
    var end := OrElse(e.currentPeriodEnd, sub.currentPeriodEnd);
    sub.(cancelAtPeriodEnd := e.cancelAtPeriodEnd,
         status := OrElse(e.status, sub.status),
         gracePeriodEndsAt := if e.status.Some?
             then GracePeriodEnd(cfg, e.status.value, start, end, sub.gracePeriodEndsAt, now)
                              else sub.gracePeriodEndsAt,
         currentPeriodStart := start,
         currentPeriodEnd := end)
  }

  /** syncSubscriptionFromExternal */
  function SyncSubscription(db: Db, cfg: Config, e: SubscriptionEvent, now: int): (Db, Outcome)
    requires Valid(db)
  {
    var found := SubscriptionByExternalId(db, e.externalSubscriptionId);
    if found.None? then (db, SubscriptionNotFound)
    else WithSubscription(db, found.value, SyncedSubscription(cfg, db.subscriptions[found.value], e, now))
  }

  /** recordExternalCheckout */
  function RecordCheckout(
    db: Db, invoiceId: Id, provider: Provider, checkoutSessionId: Option<Id>, externalSubscriptionId: Option<Id>)
    : (Db, Outcome)
    requires Valid(db)
  {
    if invoiceId !in db.invoices then (db, InvoiceNotFound)
    else
      var row := db.invoices[invoiceId];
      var (updated, outcome) := WithInvoice(db, invoiceId,
        row.(provider := provider,
            externalCheckoutSessionId := Coalesce(checkoutSessionId, row.externalCheckoutSessionId)));
      if !outcome.Done? || externalSubscriptionId.None? then (updated, outcome)
      else WithSubscription(updated, row.subscriptionId,
             db.subscriptions[row.subscriptionId].(provider := provider,
                 externalSubscriptionId := externalSubscriptionId))
  }

  /** cancelSubscription, with the period end the provider reported, if it was asked. */
  function CancelAtPeriodEnd(db: Db, subscriptionId: Id, currentPeriodEnd: Option<Option<int>>): (Db, Outcome) {
    if subscriptionId !in db.subscriptions then (db, SubscriptionNotFound)
    else
      var sub := db.subscriptions[subscriptionId];
      WithSubscription(db, subscriptionId,
        sub.(cancelAtPeriodEnd := true, currentPeriodEnd := OrElse(currentPeriodEnd, sub.currentPeriodEnd)))
  }

  // ---------------------------------------------------------------- what a report writes

  /** A payment report writes its invoice's row, and the row of its subscription, or less. */
  lemma PaidWrites(db: Db, p: PaidParams)
    requires Valid(db) && p.invoiceId in db.invoices
    ensures db.invoices[p.invoiceId].subscriptionId in db.subscriptions
    ensures var row, after := db.invoices[p.invoiceId], MarkPaid(db, p).0;
            && after.invoices in {db.invoices, db.invoices[p.invoiceId := PaidInvoice(row, p)]}
            && after.subscriptions in
               {db.subscriptions,
                   db.subscriptions[row.subscriptionId :=
                   PaidSubscription(db.subscriptions[row.subscriptionId], row, p)]}
            && after.nextInvoiceId == db.nextInvoiceId
            && (row.kind == OVERAGE ==> after.subscriptions == db.subscriptions)
  {
    assert Refers(db, db.invoices[p.invoiceId]);
  }

  lemma FailedWrites(db: Db, cfg: Config, p: FailedParams, now: int)
    requires Valid(db) && p.invoiceId in db.invoices
    ensures db.invoices[p.invoiceId].subscriptionId in db.subscriptions
    ensures var row, after := db.invoices[p.invoiceId], MarkFailed(db, cfg, p, now).0;
            var sub := db.subscriptions[row.subscriptionId];
            && after.invoices in {db.invoices, db.invoices[p.invoiceId := FailedInvoice(cfg, row, sub, p, now)]}
            && after.subscriptions in
               {db.subscriptions, db.subscriptions[row.subscriptionId := FailedSubscription(cfg, sub, p, now)]}
            && after.nextInvoiceId == db.nextInvoiceId
            && (row.kind == OVERAGE ==> after.subscriptions == db.subscriptions)
  {
    assert Refers(db, db.invoices[p.invoiceId]);
  }

  // ---------------------------------------------------------------- validity is kept

  lemma InvoiceUpdateIsValid(db: Db, id: Id, row: Invoice)
    requires Valid(db) && id in db.invoices && Refers(db, row)
    ensures Valid(WithInvoice(db, id, row).0)
  {
    var after := WithInvoice(db, id, row).0;
    if InvoiceFits(db, id, row) {
      forall i | i in after.invoices
        ensures InvoiceFits(after, i, after.invoices[i])
      {
        if i != id {
          assert InvoiceFits(db, i, db.invoices[i]);
        }
      }
    }
  }

  lemma SubscriptionUpdateIsValid(db: Db, id: Id, row: Subscription)
    requires Valid(db) && id in db.subscriptions
    ensures Valid(WithSubscription(db, id, row).0)
  {
    var after := WithSubscription(db, id, row).0;
    if SubscriptionFits(db, id, row) {
      forall i | i in after.subscriptions
        ensures SubscriptionFits(after, i, after.subscriptions[i])
      {
        if i != id {
          assert SubscriptionFits(db, i, db.subscriptions[i]);
        }
      }
      assert forall i :: i in db.invoices ==> InvoiceFits(db, i, db.invoices[i]) ==>
          InvoiceFits(after, i, after.invoices[i]);
    }
  }

  lemma MarkPaidIsValid(db: Db, p: PaidParams)
    requires Valid(db)
    ensures Valid(MarkPaid(db, p).0)
  {
    if p.invoiceId in db.invoices {
      var row := db.invoices[p.invoiceId];
      var updated := WithInvoice(db, p.invoiceId, PaidInvoice(row, p)).0;
      InvoiceUpdateIsValid(db, p.invoiceId, PaidInvoice(row, p));
      SubscriptionUpdateIsValid(updated, row.subscriptionId,
          PaidSubscription(db.subscriptions[row.subscriptionId], row, p));
    }
  }

  lemma MarkFailedIsValid(db: Db, cfg: Config, p: FailedParams, now: int)
    requires Valid(db)
    ensures Valid(MarkFailed(db, cfg, p, now).0)
  {
    if p.invoiceId in db.invoices {
      var row := db.invoices[p.invoiceId];
      var sub := db.subscriptions[row.subscriptionId];
      var failed := FailedInvoice(cfg, row, sub, p, now);
      InvoiceUpdateIsValid(db, p.invoiceId, failed);
      SubscriptionUpdateIsValid(WithInvoice(db, p.invoiceId, failed).0, row.subscriptionId,
          FailedSubscription(cfg, sub, p, now));
    }
  }

  lemma SyncInvoiceIsValid(db: Db, cfg: Config, p: SyncParams, now: int)
    requires Valid(db)
    ensures Valid(SyncInvoice(db, cfg, p, now).0)
  {
    var (resolved, outcome, id) := ResolveInvoice(db, p);
    ResolvedIsValid(db, p);
    if outcome.Done? {
      InvoiceUpdateIsValid(resolved, id, DraftedInvoice(resolved.invoices[id], p));
      MarkPaidIsValid(resolved, SyncPaid(id, p));
      MarkFailedIsValid(resolved, cfg, SyncFailed(id, p), now);
    }
  }

  lemma SubscribedIsValid(
    db: Db, s: Id, plan: Plan, provider: Provider, periodStart: int, periodEnd: int, createdAt: int)
    requires Valid(db) && s !in db.subscriptions
    ensures var after := Subscribed(db, s, plan, provider, periodStart, periodEnd, createdAt);
            Valid(after)
  {
    var after := Subscribed(db, s, plan, provider, periodStart, periodEnd, createdAt);
    forall i | i in after.invoices
      ensures i < after.nextInvoiceId && Refers(after, after.invoices[i]) && InvoiceFits(after, i, after.invoices[i])
    {
      if i in db.invoices {
        assert Refers(db, db.invoices[i]) && InvoiceFits(db, i, db.invoices[i]);
      }
    }
    forall i | i in after.subscriptions
      ensures SubscriptionFits(after, i, after.subscriptions[i])
    {
      if i in db.subscriptions {
        assert SubscriptionFits(db, i, db.subscriptions[i]);
      }
    }
  }

  lemma CheckoutIsValid(db: Db, id: Id, provider: Provider, session: Option<Id>, external: Option<Id>)
    requires Valid(db)
    ensures Valid(RecordCheckout(db, id, provider, session, external).0)
  {
    if id in db.invoices {
      var row := db.invoices[id];
      assert Refers(db, row);
      var updated :=
          row.(provider := provider, externalCheckoutSessionId := Coalesce(session, row.externalCheckoutSessionId));
      InvoiceUpdateIsValid(db, id, updated);
      SubscriptionUpdateIsValid(WithInvoice(db, id, updated).0, row.subscriptionId,
        db.subscriptions[row.subscriptionId].(provider := provider, externalSubscriptionId := external));
    }
  }

  lemma CancelByExternalIdIsValid(db: Db, external: Id)
    requires Valid(db)
    ensures Valid(CancelByExternalId(db, external).0)
  {
    var found := SubscriptionByExternalId(db, external);
    if found.Some? {
      SubscriptionUpdateIsValid(db, found.value,
        db.subscriptions[found.value].(status := CANCELED, gracePeriodEndsAt := None, cancelAtPeriodEnd := false));
    }
  }

  lemma SyncSubscriptionIsValid(db: Db, cfg: Config, e: SubscriptionEvent, now: int)
    requires Valid(db)
    ensures Valid(SyncSubscription(db, cfg, e, now).0)
  {
    var found := SubscriptionByExternalId(db, e.externalSubscriptionId);
    if found.Some? {
      SubscriptionUpdateIsValid(db, found.value, SyncedSubscription(cfg, db.subscriptions[found.value], e, now));
    }
  }

  lemma CancelAtPeriodEndIsValid(db: Db, id: Id, end: Option<Option<int>>)
    requires Valid(db)
    ensures Valid(CancelAtPeriodEnd(db, id, end).0)
  {
    if id in db.subscriptions {
      var sub := db.subscriptions[id];
      SubscriptionUpdateIsValid(db, id,
        sub.(cancelAtPeriodEnd := true, currentPeriodEnd := OrElse(end, sub.currentPeriodEnd)));
    }
  }
}
