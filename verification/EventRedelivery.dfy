/** Stripe delivers an event at least once. What each handler leaves behind is what it leaves behind when the event
    comes again, also when it failed half-way the first time. */
module EventRedelivery {
  import opened Common
  import opened BillingTypes
  import opened BillingDb
  import opened ManagedRetryPolicy
  import opened Metering

  // ---------------------------------------------------------------- invoices

  /** The two updates of a handler: the invoice, then its subscription. */
  function Both(db: Db, id: Id, row: Invoice, s: Id, sub: Subscription): (Db, Outcome) {
    var first := WithInvoice(db, id, row);
    if !first.1.Done? then first else WithSubscription(first.0, s, sub)
  }

  /** Writing the same rows once more changes nothing. */
  lemma WritingTwice(db: Db, id: Id, row: Invoice, s: Id, sub: Subscription)
    ensures Both(Both(db, id, row, s, sub).0, id, row, s, sub) == Both(db, id, row, s, sub)
  {
    var once := Both(db, id, row, s, sub).0;
    if WithInvoice(db, id, row).1.Done? {
      assert once.invoices[id := row] == once.invoices;
      if WithSubscription(WithInvoice(db, id, row).0, s, sub).1.Done? {
        assert once.subscriptions[s := sub] == once.subscriptions;
      }
    }
  }

  lemma WritingInvoiceTwice(db: Db, id: Id, row: Invoice)
    ensures WithInvoice(WithInvoice(db, id, row).0, id, row) == WithInvoice(db, id, row)
  {
    var once := WithInvoice(db, id, row).0;
    if InvoiceFits(db, id, row) {
      assert once.invoices[id := row] == once.invoices;
    }
  }

  lemma WritingSubscriptionTwice(db: Db, s: Id, sub: Subscription)
    ensures WithSubscription(WithSubscription(db, s, sub).0, s, sub) == WithSubscription(db, s, sub)
  {
    var once := WithSubscription(db, s, sub).0;
    if SubscriptionFits(db, s, sub) {
      assert once.subscriptions[s := sub] == once.subscriptions;
    }
  }

  lemma PaidRowsTwice(row: Invoice, sub: Subscription, p: PaidParams)
    ensures PaidInvoice(PaidInvoice(row, p), p) == PaidInvoice(row, p)
    ensures PaidSubscription(PaidSubscription(sub, row, p), PaidInvoice(row, p), p) == PaidSubscription(sub, row, p)
    ensures PaidSubscription(sub, PaidInvoice(row, p), p) == PaidSubscription(sub, row, p)
    ensures !ReportIgnored(PaidInvoice(row, p), p.externalInvoiceId)
  {
  }

  /** What a payment report does when it is not ignored. */
  lemma PaidUnfolds(db: Db, p: PaidParams, row: Invoice, sub: Subscription)
    requires Valid(db) && p.invoiceId in db.invoices && db.invoices[p.invoiceId] == row
    requires row.subscriptionId in db.subscriptions && db.subscriptions[row.subscriptionId] == sub
    requires !ReportIgnored(row, p.externalInvoiceId)
    ensures MarkPaid(db, p) ==
            if row.kind == OVERAGE then WithInvoice(db, p.invoiceId, PaidInvoice(row, p))
            else Both(db, p.invoiceId, PaidInvoice(row, p), row.subscriptionId, PaidSubscription(sub, row, p))
  {
  }

  /** A payment reported again changes nothing and is answered as before. */
  lemma PaidTwice(db: Db, p: PaidParams)
    requires Valid(db)
    ensures Valid(MarkPaid(db, p).0) && MarkPaid(MarkPaid(db, p).0, p) == MarkPaid(db, p)
  {
    MarkPaidIsValid(db, p);
    if p.invoiceId in db.invoices && !ReportIgnored(db.invoices[p.invoiceId], p.externalInvoiceId) {
      var row := db.invoices[p.invoiceId];
      assert Refers(db, row);
      var sub := db.subscriptions[row.subscriptionId];
      PaidRowsTwice(row, sub, p);
      PaidUnfolds(db, p, row, sub);
      PaidAgain(db, MarkPaid(db, p).0, p, row, sub);
    }
  }

  lemma PaidAgain(db: Db, once: Db, p: PaidParams, row: Invoice, sub: Subscription)
    requires Valid(once) && p.invoiceId in db.invoices && db.invoices[p.invoiceId] == row
    requires row.subscriptionId in db.subscriptions && db.subscriptions[row.subscriptionId] == sub
    requires !ReportIgnored(row, p.externalInvoiceId)
    requires var paid := PaidInvoice(row, p);
             once == if row.kind == OVERAGE then WithInvoice(db, p.invoiceId, paid).0
                     else Both(db, p.invoiceId, paid, row.subscriptionId, PaidSubscription(sub, row, p)).0
    ensures MarkPaid(once, p) ==
            if row.kind == OVERAGE then WithInvoice(db, p.invoiceId, PaidInvoice(row, p))
            else Both(db, p.invoiceId, PaidInvoice(row, p), row.subscriptionId, PaidSubscription(sub, row, p))
  {
    var paid, s := PaidInvoice(row, p), row.subscriptionId;
    PaidRowsTwice(row, sub, p);
    PaidUnfolds(once, p, once.invoices[p.invoiceId], once.subscriptions[s]);
    WritingInvoiceTwice(db, p.invoiceId, paid);
    WritingTwice(db, p.invoiceId, paid, s, PaidSubscription(sub, row, p));
  }

  lemma FailedRowsTwice(cfg: Config, row: Invoice, sub: Subscription, p: FailedParams, now: int)
    ensures FailedInvoice(cfg, FailedInvoice(cfg, row, sub, p, now), sub, p, now)
        == FailedInvoice(cfg, row, sub, p, now)
    ensures FailedInvoice(cfg, FailedInvoice(cfg, row, sub, p, now), FailedSubscription(cfg, sub, p, now), p, now)
         == FailedInvoice(cfg, row, sub, p, now)
    ensures FailedSubscription(cfg, FailedSubscription(cfg, sub, p, now), p, now)
        == FailedSubscription(cfg, sub, p, now)
    ensures !ReportIgnored(FailedInvoice(cfg, row, sub, p, now), p.externalInvoiceId)
  {
  }

  lemma FailedUnfolds(db: Db, cfg: Config, p: FailedParams, now: int, row: Invoice, sub: Subscription)
    requires Valid(db) && p.invoiceId in db.invoices && db.invoices[p.invoiceId] == row
    requires row.subscriptionId in db.subscriptions && db.subscriptions[row.subscriptionId] == sub
    requires !ReportIgnored(row, p.externalInvoiceId)
    ensures MarkFailed(db, cfg, p, now) ==
            if row.kind == OVERAGE then WithInvoice(db, p.invoiceId, FailedInvoice(cfg, row, sub, p, now))
            else Both(db, p.invoiceId, FailedInvoice(cfg, row, sub, p, now), row.subscriptionId,
                FailedSubscription(cfg, sub, p, now))
  {
  }

  lemma FailedAgain(db: Db, once: Db, cfg: Config, p: FailedParams, now: int, row: Invoice, sub: Subscription)
    requires Valid(once) && p.invoiceId in db.invoices && db.invoices[p.invoiceId] == row
    requires row.subscriptionId in db.subscriptions && db.subscriptions[row.subscriptionId] == sub
    requires !ReportIgnored(row, p.externalInvoiceId)
    requires var failed := FailedInvoice(cfg, row, sub, p, now);
             once == if row.kind == OVERAGE then WithInvoice(db, p.invoiceId, failed).0
                     else Both(db, p.invoiceId, failed, row.subscriptionId, FailedSubscription(cfg, sub, p, now)).0
    ensures MarkFailed(once, cfg, p, now) ==
            if row.kind == OVERAGE then WithInvoice(db, p.invoiceId, FailedInvoice(cfg, row, sub, p, now))
            else Both(db, p.invoiceId, FailedInvoice(cfg, row, sub, p, now), row.subscriptionId,
                FailedSubscription(cfg, sub, p, now))
  {
    var failed, s := FailedInvoice(cfg, row, sub, p, now), row.subscriptionId;
    FailedRowsTwice(cfg, row, sub, p, now);
    FailedUnfolds(once, cfg, p, now, once.invoices[p.invoiceId], once.subscriptions[s]);
    WritingInvoiceTwice(db, p.invoiceId, failed);
    WritingTwice(db, p.invoiceId, failed, s, FailedSubscription(cfg, sub, p, now));
  }

  /** A failure reported again at the same time changes nothing: neither the retry schedule nor the deadline
      restarts. */
  lemma FailedTwice(db: Db, cfg: Config, p: FailedParams, now: int)
    requires Valid(db)
    ensures Valid(MarkFailed(db, cfg, p, now).0)
        && MarkFailed(MarkFailed(db, cfg, p, now).0, cfg, p, now) == MarkFailed(db, cfg, p, now)
  {
    MarkFailedIsValid(db, cfg, p, now);
    if p.invoiceId in db.invoices && !ReportIgnored(db.invoices[p.invoiceId], p.externalInvoiceId) {
      var row := db.invoices[p.invoiceId];
      assert Refers(db, row);
      var sub := db.subscriptions[row.subscriptionId];
      FailedUnfolds(db, cfg, p, now, row, sub);
      FailedAgain(db, MarkFailed(db, cfg, p, now).0, cfg, p, now, row, sub);
    }
  }

  // ---------------------------------------------------------------- checkouts

  /** Everything about a subscription that decides its service and its bills. */
  predicate SameService(a: Subscription, b: Subscription) {
    && a.plan == b.plan && a.status == b.status && a.gracePeriodEndsAt == b.gracePeriodEndsAt
    && a.currentPeriodStart == b.currentPeriodStart && a.currentPeriodEnd == b.currentPeriodEnd
    && a.cancelAtPeriodEnd == b.cancelAtPeriodEnd
  }

  predicate SameInvoiceState(a: Invoice, b: Invoice) {
    && a.status == b.status && a.kind == b.kind && a.amountCents == b.amountCents && a.retry == b.retry
    && a.attemptCount == b.attemptCount && a.periodStart == b.periodStart && a.periodEnd == b.periodEnd
    && a.externalInvoiceId == b.externalInvoiceId && a.overageProcessedAt == b.overageProcessedAt
  }

  function NotedInvoice(row: Invoice, provider: Provider, session: Option<Id>): Invoice {
    row.(provider := provider, externalCheckoutSessionId := Coalesce(session, row.externalCheckoutSessionId))
  }

  lemma CheckoutUnfolds(db: Db, id: Id, provider: Provider, session: Option<Id>, external: Option<Id>)
    requires Valid(db) && id in db.invoices
    ensures var row := db.invoices[id];
            && row.subscriptionId in db.subscriptions
            && RecordCheckout(db, id, provider, session, external) ==
               if external.None? then WithInvoice(db, id, NotedInvoice(row, provider, session))
               else Both(db, id, NotedInvoice(row, provider, session), row.subscriptionId,
                         db.subscriptions[row.subscriptionId].(provider := provider,
                             externalSubscriptionId := external))
  {
    assert Refers(db, db.invoices[id]);
  }

  ghost predicate SameBilling(db: Db, after: Db) {
    && after.invoices.Keys == db.invoices.Keys && after.subscriptions.Keys == db.subscriptions.Keys
    && (forall k :: k in db.invoices ==> SameInvoiceState(after.invoices[k], db.invoices[k]))
    && (forall s :: s in db.subscriptions ==> SameService(after.subscriptions[s], db.subscriptions[s]))
  }

  /** The invoice and, when the event knows it, the external subscription are found under the event's ids. */
  predicate Noted(db: Db, after: Db, id: Id, provider: Provider, session: Option<Id>, external: Option<Id>) {
    && id in db.invoices && id in after.invoices
    && var row, s := after.invoices[id], db.invoices[id].subscriptionId;
       && row.provider == provider && row.subscriptionId == s && s in after.subscriptions
       && (if session.Some? then row.externalCheckoutSessionId == session
           else row.externalCheckoutSessionId == db.invoices[id].externalCheckoutSessionId)
       && (if external.Some?
           then after.subscriptions[s].externalSubscriptionId == external && after.subscriptions[s].provider == provider
           else after.subscriptions == db.subscriptions)
       && (forall k :: k in db.invoices && k != id ==> k in after.invoices && after.invoices[k] == db.invoices[k])
       && (forall k :: k in db.subscriptions && k != s ==>
          k in after.subscriptions && after.subscriptions[k] == db.subscriptions[k])
  }

  lemma NotesChangeNoService(db: Db, id: Id, row: Invoice, s: Id, sub: Subscription)
    requires id in db.invoices && SameInvoiceState(row, db.invoices[id]) && s in db.subscriptions
        && SameService(sub, db.subscriptions[s])
    ensures SameBilling(db, WithInvoice(db, id, row).0) && SameBilling(db, Both(db, id, row, s, sub).0)
  {
  }

  lemma CheckoutAgain(
    db: Db, once: Db, id: Id, provider: Provider, session: Option<Id>, external: Option<Id>, row: Invoice,
    sub: Subscription)
    requires Valid(once) && id in db.invoices && db.invoices[id] == row
    requires row.subscriptionId in db.subscriptions && db.subscriptions[row.subscriptionId] == sub
    requires var noted := NotedInvoice(row, provider, session);
             once == if external.None? then WithInvoice(db, id, noted).0
                     else Both(db, id, noted, row.subscriptionId,
                         sub.(provider := provider, externalSubscriptionId := external)).0
    ensures RecordCheckout(once, id, provider, session, external) ==
            if external.None? then WithInvoice(db, id, NotedInvoice(row, provider, session))
            else Both(db, id, NotedInvoice(row, provider, session), row.subscriptionId,
                      sub.(provider := provider, externalSubscriptionId := external))
  {
    var noted := NotedInvoice(row, provider, session);
    CheckoutUnfolds(once, id, provider, session, external);
    WritingInvoiceTwice(db, id, noted);
    WritingTwice(db, id, noted, row.subscriptionId, sub.(provider := provider, externalSubscriptionId := external));
  }

  lemma CheckoutIsNoted(db: Db, id: Id, provider: Provider, session: Option<Id>, external: Option<Id>)
    requires Valid(db) && id in db.invoices
    ensures var (after, outcome) := RecordCheckout(db, id, provider, session, external);
            !outcome.InvoiceNotFound? && (outcome.Done? ==> Noted(db, after, id, provider, session, external))
  {
    assert Refers(db, db.invoices[id]);
  }

  /** Recording a checkout only notes whose it is: no service and no charge changes, and recording it again does
      nothing. */
  lemma CheckoutTwice(db: Db, id: Id, provider: Provider, session: Option<Id>, external: Option<Id>)
    requires Valid(db)
    ensures var (after, outcome) := RecordCheckout(db, id, provider, session, external);
            && Valid(after) && RecordCheckout(after, id, provider, session, external) == (after, outcome)
            && SameBilling(db, after)
            && (outcome.InvoiceNotFound? <==> id !in db.invoices)
            && (outcome.Done? ==> Noted(db, after, id, provider, session, external))
  {
    CheckoutIsValid(db, id, provider, session, external);
    if id in db.invoices {
      var row := db.invoices[id];
      CheckoutUnfolds(db, id, provider, session, external);
      NotesChangeNoService(db, id, NotedInvoice(row, provider, session), row.subscriptionId,
                           db.subscriptions[row.subscriptionId].(provider := provider,
                               externalSubscriptionId := external));
      CheckoutAgain(db, RecordCheckout(db, id, provider, session, external).0, id, provider, session, external,
                    db.invoices[id], db.subscriptions[db.invoices[id].subscriptionId]);
      CheckoutIsNoted(db, id, provider, session, external);
    }
  }

  // ---------------------------------------------------------------- subscriptions

  lemma FoundAgain(db: Db, after: Db, external: Id, s: Id)
    requires Valid(db) && Valid(after) && SubscriptionByExternalId(db, external) == Some(s)
    requires s in after.subscriptions && after.subscriptions[s].externalSubscriptionId == Some(external)
    ensures SubscriptionByExternalId(after, external) == Some(s)
  {
    assert SubscriptionFits(after, s, after.subscriptions[s]);
  }

  /** A cancelled subscription serves no request and has no deadline; cancelling it again does nothing. */
  lemma CancelledTwice(db: Db, external: Id, occurredAt: int)
    requires Valid(db)
    ensures var (after, outcome) := CancelByExternalId(db, external);
            && Valid(after) && CancelByExternalId(after, external) == (after, outcome)
            && after.invoices == db.invoices && after.subscriptions.Keys == db.subscriptions.Keys
            && (outcome.Done?
               <==> exists s :: s in db.subscriptions && db.subscriptions[s].externalSubscriptionId == Some(external))
            && (forall s :: s in db.subscriptions ==>
                  if db.subscriptions[s].externalSubscriptionId == Some(external)
                  then after.subscriptions[s].status == CANCELED && after.subscriptions[s].gracePeriodEndsAt.None?
                       && !after.subscriptions[s].cancelAtPeriodEnd && !Serves(after.subscriptions[s], occurredAt)
                  else after.subscriptions[s] == db.subscriptions[s])
  {
    CancelByExternalIdIsValid(db, external);
    var found := SubscriptionByExternalId(db, external);
    if found.Some? {
      var sub := db.subscriptions[found.value];
      assert SubscriptionFits(db, found.value, sub);
      var cancelled := sub.(status := CANCELED, gracePeriodEndsAt := None, cancelAtPeriodEnd := false);
      WritingSubscriptionTwice(db, found.value, cancelled);
      FoundAgain(db, CancelByExternalId(db, external).0, external, found.value);
    }
  }

  /** Cancelling at period end takes no service away before then: a request is served as it was, unless the provider
      reported another period end. Asking again does nothing. */
  lemma CancelAtPeriodEndTwice(db: Db, id: Id, end: Option<Option<int>>, occurredAt: int)
    requires Valid(db)
    ensures var (after, outcome) := CancelAtPeriodEnd(db, id, end);
            && Valid(after) && CancelAtPeriodEnd(after, id, end) == (after, outcome)
            && after.invoices == db.invoices && after.subscriptions.Keys == db.subscriptions.Keys
            && (outcome.Done? <==> id in db.subscriptions)
            && (forall s :: s in db.subscriptions && s != id ==> after.subscriptions[s] == db.subscriptions[s])
            && (id in db.subscriptions ==>
                  && after.subscriptions[id].cancelAtPeriodEnd
                  && (end.Some? ==> Some(after.subscriptions[id].currentPeriodEnd) == end)
                  && (end.None? ==>
                     (Serves(after.subscriptions[id], occurredAt) <==> Serves(db.subscriptions[id], occurredAt))))
  {
    CancelAtPeriodEndIsValid(db, id, end);
    if id in db.subscriptions {
      var sub := db.subscriptions[id];
      assert SubscriptionFits(db, id, sub);
      WritingSubscriptionTwice(db, id,
          sub.(cancelAtPeriodEnd := true, currentPeriodEnd := OrElse(end, sub.currentPeriodEnd)));
    }
  }

  lemma SyncedRowTwice(cfg: Config, sub: Subscription, e: SubscriptionEvent, now: int)
    ensures SyncedSubscription(cfg, SyncedSubscription(cfg, sub, e, now), e, now)
        == SyncedSubscription(cfg, sub, e, now)
  {
  }

  /** A subscription event takes effect on its subscription alone, writes what it carries and keeps what it does not;
      delivered again at the same time it does nothing, in particular it does not extend the deadline. */
  lemma SubscriptionEventTwice(db: Db, cfg: Config, e: SubscriptionEvent, now: int)
    requires Valid(db)
    ensures var (after, outcome) := SyncSubscription(db, cfg, e, now);
            && Valid(after) && SyncSubscription(after, cfg, e, now) == (after, outcome)
            && after.invoices == db.invoices && after.subscriptions.Keys == db.subscriptions.Keys
            && (forall s :: s in db.subscriptions ==>
                  var a, b := after.subscriptions[s], db.subscriptions[s];
                  if b.externalSubscriptionId != Some(e.externalSubscriptionId) then a == b
                  else
                    && a.cancelAtPeriodEnd == e.cancelAtPeriodEnd
                    && (e.status.None? ==> a.status == b.status && a.gracePeriodEndsAt == b.gracePeriodEndsAt)
                    && (e.status.Some? ==>
                       a.status == e.status.value && (a.status != SUB_PAST_DUE ==> a.gracePeriodEndsAt.None?))
                    && (if e.currentPeriodStart.Some? then Some(a.currentPeriodStart) == e.currentPeriodStart
                        else a.currentPeriodStart == b.currentPeriodStart)
                    && (if e.currentPeriodEnd.Some? then Some(a.currentPeriodEnd) == e.currentPeriodEnd
                        else a.currentPeriodEnd == b.currentPeriodEnd)
                    && a.plan == b.plan && a.provider == b.provider && a.createdAt == b.createdAt
                    && a.externalSubscriptionId == b.externalSubscriptionId)
  {
    SyncSubscriptionIsValid(db, cfg, e, now);
    var found := SubscriptionByExternalId(db, e.externalSubscriptionId);
    if found.Some? {
      var sub := db.subscriptions[found.value];
      assert SubscriptionFits(db, found.value, sub);
      var synced := SyncedSubscription(cfg, sub, e, now);
      SyncedRowTwice(cfg, sub, e, now);
      WritingSubscriptionTwice(db, found.value, synced);
      FoundAgain(db, SyncSubscription(db, cfg, e, now).0, e.externalSubscriptionId, found.value);
    }
  }

  /** An event that says a subscription is ACTIVE in a period opens exactly that period. */
  lemma ActivationOpensPeriod(db: Db, cfg: Config, e: SubscriptionEvent, from: int, until: int, now: int, s: Id)
    requires Valid(db) && e.status == Some(ACTIVE)
    requires e.currentPeriodStart == Some(Some(from)) && e.currentPeriodEnd == Some(Some(until))
    requires s in db.subscriptions && db.subscriptions[s].externalSubscriptionId == Some(e.externalSubscriptionId)
    ensures var (after, outcome) := SyncSubscription(db, cfg, e, now);
            outcome.Done? && s in after.subscriptions && ServesExactly(after.subscriptions[s], from, until)
  {
    SubscriptionEventTwice(db, cfg, e, now);
    assert SubscriptionFits(db, s, db.subscriptions[s]);
  }
}
