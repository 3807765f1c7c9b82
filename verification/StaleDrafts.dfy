/** External events of one invoice arrive in any order. DRAFT events that come after, or between, payment
    reports have no say in how the invoice and its subscription end up. */
module StaleDrafts {
  import opened Common
  import opened BillingTypes
  import opened BillingDb
  import ManagedRetryPolicy
  import opened ExternalBinding

  datatype Event = Event(sync: SyncParams, now: int)

  /** What all events of one external invoice have in common. */
  datatype Origin = Origin(externalInvoiceId: Id, metadataInvoiceId: Option<Id>, allowMetadataInvoiceId: bool,
      externalSubscriptionId: Option<Id>)

  function OriginOf(p: SyncParams): Origin {
    Origin(p.externalInvoiceId, p.metadataInvoiceId, p.allowMetadataInvoiceId, p.externalSubscriptionId)
  }

  predicate IsReport(e: Event) { e.sync.status != DRAFT }

  /** An event of the invoice; reports carry an attempt count. */
  predicate EventOf(e: Event, o: Origin) { OriginOf(e.sync) == o && (IsReport(e) ==> e.sync.attemptCount.Some?) }

  function Reports(events: seq<Event>): seq<Event> {
    if events == [] then []
    else Reports(events[..|events| - 1]) + if IsReport(events[|events| - 1]) then [events[|events| - 1]] else []
  }

  ghost function Final(db: Db, cfg: Config, events: seq<Event>): (after: Db)
    requires Valid(db)
    ensures Valid(after)
  {
    if events == [] then db
    else
      var before, e := Final(db, cfg, events[..|events| - 1]), events[|events| - 1];
      SyncInvoiceIsValid(before, cfg, e.sync, e.now);
      SyncInvoice(before, cfg, e.sync, e.now).0
  }

  // ---------------------------------------------------------------- states that differ by drafts only

  /** a has seen drafts of external invoice e that b has not. */
  predicate SameInvoice(a: Invoice, b: Invoice, e: Id) {
    && a.subscriptionId == b.subscriptionId && a.kind == b.kind && a.overageSourceInvoiceId == b.overageSourceInvoiceId
    && a.status == b.status && a.retry == b.retry
    && (a.status != DRAFT ==> a.attemptCount == b.attemptCount && a.nextPaymentAttemptAt == b.nextPaymentAttemptAt)
    && a.externalInvoiceId == Some(e) && b.externalInvoiceId in {None, Some(e)}
  }

  predicate SameSubscription(a: Subscription, b: Subscription) {
    && (a.currentPeriodStart.Some? <==> b.currentPeriodStart.Some?)
    && a == b.(currentPeriodStart := a.currentPeriodStart, currentPeriodEnd := a.currentPeriodEnd,
       gracePeriodEndsAt := a.gracePeriodEndsAt)
  }

  ghost predicate SameSubscriptions(a: Db, b: Db) {
    a.subscriptions.Keys == b.subscriptions.Keys
    && forall s :: s in a.subscriptions ==> SameSubscription(a.subscriptions[s], b.subscriptions[s])
  }

  ghost predicate OthersAgree(a: Db, b: Db, id: Id) {
    forall k :: k != id ==>
        (k in a.invoices <==> k in b.invoices)
        && (k in a.invoices && k in b.invoices ==> a.invoices[k] == b.invoices[k])
  }

  ghost predicate Similar(a: Db, b: Db, id: Id, e: Id) {
    && id in a.invoices && id in b.invoices && SameInvoice(a.invoices[id], b.invoices[id], e)
    && OthersAgree(a, b, id) && SameSubscriptions(a, b) && a.nextInvoiceId == b.nextInvoiceId
  }

  /** Uniqueness lets an update through in both states or in neither. */
  lemma SimilarFits(a: Db, b: Db, id: Id, e: Id, x: Invoice, y: Invoice, session: Option<Id>)
    requires Valid(a) && Valid(b) && Similar(a, b, id, e)
    requires x.externalInvoiceId == Some(e) && y.externalInvoiceId == Some(e)
    requires x.overageSourceInvoiceId == a.invoices[id].overageSourceInvoiceId == y.overageSourceInvoiceId
    requires x.externalCheckoutSessionId == Coalesce(session, a.invoices[id].externalCheckoutSessionId)
    requires y.externalCheckoutSessionId == Coalesce(session, b.invoices[id].externalCheckoutSessionId)
    ensures InvoiceFits(a, id, x) <==> InvoiceFits(b, id, y)
  {
    assert InvoiceFits(a, id, a.invoices[id]) && InvoiceFits(b, id, b.invoices[id]);
  }

  /** Updating the invoice, then its subscription unless it is an overage invoice. */
  function Updated(db: Db, id: Id, row: Invoice, s: Id, sub: Subscription): (Db, Outcome) {
    var (updated, outcome) := WithInvoice(db, id, row);
    if !outcome.Done? || row.kind == OVERAGE then (updated, outcome) else WithSubscription(updated, s, sub)
  }

  lemma UpdatesStaySimilar(a: Db, b: Db, id: Id, e: Id, x: Invoice, y: Invoice, s: Id, u: Subscription, v: Subscription)
    requires Similar(a, b, id, e) && SameInvoice(x, y, e) && y.externalInvoiceId == Some(e)
    requires s in a.subscriptions && SameSubscription(u, v)
    requires InvoiceFits(a, id, x) <==> InvoiceFits(b, id, y)
    ensures var (after, outcome) := Updated(a, id, x, s, u);
            var (after', outcome') := Updated(b, id, y, s, v);
            && outcome == outcome' && Similar(after, after', id, e)
            && (after'.invoices[id] == y || after' == b) && (outcome.Done? ==> after'.invoices[id] == y)
  {
  }

  /** What a report writes. */
  function ReportedInvoice(cfg: Config, row: Invoice, sub: Subscription, id: Id, e: Event): Invoice {
    if e.sync.status == PAID then PaidInvoice(row, SyncPaid(id, e.sync))
        else FailedInvoice(cfg, row, sub, SyncFailed(id, e.sync), e.now)
  }

  function ReportedSubscription(cfg: Config, row: Invoice, sub: Subscription, id: Id, e: Event): Subscription {
    if e.sync.status == PAID then PaidSubscription(sub, row, SyncPaid(id, e.sync))
        else FailedSubscription(cfg, sub, SyncFailed(id, e.sync), e.now)
  }

  lemma ReportUpdates(db: Db, cfg: Config, id: Id, e: Event)
    requires Valid(db) && IsReport(e) && id in db.invoices && db.invoices[id].subscriptionId in db.subscriptions
    requires db.invoices[id].externalInvoiceId in {None, Some(e.sync.externalInvoiceId)}
    ensures var row := db.invoices[id];
            var sub := db.subscriptions[row.subscriptionId];
            Forwarded(db, cfg, e.sync, e.now, id)
            == Updated(db, id, ReportedInvoice(cfg, row, sub, id, e), row.subscriptionId,
                ReportedSubscription(cfg, row, sub, id, e))
  {
  }

  /** The rows a report writes agree again on everything it decides. */
  lemma ReportedRowsAgree(cfg: Config, x: Invoice, y: Invoice, u: Subscription, v: Subscription, id: Id, e: Event)
    requires IsReport(e) && e.sync.attemptCount.Some? && SameInvoice(x, y, e.sync.externalInvoiceId)
        && SameSubscription(u, v)
    ensures SameInvoice(ReportedInvoice(cfg, x, u, id, e), ReportedInvoice(cfg, y, v, id, e), e.sync.externalInvoiceId)
    ensures SameSubscription(ReportedSubscription(cfg, x, u, id, e), ReportedSubscription(cfg, y, v, id, e))
    ensures ReportedInvoice(cfg, y, v, id, e).externalInvoiceId == Some(e.sync.externalInvoiceId)
    ensures ReportedInvoice(cfg, y, v, id, e).status == e.sync.status
  {
  }

  lemma ReportStaysSimilar(a: Db, b: Db, cfg: Config, id: Id, e: Event)
    requires Valid(a) && Valid(b) && Similar(a, b, id, e.sync.externalInvoiceId) && IsReport(e)
        && e.sync.attemptCount.Some?
    ensures var (after, outcome) := Forwarded(a, cfg, e.sync, e.now, id);
            var (after', outcome') := Forwarded(b, cfg, e.sync, e.now, id);
            && outcome == outcome' && Similar(after, after', id, e.sync.externalInvoiceId)
            && (after'.invoices[id].externalInvoiceId == Some(e.sync.externalInvoiceId) || after' == b)
            && (outcome.Done? ==> after'.invoices[id].externalInvoiceId == Some(e.sync.externalInvoiceId)
                                  && after'.invoices[id].status == e.sync.status)
  {
    var x, y := a.invoices[id], b.invoices[id];
    var s := x.subscriptionId;
    assert Refers(a, x) && Refers(b, y);
    var u, v := a.subscriptions[s], b.subscriptions[s];
    ReportedRowsAgree(cfg, x, y, u, v, id, e);
    ReportUpdates(a, cfg, id, e);
    ReportUpdates(b, cfg, id, e);
    SimilarFits(a, b, id, e.sync.externalInvoiceId, ReportedInvoice(cfg, x, u, id, e),
        ReportedInvoice(cfg, y, v, id, e), e.sync.checkoutSessionId);
    UpdatesStaySimilar(a, b, id, e.sync.externalInvoiceId, ReportedInvoice(cfg, x, u, id, e),
        ReportedInvoice(cfg, y, v, id, e), s,
                       ReportedSubscription(cfg, x, u, id, e), ReportedSubscription(cfg, y, v, id, e));
  }

  // ---------------------------------------------------------------- how far the drafts may have got ahead

  predicate Named(db: Db, o: Origin) {
    && o.allowMetadataInvoiceId && o.metadataInvoiceId.Some? && o.metadataInvoiceId.value in db.invoices
    && db.invoices[o.metadataInvoiceId.value].externalInvoiceId in {None, Some(o.externalInvoiceId)}
  }

  /** Both states have the invoice, and b either has it bound too or would find it by its metadata. */
  ghost predicate BothHave(a: Db, b: Db, o: Origin, id: Id) {
    && Similar(a, b, id, o.externalInvoiceId)
    && (b.invoices[id].externalInvoiceId == Some(o.externalInvoiceId)
       || (Named(b, o) && o.metadataInvoiceId == Some(id)))
  }

  /** A draft has created the invoice in a, and b would create it under the same id. */
  ghost predicate OnlyFirstHas(a: Db, b: Db, o: Origin, id: Id)
    requires Valid(b)
  {
    && id == b.nextInvoiceId && a.nextInvoiceId == id + 1 && id in a.invoices && id !in b.invoices
    && OthersAgree(a, b, id) && a.subscriptions == b.subscriptions
    && !Named(b, o) && o.externalSubscriptionId.Some?
    && SubscriptionByExternalId(b, o.externalSubscriptionId.value) == Some(a.invoices[id].subscriptionId)
    && IsFreshDraft(a.invoices[id], o.externalInvoiceId)
  }

  predicate IsFreshDraft(row: Invoice, e: Id) {
    && row.kind == SUBSCRIPTION && row.overageSourceInvoiceId.None? && row.status == DRAFT
    && row.retry == ManagedRetryPolicy.CLEARED_RETRY_STATE && row.externalInvoiceId == Some(e)
  }

  ghost predicate Ahead(a: Db, b: Db, o: Origin)
    requires Valid(b)
  {
    a == b || exists id: Id :: BothHave(a, b, o, id) || OnlyFirstHas(a, b, o, id)
  }

  /** Resolution looks only at the origin. */
  lemma ResolvesBound(db: Db, p: SyncParams, id: Id)
    requires Valid(db) && Bound(db, p.externalInvoiceId, id)
    ensures ResolveInvoice(db, p) == (db, Done, id)
  {
    BoundIsUnique(db, p.externalInvoiceId, id, InvoiceByExternalId(db, p.externalInvoiceId).value);
  }

  lemma ResolvesNamed(db: Db, p: SyncParams, id: Id)
    requires Valid(db) && Named(db, OriginOf(p)) && p.metadataInvoiceId == Some(id)
    requires forall k: Id :: Bound(db, p.externalInvoiceId, k) ==> k == id
    ensures ResolveInvoice(db, p) == (db, Done, id)
  {
    var bound := InvoiceByExternalId(db, p.externalInvoiceId);
    assert bound.Some? ==> Bound(db, p.externalInvoiceId, bound.value);
  }

  lemma OnlyBoundThere(a: Db, b: Db, e: Id, id: Id)
    requires Valid(a) && Bound(a, e, id) && OthersAgree(a, b, id)
    ensures forall k: Id :: Bound(b, e, k) ==> k == id
  {
    forall k: Id | Bound(b, e, k)
      ensures k == id
    {
      if k != id {
        BoundIsUnique(a, e, id, k);
      }
    }
  }

  lemma BothHaveResolves(a: Db, b: Db, p: SyncParams, id: Id)
    requires Valid(a) && Valid(b) && BothHave(a, b, OriginOf(p), id)
    ensures ResolveInvoice(a, p) == (a, Done, id) && ResolveInvoice(b, p) == (b, Done, id)
  {
    ResolvesBound(a, p, id);
    OnlyBoundThere(a, b, p.externalInvoiceId, id);
    if b.invoices[id].externalInvoiceId == Some(p.externalInvoiceId) {
      ResolvesBound(b, p, id);
    } else {
      ResolvesNamed(b, p, id);
    }
  }

  lemma ReportOnBoth(a: Db, b: Db, cfg: Config, e: Event, o: Origin, id: Id)
    requires Valid(a) && Valid(b) && BothHave(a, b, o, id) && EventOf(e, o) && IsReport(e)
    ensures var (after, outcome, _) := SyncInvoice(a, cfg, e.sync, e.now);
            var (after', outcome', _) := SyncInvoice(b, cfg, e.sync, e.now);
            outcome == outcome' && BothHave(after, after', o, id)
            && (outcome.Done? ==> Bound(after', o.externalInvoiceId, id) && after'.invoices[id].status == e.sync.status)
  {
    BothHaveResolves(a, b, e.sync, id);
    SyncResolvesThenForwards(a, cfg, e.sync, e.now);
    SyncResolvesThenForwards(b, cfg, e.sync, e.now);
    ReportStaysSimilar(a, b, cfg, id, e);
  }

  lemma DraftOnBoth(a: Db, b: Db, cfg: Config, e: Event, o: Origin, id: Id)
    requires Valid(a) && Valid(b) && BothHave(a, b, o, id) && EventOf(e, o) && !IsReport(e)
    ensures BothHave(SyncInvoice(a, cfg, e.sync, e.now).0, b, o, id)
  {
    BothHaveResolves(a, b, e.sync, id);
  }

  lemma DraftOnFirst(a: Db, b: Db, cfg: Config, e: Event, o: Origin, id: Id)
    requires Valid(a) && Valid(b) && OnlyFirstHas(a, b, o, id) && EventOf(e, o) && !IsReport(e)
    ensures OnlyFirstHas(SyncInvoice(a, cfg, e.sync, e.now).0, b, o, id)
  {
    ResolvesBound(a, e.sync, id);
  }

  /** The first draft, with neither state ahead. */
  lemma FirstDraft(b: Db, cfg: Config, e: Event, o: Origin)
    requires Valid(b) && EventOf(e, o) && !IsReport(e)
    ensures Ahead(SyncInvoice(b, cfg, e.sync, e.now).0, b, o)
  {
    var (resolved, outcome, id) := ResolveInvoice(b, e.sync);
    if outcome.Done? {
      if id in b.invoices {
        DraftOnKnown(b, cfg, e, o, id);
      } else {
        DraftCreates(b, cfg, e, o, id);
      }
    }
  }

  lemma DraftOnKnown(b: Db, cfg: Config, e: Event, o: Origin, id: Id)
    requires Valid(b) && EventOf(e, o) && !IsReport(e) && ResolveInvoice(b, e.sync) == (b, Done, id) && id in b.invoices
    ensures var a := SyncInvoice(b, cfg, e.sync, e.now).0;
            a == b || BothHave(a, b, o, id)
  {
  }

  lemma ResolvingCreates(b: Db, p: SyncParams)
    requires Valid(b) && ResolveInvoice(b, p).1.Done? && ResolveInvoice(b, p).2 !in b.invoices
    ensures !Named(b, OriginOf(p)) && p.externalSubscriptionId.Some?
    ensures SubscriptionByExternalId(b, p.externalSubscriptionId.value).Some?
    ensures var s := SubscriptionByExternalId(b, p.externalSubscriptionId.value).value;
            ResolveInvoice(b, p) == (CreatedBy(b, p, s), Done, b.nextInvoiceId)
  {
    assert Named(b, OriginOf(p)) <==> MetadataNames(b, p);
  }

  lemma DraftOnCreated(b: Db, p: SyncParams, s: Id)
    requires Valid(CreatedBy(b, p, s)) && p.status == DRAFT && b.nextInvoiceId !in b.invoices
    ensures var id := b.nextInvoiceId;
            var after := WithInvoice(CreatedBy(b, p, s), id, DraftedInvoice(SyncedInvoice(s, p), p)).0;
            && id in after.invoices && after.nextInvoiceId == id + 1 && OthersAgree(after, b, id)
            && after.subscriptions == b.subscriptions && after.invoices[id].subscriptionId == s
            && IsFreshDraft(after.invoices[id], p.externalInvoiceId)
  {
  }

  lemma DraftCreates(b: Db, cfg: Config, e: Event, o: Origin, id: Id)
    requires Valid(b) && EventOf(e, o) && !IsReport(e) && ResolveInvoice(b, e.sync).1.Done?
        && ResolveInvoice(b, e.sync).2 == id
    requires id !in b.invoices
    ensures OnlyFirstHas(SyncInvoice(b, cfg, e.sync, e.now).0, b, o, id)
  {
    ResolvedIsValid(b, e.sync);
    ResolvingCreates(b, e.sync);
    SyncResolvesThenForwards(b, cfg, e.sync, e.now);
    DraftOnCreated(b, e.sync, SubscriptionByExternalId(b, e.sync.externalSubscriptionId.value).value);
  }

  /** A report on an invoice that b does not have yet: b creates it first, or is refused just as a is. */
  lemma ReportOnFirst(a: Db, b: Db, cfg: Config, e: Event, o: Origin, id: Id)
    requires Valid(a) && Valid(b) && OnlyFirstHas(a, b, o, id) && EventOf(e, o) && IsReport(e)
    ensures var (after, outcome, _) := SyncInvoice(a, cfg, e.sync, e.now);
            var (after', outcome', _) := SyncInvoice(b, cfg, e.sync, e.now);
            && outcome == outcome'
            && (BothHave(after, after', o, id) || (after == a && after' == b && !outcome.Done?))
            && (outcome.Done? ==> Bound(after', o.externalInvoiceId, id) && after'.invoices[id].status == e.sync.status)
  {
    OnlyBoundThere(a, b, o.externalInvoiceId, id);
    ResolvesBound(a, e.sync, id);
    SyncResolvesThenForwards(a, cfg, e.sync, e.now);
    SyncResolvesThenForwards(b, cfg, e.sync, e.now);
    var created := CreatedBy(b, e.sync, a.invoices[id].subscriptionId);
    CreationOnReport(a, b, e, o, id);
    if InvoiceFits(b, id, SyncedInvoice(a.invoices[id].subscriptionId, e.sync)) {
      ReportStaysSimilar(a, created, cfg, id, e);
    } else {
      RefusedLikewise(a, b, cfg, e, o, id);
    }
  }

  function CreatedBy(b: Db, p: SyncParams, s: Id): Db {
    b.(invoices := b.invoices[b.nextInvoiceId := SyncedInvoice(s, p)], nextInvoiceId := b.nextInvoiceId + 1)
  }

  lemma CreationOnReport(a: Db, b: Db, e: Event, o: Origin, id: Id)
    requires Valid(a) && Valid(b) && OnlyFirstHas(a, b, o, id) && EventOf(e, o)
    requires forall k: Id :: Bound(b, o.externalInvoiceId, k) ==> k == id
    ensures var s := a.invoices[id].subscriptionId;
            if InvoiceFits(b, id, SyncedInvoice(s, e.sync)) then
              && ResolveInvoice(b, e.sync) == (CreatedBy(b, e.sync, s), Done, id)
              && Similar(a, CreatedBy(b, e.sync, s), id, o.externalInvoiceId)
            else ResolveInvoice(b, e.sync).0 == b && ResolveInvoice(b, e.sync).1 == UniqueViolation
  {
    assert Named(b, o) <==> MetadataNames(b, e.sync);
  }

  lemma RefusedLikewise(a: Db, b: Db, cfg: Config, e: Event, o: Origin, id: Id)
    requires Valid(a) && Valid(b) && OnlyFirstHas(a, b, o, id) && EventOf(e, o) && IsReport(e)
    requires forall k: Id :: Bound(b, o.externalInvoiceId, k) ==> k == id
    requires !InvoiceFits(b, id, SyncedInvoice(a.invoices[id].subscriptionId, e.sync))
    ensures Forwarded(a, cfg, e.sync, e.now, id) == (a, UniqueViolation)
  {
    var row := a.invoices[id];
    assert Refers(a, row);
    var sub := a.subscriptions[row.subscriptionId];
    ReportUpdates(a, cfg, id, e);
    var reported := ReportedInvoice(cfg, row, sub, id, e);
    var k :| k in b.invoices && k != id && Clash(b.invoices[k].externalCheckoutSessionId, e.sync.checkoutSessionId);
    assert a.invoices[k] == b.invoices[k];
    assert reported.externalCheckoutSessionId == e.sync.checkoutSessionId;
    assert !InvoiceFits(a, id, reported);
  }

  // ---------------------------------------------------------------- drafts are erasable

  lemma ReportKeepsAhead(a: Db, b: Db, cfg: Config, e: Event, o: Origin)
    requires Valid(a) && Valid(b) && Ahead(a, b, o) && EventOf(e, o) && IsReport(e)
    ensures var (after, outcome, _) := SyncInvoice(a, cfg, e.sync, e.now);
            var (after', outcome', _) := SyncInvoice(b, cfg, e.sync, e.now);
            outcome == outcome' && Valid(after') && Ahead(after, after', o)
  {
    SyncInvoiceIsValid(b, cfg, e.sync, e.now);
    if a != b {
      var id: Id :| BothHave(a, b, o, id) || OnlyFirstHas(a, b, o, id);
      if BothHave(a, b, o, id) {
        ReportOnBoth(a, b, cfg, e, o, id);
      } else {
        ReportOnFirst(a, b, cfg, e, o, id);
      }
    }
  }

  lemma DraftKeepsAhead(a: Db, b: Db, cfg: Config, e: Event, o: Origin)
    requires Valid(a) && Valid(b) && Ahead(a, b, o) && EventOf(e, o) && !IsReport(e)
    ensures Ahead(SyncInvoice(a, cfg, e.sync, e.now).0, b, o)
  {
    if a == b {
      FirstDraft(b, cfg, e, o);
    } else {
      var id: Id :| BothHave(a, b, o, id) || OnlyFirstHas(a, b, o, id);
      if BothHave(a, b, o, id) {
        DraftOnBoth(a, b, cfg, e, o, id);
      } else {
        DraftOnFirst(a, b, cfg, e, o, id);
      }
    }
  }

  lemma EventKeepsAhead(a: Db, b: Db, cfg: Config, e: Event, o: Origin)
    requires Valid(a) && Valid(b) && Ahead(a, b, o) && EventOf(e, o)
    ensures Valid(SyncInvoice(b, cfg, e.sync, e.now).0)
    ensures Ahead(SyncInvoice(a, cfg, e.sync, e.now).0, if IsReport(e) then SyncInvoice(b, cfg, e.sync, e.now).0
        else b, o)
  {
    SyncInvoiceIsValid(b, cfg, e.sync, e.now);
    if IsReport(e) {
      ReportKeepsAhead(a, b, cfg, e, o);
    } else {
      DraftKeepsAhead(a, b, cfg, e, o);
    }
  }

  lemma FinalOfReports(db: Db, cfg: Config, events: seq<Event>)
    requires Valid(db) && events != []
    ensures var init, e := events[..|events| - 1], events[|events| - 1];
            Final(db, cfg, Reports(events))
            == if IsReport(e) then SyncInvoice(Final(db, cfg, Reports(init)), cfg, e.sync, e.now).0
                else Final(db, cfg, Reports(init))
  {
    var init, e := events[..|events| - 1], events[|events| - 1];
    if IsReport(e) {
      assert Reports(events)[..|Reports(events)| - 1] == Reports(init);
    } else {
      assert Reports(events) == Reports(init);
    }
  }

  lemma {:induction false} FinalsAreAhead(db: Db, cfg: Config, events: seq<Event>, o: Origin)
    requires Valid(db) && forall e :: e in events ==> EventOf(e, o)
    ensures Ahead(Final(db, cfg, events), Final(db, cfg, Reports(events)), o)
  {
    if events != [] {
      var init, e := events[..|events| - 1], events[|events| - 1];
      FinalsAreAhead(db, cfg, init, o);
      EventKeepsAhead(Final(db, cfg, init), Final(db, cfg, Reports(init)), cfg, e, o);
      FinalOfReports(db, cfg, events);
    }
  }

  /** Leaving out the drafts changes neither which payment reports are applied... */
  lemma DraftsDoNotAffectOutcomes(db: Db, cfg: Config, events: seq<Event>, o: Origin, e: Event)
    requires Valid(db) && EventOf(e, o) && IsReport(e) && forall x :: x in events ==> EventOf(x, o)
    ensures SyncInvoice(Final(db, cfg, events), cfg, e.sync, e.now).1
         == SyncInvoice(Final(db, cfg, Reports(events)), cfg, e.sync, e.now).1
  {
    FinalsAreAhead(db, cfg, events, o);
    ReportKeepsAhead(Final(db, cfg, events), Final(db, cfg, Reports(events)), cfg, e, o);
  }

  /** ...nor what they leave behind: the same local invoice is bound, with the same status, retry state and,
      past DRAFT, attempts, and its subscription has the same status. */
  lemma StaleDraftsAreErasable(db: Db, cfg: Config, events: seq<Event>, o: Origin, id: Id)
    requires Valid(db) && forall e :: e in events ==> EventOf(e, o)
    requires Bound(Final(db, cfg, Reports(events)), o.externalInvoiceId, id)
    ensures var full, reported := Final(db, cfg, events), Final(db, cfg, Reports(events));
            && Bound(full, o.externalInvoiceId, id)
            && full.invoices[id].status == reported.invoices[id].status
            && full.invoices[id].retry == reported.invoices[id].retry
            && (reported.invoices[id].status != DRAFT ==>
                  && full.invoices[id].attemptCount == reported.invoices[id].attemptCount
                  && full.invoices[id].nextPaymentAttemptAt == reported.invoices[id].nextPaymentAttemptAt)
            && full.invoices[id].subscriptionId == reported.invoices[id].subscriptionId
            && full.subscriptions.Keys == reported.subscriptions.Keys
            && (forall s :: s in full.subscriptions ==>
               full.subscriptions[s].status == reported.subscriptions[s].status)
  {
    FinalsAreAhead(db, cfg, events, o);
    var full, reported := Final(db, cfg, events), Final(db, cfg, Reports(events));
    if full != reported {
      var k: Id :| BothHave(full, reported, o, k) || OnlyFirstHas(full, reported, o, k);
      OnlyBoundThere(full, reported, o.externalInvoiceId, k);
    }
  }

  // ---------------------------------------------------------------- the last report decides

  predicate DecidedBy(db: Db, p: SyncParams, id: Id) {
    && Bound(db, p.externalInvoiceId, id)
    && var row := db.invoices[id];
       && row.status == p.status
       && Some(row.attemptCount) == p.attemptCount
       && row.nextPaymentAttemptAt == (if p.status == PAST_DUE then p.nextPaymentAttemptAt else None)
       && (row.kind == SUBSCRIPTION ==>
             && row.subscriptionId in db.subscriptions
             && db.subscriptions[row.subscriptionId].status == if p.status == PAID then ACTIVE else SUB_PAST_DUE)
  }

  lemma UpdatedRows(db: Db, id: Id, row: Invoice, s: Id, sub: Subscription)
    ensures var (after, outcome) := Updated(db, id, row, s, sub);
            outcome.Done? ==>
              && id in after.invoices && after.invoices[id] == row
              && (row.kind == SUBSCRIPTION ==> s in after.subscriptions && after.subscriptions[s] == sub)
  {
  }

  lemma ForwardedReportDecides(db: Db, cfg: Config, id: Id, e: Event)
    requires Valid(db) && IsReport(e) && e.sync.attemptCount.Some? && id in db.invoices
    requires db.invoices[id].externalInvoiceId in {None, Some(e.sync.externalInvoiceId)}
    ensures var (after, outcome) := Forwarded(db, cfg, e.sync, e.now, id);
            outcome.Done? ==> DecidedBy(after, e.sync, id)
  {
    var row := db.invoices[id];
    assert Refers(db, row);
    var sub := db.subscriptions[row.subscriptionId];
    ReportUpdates(db, cfg, id, e);
    UpdatedRows(db, id, ReportedInvoice(cfg, row, sub, id, e), row.subscriptionId,
        ReportedSubscription(cfg, row, sub, id, e));
  }

  lemma ReportDecides(db: Db, cfg: Config, p: SyncParams, now: int)
    requires Valid(db) && p.status != DRAFT && p.attemptCount.Some? && SyncInvoice(db, cfg, p, now).1.Done?
    ensures DecidedBy(SyncInvoice(db, cfg, p, now).0, p, SyncInvoice(db, cfg, p, now).2)
  {
    var (resolved, outcome, id) := ResolveInvoice(db, p);
    SyncResolvesThenForwards(db, cfg, p, now);
    ResolvingKeepsBindings(db, p);
    ForwardedReportDecides(resolved, cfg, id, Event(p, now));
  }

  lemma DraftLeavesDecision(db: Db, cfg: Config, e: Event, p: SyncParams, id: Id)
    requires Valid(db) && !IsReport(e) && e.sync.externalInvoiceId == p.externalInvoiceId && p.status != DRAFT
        && DecidedBy(db, p, id)
    ensures DecidedBy(SyncInvoice(db, cfg, e.sync, e.now).0, p, id)
  {
    ResolvesBound(db, e.sync, id);
  }

  /** Whatever came before it, the last applied report decides the invoice's status and attempts and its
      subscription's status, however many drafts follow. */
  lemma {:induction false} LastReportDecides(db: Db, cfg: Config, e: Event, drafts: seq<Event>)
    requires Valid(db) && IsReport(e) && e.sync.attemptCount.Some? && SyncInvoice(db, cfg, e.sync, e.now).1.Done?
    requires forall d :: d in drafts ==> !IsReport(d) && d.sync.externalInvoiceId == e.sync.externalInvoiceId
    ensures Valid(SyncInvoice(db, cfg, e.sync, e.now).0)
    ensures DecidedBy(Final(SyncInvoice(db, cfg, e.sync, e.now).0, cfg, drafts), e.sync,
        SyncInvoice(db, cfg, e.sync, e.now).2)
  {
    SyncInvoiceIsValid(db, cfg, e.sync, e.now);
    var (reported, _, id) := SyncInvoice(db, cfg, e.sync, e.now);
    if drafts == [] {
      ReportDecides(db, cfg, e.sync, e.now);
    } else {
      LastReportDecides(db, cfg, e, drafts[..|drafts| - 1]);
      DraftLeavesDecision(Final(reported, cfg, drafts[..|drafts| - 1]), cfg, drafts[|drafts| - 1], e.sync, id);
    }
  }
}
