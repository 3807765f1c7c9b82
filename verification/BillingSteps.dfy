/** All the operations that write the billing tables, as one step relation, and the runs they make up.
    Steps may fail, and may fail between their two updates. */
module BillingSteps {
  import opened Common
  import opened BillingTypes
  import opened ManagedRetryPolicy
  import opened BillingDb
  import opened Settlement
  import opened OverageCollection
  import UsageIndex

  datatype Step =
    | SyncExternalInvoice(sync: SyncParams, now: int)
    | ReportPaid(paid: PaidParams)
    | ReportFailed(failed: FailedParams, now: int)
    | CompleteCheckout(invoiceId: Id, provider: Provider, session: Option<Id>, externalSubscriptionId: Option<Id>)
    | CancelExternal(external: Id)
    | SyncExternalSubscription(event: SubscriptionEvent, now: int)
    | Cancel(subscriptionId: Id, currentPeriodEnd: Option<Option<int>>)
    | Subscribe(subscriber: Id, plan: Plan, soldBy: Provider, periodStart: int, periodEnd: int, createdAt: int)
    | SettlePeriod(source: Id, records: seq<UsageIndex.UsageRecord>, processedAt: int)

  function Apply(db: Db, cfg: Config, step: Step): (Db, Outcome)
    requires Valid(db) && ValidPlans(db)
  {
    match step
    case SyncExternalInvoice(p, now) => var (after, outcome, _) := SyncInvoice(db, cfg, p, now); (after, outcome)
    case ReportPaid(p) => MarkPaid(db, p)
    case ReportFailed(p, now) => MarkFailed(db, cfg, p, now)
    case CompleteCheckout(id, provider, session, external) => RecordCheckout(db, id, provider, session, external)
    case CancelExternal(external) => CancelByExternalId(db, external)
    case SyncExternalSubscription(e, now) => SyncSubscription(db, cfg, e, now)
    case Cancel(id, end) => CancelAtPeriodEnd(db, id, end)
    case Subscribe(s, plan, provider, start, end, createdAt) =>
      if s in db.subscriptions || !ValidPlan(plan) then (db, Ignored)
      else (Subscribed(db, s, plan, provider, start, end, createdAt), Done)
    case SettlePeriod(id, records, at) =>
      var (after, processed) := MaterializedIfDue(db, records, id, at);
      (after, if processed then Done else Ignored)
  }

  // ---------------------------------------------------------------- subscriptions keep their plans

  /** The subscriptions of db survive with their plans. */
  ghost predicate KeepsPlans(db: Db, after: Db) {
    forall s :: s in db.subscriptions ==>
        s in after.subscriptions && after.subscriptions[s].plan == db.subscriptions[s].plan
  }

  ghost predicate OnlyKnown(db: Db, after: Db) { after.subscriptions.Keys == db.subscriptions.Keys }

  lemma MarkPaidKeepsPlans(db: Db, p: PaidParams)
    requires Valid(db)
    ensures KeepsPlans(db, MarkPaid(db, p).0) && OnlyKnown(db, MarkPaid(db, p).0)
  {
    if p.invoiceId in db.invoices {
      PaidWrites(db, p);
    }
  }

  lemma MarkFailedKeepsPlans(db: Db, cfg: Config, p: FailedParams, now: int)
    requires Valid(db)
    ensures KeepsPlans(db, MarkFailed(db, cfg, p, now).0) && OnlyKnown(db, MarkFailed(db, cfg, p, now).0)
  {
    if p.invoiceId in db.invoices {
      FailedWrites(db, cfg, p, now);
    }
  }

  /** What a sync makes of the subscriptions is what the report it forwards makes of them. */
  lemma SyncForwards(db: Db, cfg: Config, p: SyncParams, now: int)
    requires Valid(db)
    ensures var (resolved, outcome, id) := ResolveInvoice(db, p);
            var after := SyncInvoice(db, cfg, p, now).0;
            && Valid(resolved) && resolved.subscriptions == db.subscriptions
            && (after.subscriptions == db.subscriptions
                || after == MarkPaid(resolved, SyncPaid(id, p)).0
                || after == MarkFailed(resolved, cfg, SyncFailed(id, p), now).0)
  {
    ResolvedIsValid(db, p);
  }

  lemma SyncInvoiceKeepsPlans(db: Db, cfg: Config, p: SyncParams, now: int)
    requires Valid(db)
    ensures KeepsPlans(db, SyncInvoice(db, cfg, p, now).0) && OnlyKnown(db, SyncInvoice(db, cfg, p, now).0)
  {
    var (resolved, _, id) := ResolveInvoice(db, p);
    SyncForwards(db, cfg, p, now);
    MarkPaidKeepsPlans(resolved, SyncPaid(id, p));
    MarkFailedKeepsPlans(resolved, cfg, SyncFailed(id, p), now);
    ForwardingKeepsPlans(db, resolved, SyncInvoice(db, cfg, p, now).0, MarkPaid(resolved, SyncPaid(id, p)).0,
                         MarkFailed(resolved, cfg, SyncFailed(id, p), now).0);
  }

  lemma ForwardingKeepsPlans(db: Db, resolved: Db, after: Db, paid: Db, failed: Db)
    requires resolved.subscriptions == db.subscriptions
    requires after.subscriptions == db.subscriptions || after == paid || after == failed
    requires KeepsPlans(resolved, paid) && OnlyKnown(resolved, paid) && KeepsPlans(resolved, failed)
        && OnlyKnown(resolved, failed)
    ensures KeepsPlans(db, after) && OnlyKnown(db, after)
  {
  }

  lemma CheckoutKeepsPlans(db: Db, id: Id, provider: Provider, session: Option<Id>, external: Option<Id>)
    requires Valid(db)
    ensures var after := RecordCheckout(db, id, provider, session, external).0;
            KeepsPlans(db, after) && OnlyKnown(db, after)
  {
    if id in db.invoices {
      assert Refers(db, db.invoices[id]);
    }
  }

  lemma CancelKeepsPlans(db: Db, external: Id)
    requires Valid(db)
    ensures KeepsPlans(db, CancelByExternalId(db, external).0) && OnlyKnown(db, CancelByExternalId(db, external).0)
  {
  }

  lemma SubscriptionEventKeepsPlans(db: Db, cfg: Config, e: SubscriptionEvent, now: int)
    requires Valid(db)
    ensures KeepsPlans(db, SyncSubscription(db, cfg, e, now).0) && OnlyKnown(db, SyncSubscription(db, cfg, e, now).0)
  {
  }

  lemma CancelAtPeriodEndKeepsPlans(db: Db, id: Id, end: Option<Option<int>>)
    ensures KeepsPlans(db, CancelAtPeriodEnd(db, id, end).0) && OnlyKnown(db, CancelAtPeriodEnd(db, id, end).0)
  {
  }

  lemma StepIsValid(db: Db, cfg: Config, step: Step)
    requires Valid(db) && ValidPlans(db)
    ensures Valid(Apply(db, cfg, step).0) && ValidPlans(Apply(db, cfg, step).0)
  {
    match step
    case SyncExternalInvoice(p, now) =>
      SyncInvoiceIsValid(db, cfg, p, now);
      SyncInvoiceKeepsPlans(db, cfg, p, now);
    case ReportPaid(p) =>
      MarkPaidIsValid(db, p);
      MarkPaidKeepsPlans(db, p);
    case ReportFailed(p, now) =>
      MarkFailedIsValid(db, cfg, p, now);
      MarkFailedKeepsPlans(db, cfg, p, now);
    case CompleteCheckout(id, provider, session, external) =>
      CheckoutIsValid(db, id, provider, session, external);
      CheckoutKeepsPlans(db, id, provider, session, external);
    case CancelExternal(external) =>
      CancelByExternalIdIsValid(db, external);
      CancelKeepsPlans(db, external);
    case SyncExternalSubscription(e, now) =>
      SyncSubscriptionIsValid(db, cfg, e, now);
      SubscriptionEventKeepsPlans(db, cfg, e, now);
    case Cancel(id, end) =>
      CancelAtPeriodEndIsValid(db, id, end);
      CancelAtPeriodEndKeepsPlans(db, id, end);
    case Subscribe(s, plan, provider, start, end, createdAt) =>
      if s !in db.subscriptions && ValidPlan(plan) {
        SubscribedIsValid(db, s, plan, provider, start, end, createdAt);
      }
    case SettlePeriod(id, records, at) =>
      MaterializedIfDueIsValid(db, records, id, at);
  }

  lemma SettlingAddsNone(db: Db, records: seq<UsageIndex.UsageRecord>, id: Id, at: int)
    requires Valid(db) && ValidPlans(db)
    ensures MaterializedIfDue(db, records, id, at).0.subscriptions.Keys == db.subscriptions.Keys
  {
    if id in db.invoices && IsSettleable(db.invoices[id]) {
      assert Refers(db, db.invoices[id]);
    }
  }

  /** Only subscribing adds a subscription. */
  lemma OnlySubscribingAdds(db: Db, cfg: Config, step: Step)
    requires Valid(db) && ValidPlans(db) && !step.Subscribe?
    ensures OnlyKnown(db, Apply(db, cfg, step).0)
  {
    match step
    case SyncExternalInvoice(p, now) => SyncInvoiceKeepsPlans(db, cfg, p, now);
    case ReportPaid(p) => MarkPaidKeepsPlans(db, p);
    case ReportFailed(p, now) => MarkFailedKeepsPlans(db, cfg, p, now);
    case CompleteCheckout(id, provider, session, external) => CheckoutKeepsPlans(db, id, provider, session, external);
    case CancelExternal(external) => CancelKeepsPlans(db, external);
    case SyncExternalSubscription(e, now) => SubscriptionEventKeepsPlans(db, cfg, e, now);
    case Cancel(id, end) => CancelAtPeriodEndKeepsPlans(db, id, end);
    case SettlePeriod(id, records, at) =>
      SettlingAddsNone(db, records, id, at);
  }

  // ---------------------------------------------------------------- runs

  ghost function Run(db: Db, cfg: Config, steps: seq<Step>): (after: Db)
    requires Valid(db) && ValidPlans(db)
    ensures Valid(after) && ValidPlans(after)
  {
    if steps == [] then db
    else
      var before := Run(db, cfg, steps[..|steps| - 1]);
      StepIsValid(before, cfg, steps[|steps| - 1]);
      Apply(before, cfg, steps[|steps| - 1]).0
  }
}
