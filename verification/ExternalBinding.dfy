/** Which local invoice an external invoice id stands for, over every run of billing operations. */
module ExternalBinding {
  import opened Common
  import opened BillingTypes
  import opened BillingDb
  import opened Settlement
  import opened OverageCollection
  import opened PeriodChain
  import opened BillingSteps
  import UsageIndex

  predicate Bound(db: Db, external: Id, id: Id) {
    id in db.invoices && db.invoices[id].externalInvoiceId == Some(external)
  }

  ghost predicate KeepsBindings(db: Db, after: Db) {
    forall id :: id in db.invoices && db.invoices[id].externalInvoiceId.Some? ==>
      id in after.invoices && after.invoices[id].externalInvoiceId == db.invoices[id].externalInvoiceId
  }

  /** A payment report names an external invoice other than the one its invoice is bound to. */
  predicate Contradicts(db: Db, invoiceId: Id, external: Option<Id>) {
    && invoiceId in db.invoices && db.invoices[invoiceId].externalInvoiceId.Some?
    && external.Some? && external != db.invoices[invoiceId].externalInvoiceId
  }

  predicate Rebinds(db: Db, step: Step) {
    || (step.ReportPaid? && Contradicts(db, step.paid.invoiceId, step.paid.externalInvoiceId))
    || (step.ReportFailed? && Contradicts(db, step.failed.invoiceId, step.failed.externalInvoiceId))
  }

  // ---------------------------------------------------------------- each operation keeps bindings

  lemma PaidKeepsBindings(db: Db, p: PaidParams)
    requires Valid(db)
    ensures !Contradicts(db, p.invoiceId, p.externalInvoiceId) ==> KeepsBindings(db, MarkPaid(db, p).0)
    ensures Contradicts(db, p.invoiceId, p.externalInvoiceId) && MarkPaid(db, p).1.Done? ==>
        !KeepsBindings(db, MarkPaid(db, p).0)
  {
    if p.invoiceId in db.invoices {
      PaidWrites(db, p);
    }
  }

  lemma FailedKeepsBindings(db: Db, cfg: Config, p: FailedParams, now: int)
    requires Valid(db)
    ensures !Contradicts(db, p.invoiceId, p.externalInvoiceId) ==> KeepsBindings(db, MarkFailed(db, cfg, p, now).0)
    ensures Contradicts(db, p.invoiceId, p.externalInvoiceId) && MarkFailed(db, cfg, p, now).1.Done? ==>
              !KeepsBindings(db, MarkFailed(db, cfg, p, now).0)
  {
    if p.invoiceId in db.invoices {
      FailedWrites(db, cfg, p, now);
    }
  }

  /** Resolution finds an invoice that is free for the external id, or creates one where none is bound to it. */
  lemma ResolvedShape(db: Db, p: SyncParams)
    requires Valid(db) && ResolveInvoice(db, p).1.Done?
    ensures var (resolved, _, id) := ResolveInvoice(db, p);
            || (resolved == db && id in db.invoices
               && db.invoices[id].externalInvoiceId in {None, Some(p.externalInvoiceId)})
            || (&& id == db.nextInvoiceId && (forall k: Id :: !Bound(db, p.externalInvoiceId, k))
                && exists s :: resolved.invoices == db.invoices[id := SyncedInvoice(s, p)])
  {
  }

  lemma ResolvingKeepsBindings(db: Db, p: SyncParams)
    requires Valid(db)
    ensures var (resolved, outcome, id) := ResolveInvoice(db, p);
            && Valid(resolved) && KeepsBindings(db, resolved)
            && (outcome.Done? ==>
               id in resolved.invoices
               && resolved.invoices[id].externalInvoiceId in {None, Some(p.externalInvoiceId)})
  {
    ResolvedIsValid(db, p);
    if ResolveInvoice(db, p).1.Done? {
      ResolvedShape(db, p);
    }
  }

  /** The update that ends a sync. */
  function Forwarded(db: Db, cfg: Config, p: SyncParams, now: int, id: Id): (Db, Outcome)
    requires Valid(db) && id in db.invoices
  {
    if p.status == DRAFT then WithInvoice(db, id, DraftedInvoice(db.invoices[id], p))
    else if p.status == PAID then MarkPaid(db, SyncPaid(id, p))
    else MarkFailed(db, cfg, SyncFailed(id, p), now)
  }

  /** An operation on one invoice that may bind it to this external invoice and to no other. */
  ghost predicate BindsOnly(db: Db, after: Db, outcome: Outcome, external: Id, id: Id) {
    && KeepsBindings(db, after) && after.nextInvoiceId == db.nextInvoiceId && after.invoices.Keys == db.invoices.Keys
    && !outcome.Ignored? && (outcome.Done? ==> Bound(after, external, id))
  }

  lemma PaidBinds(db: Db, p: SyncParams, id: Id)
    requires Valid(db) && id in db.invoices && db.invoices[id].externalInvoiceId in {None, Some(p.externalInvoiceId)}
    ensures BindsOnly(db, MarkPaid(db, SyncPaid(id, p)).0, MarkPaid(db, SyncPaid(id, p)).1, p.externalInvoiceId, id)
  {
    PaidWrites(db, SyncPaid(id, p));
  }

  lemma FailedBinds(db: Db, cfg: Config, p: SyncParams, now: int, id: Id)
    requires Valid(db) && id in db.invoices && db.invoices[id].externalInvoiceId in {None, Some(p.externalInvoiceId)}
    ensures var failed := MarkFailed(db, cfg, SyncFailed(id, p), now);
            BindsOnly(db, failed.0, failed.1, p.externalInvoiceId, id)
  {
    FailedWrites(db, cfg, SyncFailed(id, p), now);
  }

  lemma DraftedBinds(db: Db, p: SyncParams, id: Id)
    requires id in db.invoices && db.invoices[id].externalInvoiceId in {None, Some(p.externalInvoiceId)}
    ensures var drafted := WithInvoice(db, id, DraftedInvoice(db.invoices[id], p));
            BindsOnly(db, drafted.0, drafted.1, p.externalInvoiceId, id)
  {
  }

  lemma ForwardedKeepsBindings(db: Db, cfg: Config, p: SyncParams, now: int, id: Id)
    requires Valid(db) && id in db.invoices && db.invoices[id].externalInvoiceId in {None, Some(p.externalInvoiceId)}
    ensures BindsOnly(db, Forwarded(db, cfg, p, now, id).0, Forwarded(db, cfg, p, now, id).1, p.externalInvoiceId, id)
  {
    if p.status == PAID {
      PaidBinds(db, p, id);
    } else if p.status == DRAFT {
      DraftedBinds(db, p, id);
    } else {
      FailedBinds(db, cfg, p, now, id);
    }
  }

  lemma KeepingComposes(a: Db, b: Db, c: Db)
    requires KeepsBindings(a, b) && KeepsBindings(b, c)
    ensures KeepsBindings(a, c)
  {
  }

  lemma SyncResolvesThenForwards(db: Db, cfg: Config, p: SyncParams, now: int)
    requires Valid(db)
    ensures var (resolved, outcome, id) := ResolveInvoice(db, p);
            && Valid(resolved)
            && SyncInvoice(db, cfg, p, now) ==
               if !outcome.Done? then (resolved, outcome, 0)
               else (Forwarded(resolved, cfg, p, now, id).0, Forwarded(resolved, cfg, p, now, id).1, id)
  {
    ResolvedIsValid(db, p);
  }

  /** A sync keeps every binding and, if it succeeds, binds its external invoice to the invoice it used. */
  lemma SyncBinds(db: Db, cfg: Config, p: SyncParams, now: int)
    requires Valid(db)
    ensures var (after, outcome, id) := SyncInvoice(db, cfg, p, now);
            KeepsBindings(db, after) && !outcome.Ignored? && (outcome.Done? ==> Bound(after, p.externalInvoiceId, id))
  {
    var (resolved, outcome, id) := ResolveInvoice(db, p);
    SyncResolvesThenForwards(db, cfg, p, now);
    ResolvingKeepsBindings(db, p);
    if outcome.Done? {
      ForwardedKeepsBindings(resolved, cfg, p, now, id);
      KeepingComposes(db, resolved, Forwarded(resolved, cfg, p, now, id).0);
    }
  }

  lemma SettlingKeepsBindings(db: Db, records: seq<UsageIndex.UsageRecord>, id: Id, at: int)
    requires Valid(db) && ValidPlans(db)
    ensures KeepsBindings(db, MaterializedIfDue(db, records, id, at).0)
  {
    if Settles(db, id) {
      MaterializedIfDueWrites(db, records, id, at);
    }
  }

  lemma SubscriptionStepsKeepInvoices(db: Db, cfg: Config, step: Step)
    requires Valid(db) && ValidPlans(db) && (step.CancelExternal? || step.SyncExternalSubscription? || step.Cancel?)
    ensures Apply(db, cfg, step).0.invoices == db.invoices
  {
  }

  lemma CheckoutKeepsBindings(db: Db, id: Id, provider: Provider, session: Option<Id>, external: Option<Id>)
    requires Valid(db)
    ensures KeepsBindings(db, RecordCheckout(db, id, provider, session, external).0)
  {
  }

  lemma SubscribingKeepsBindings(db: Db, cfg: Config, step: Step)
    requires Valid(db) && ValidPlans(db) && step.Subscribe?
    ensures KeepsBindings(db, Apply(db, cfg, step).0)
  {
  }

  lemma StepKeepsBindings(db: Db, cfg: Config, step: Step)
    requires Valid(db) && ValidPlans(db) && !Rebinds(db, step)
    ensures KeepsBindings(db, Apply(db, cfg, step).0)
  {
    match step
    case SyncExternalInvoice(p, now) => SyncBinds(db, cfg, p, now);
    case ReportPaid(p) => PaidKeepsBindings(db, p);
    case ReportFailed(p, now) => FailedKeepsBindings(db, cfg, p, now);
    case SettlePeriod(id, records, at) => SettlingKeepsBindings(db, records, id, at);
    case CompleteCheckout(id, provider, session, external) => CheckoutKeepsBindings(db, id, provider, session,
        external);
    case CancelExternal(_) => SubscriptionStepsKeepInvoices(db, cfg, step);
    case SyncExternalSubscription(_, _) => SubscriptionStepsKeepInvoices(db, cfg, step);
    case Cancel(_, _) => SubscriptionStepsKeepInvoices(db, cfg, step);
    case Subscribe(_, _, _, _, _, _) => SubscribingKeepsBindings(db, cfg, step);
  }

  /** A payment report that is applied keeps every binding exactly when it does not contradict its invoice's own. */
  lemma ReportsKeepBindingsExactlyWhenConsistent(db: Db, cfg: Config, step: Step)
    requires Valid(db) && ValidPlans(db) && (step.ReportPaid? || step.ReportFailed?) && Apply(db, cfg, step).1.Done?
    ensures KeepsBindings(db, Apply(db, cfg, step).0) <==> !Rebinds(db, step)
  {
    match step
    case ReportPaid(p) => PaidKeepsBindings(db, p);
    case ReportFailed(p, now) => FailedKeepsBindings(db, cfg, p, now);
  }

  /** An overage invoice that the draft webhook may bind while its charge is under way. */
  predicate AwaitsCharge(db: Db, id: Id) {
    && id in db.invoices && db.invoices[id].kind == OVERAGE && db.invoices[id].status == DRAFT
    && db.invoices[id].externalInvoiceId.None?
  }

  predicate Unbound(db: Db, external: Id) { forall id :: id in db.invoices ==> !Bound(db, external, id) }

  /** A webhook for a draft that names the invoice in its metadata. */
  predicate DraftFor(p: SyncParams, id: Id) {
    p.status == DRAFT && p.allowMetadataInvoiceId && p.metadataInvoiceId == Some(id) && p.checkoutSessionId.None?
  }

  lemma DraftBinds(db: Db, cfg: Config, id: Id, draft: SyncParams, now: int)
    requires Valid(db) && AwaitsCharge(db, id) && DraftFor(draft, id) && Unbound(db, draft.externalInvoiceId)
    ensures var after := SyncInvoice(db, cfg, draft, now).0;
            && after == db.(invoices := db.invoices[id := DraftedInvoice(db.invoices[id], draft)])
            && Bound(after, draft.externalInvoiceId, id)
  {
    var bound := InvoiceByExternalId(db, draft.externalInvoiceId);
    assert bound.Some? ==> Bound(db, draft.externalInvoiceId, bound.value);
    assert InvoiceFits(db, id, db.invoices[id]);
    forall other | other in db.invoices && other != id
      ensures !Clash(db.invoices[other].externalInvoiceId, Some(draft.externalInvoiceId))
    {
      assert !Bound(db, draft.externalInvoiceId, other);
    }
  }

  lemma ChargeRebinds(db: Db, id: Id, external: Id, charge: PaidParams)
    requires Valid(db) && id in db.invoices && db.invoices[id].kind == OVERAGE && db.invoices[id].status == DRAFT
    requires Bound(db, external, id) && charge.externalInvoiceId.Some? && charge.externalInvoiceId.value != external
    requires Unbound(db, charge.externalInvoiceId.value) && charge.checkoutSessionId.None? && charge.invoiceId == id
    ensures var after := MarkPaid(db, charge).0;
            Bound(after, charge.externalInvoiceId.value, id) && !Bound(after, external, id)
  {
    assert InvoiceFits(db, id, db.invoices[id]);
    forall other | other in db.invoices && other != id
      ensures !Clash(db.invoices[other].externalInvoiceId, charge.externalInvoiceId)
    {
      assert !Bound(db, charge.externalInvoiceId.value, other);
    }
  }

  /** A charge whose answer names another external invoice than a draft webhook bound meanwhile: of every overage
      invoice the binding is lost. */
  lemma LateChargeRebinds(db: Db, cfg: Config, id: Id, draft: SyncParams, now: int, charge: PaidParams)
    requires Valid(db) && AwaitsCharge(db, id) && DraftFor(draft, id) && Unbound(db, draft.externalInvoiceId)
    requires charge.invoiceId == id && charge.checkoutSessionId.None? && charge.externalInvoiceId.Some?
    requires charge.externalInvoiceId.value != draft.externalInvoiceId && Unbound(db, charge.externalInvoiceId.value)
    ensures var drafted := SyncInvoice(db, cfg, draft, now).0;
            && Valid(drafted) && Bound(drafted, draft.externalInvoiceId, id)
            && Rebinds(drafted, ReportPaid(charge))
            && !Bound(MarkPaid(drafted, charge).0, draft.externalInvoiceId, id)
            && Bound(MarkPaid(drafted, charge).0, charge.externalInvoiceId.value, id)
  {
    SyncInvoiceIsValid(db, cfg, draft, now);
    DraftBinds(db, cfg, id, draft, now);
    var drafted := SyncInvoice(db, cfg, draft, now).0;
    forall k | k in drafted.invoices
      ensures !Bound(drafted, charge.externalInvoiceId.value, k)
    {
      assert !Bound(db, charge.externalInvoiceId.value, k);
    }
    ChargeRebinds(drafted, id, draft.externalInvoiceId, charge);
  }

  const SUBSCRIBER: Subscription :=
    Subscription(Plan(0, 1, None, true, Some(1), Some(1)), STRIPE, None, ACTIVE, Some(0), Some(10), None, false, 0)

  const SOURCE: Invoice :=
    Invoice(0, STRIPE, SUBSCRIPTION, None, None, None, Some(10), None, None, 0, PAID, 0, None,
            RetryState(0, None, None, None, None), 0, 10)

  const CHARGED: Invoice :=
    Invoice(0, STRIPE, OVERAGE, None, None, Some(0), None, Some(5), Some(5), 5, DRAFT, 0, None,
            RetryState(0, None, None, None, None), 0, 10)

  const AWAITING: Db := Db(map[0 := SOURCE, 1 := CHARGED], map[0 := SUBSCRIBER], 2)

  /** For instance: the webhook binds in_1 to invoice 1, the charge then reports in_2. */
  lemma RebindingRun(cfg: Config)
    ensures var draft := SyncParams(STRIPE, 1, None, None, Some(1), true, 5, 0, 10, DRAFT, None, None);
            var charge := PaidParams(1, STRIPE, None, Some(2), None, None);
            && Valid(AWAITING) && Valid(SyncInvoice(AWAITING, cfg, draft, 0).0)
            && Bound(SyncInvoice(AWAITING, cfg, draft, 0).0, 1, 1)
            && Bound(MarkPaid(SyncInvoice(AWAITING, cfg, draft, 0).0, charge).0, 2, 1)
  {
    var draft := SyncParams(STRIPE, 1, None, None, Some(1), true, 5, 0, 10, DRAFT, None, None);
    LateChargeRebinds(AWAITING, cfg, 1, draft, 0, PaidParams(1, STRIPE, None, Some(2), None, None));
  }

  // ---------------------------------------------------------------- runs

  ghost predicate NothingRebinds(db: Db, cfg: Config, steps: seq<Step>)
    requires Valid(db) && ValidPlans(db)
  {
    steps != [] ==>
      && NothingRebinds(db, cfg, steps[..|steps| - 1])
      && !Rebinds(Run(db, cfg, steps[..|steps| - 1]), steps[|steps| - 1])
  }

  /** A binding is never changed again. */
  lemma {:induction false} BindingIsWrittenOnce(db: Db, cfg: Config, steps: seq<Step>, i: nat, external: Id, id: Id)
    requires Valid(db) && ValidPlans(db) && i <= |steps| && NothingRebinds(db, cfg, steps)
    requires Bound(Run(db, cfg, steps[..i]), external, id)
    ensures Bound(Run(db, cfg, steps), external, id)
    decreases |steps|
  {
    if i == |steps| {
      assert steps[..i] == steps;
    } else {
      var init := steps[..|steps| - 1];
      assert init[..i] == steps[..i];
      BindingIsWrittenOnce(db, cfg, init, i, external, id);
      StepKeepsBindings(Run(db, cfg, init), cfg, steps[|steps| - 1]);
    }
  }

  lemma {:induction false} PrefixesDoNotRebind(db: Db, cfg: Config, steps: seq<Step>, j: nat)
    requires Valid(db) && ValidPlans(db) && j <= |steps| && NothingRebinds(db, cfg, steps)
    ensures NothingRebinds(db, cfg, steps[..j])
    decreases |steps|
  {
    if j == |steps| {
      assert steps[..j] == steps;
    } else {
      PrefixesDoNotRebind(db, cfg, steps[..|steps| - 1], j);
      assert steps[..|steps| - 1][..j] == steps[..j];
    }
  }

  lemma BoundLater(db: Db, cfg: Config, steps: seq<Step>, i: nat, j: nat, external: Id, id: Id)
    requires Valid(db) && ValidPlans(db) && i <= j <= |steps| && NothingRebinds(db, cfg, steps)
    requires Bound(Run(db, cfg, steps[..i]), external, id)
    ensures Bound(Run(db, cfg, steps[..j]), external, id)
  {
    PrefixesDoNotRebind(db, cfg, steps, j);
    assert steps[..j][..i] == steps[..i];
    BindingIsWrittenOnce(db, cfg, steps[..j], i, external, id);
  }

  lemma BoundIsUnique(db: Db, external: Id, id: Id, other: Id)
    requires Valid(db) && Bound(db, external, id) && Bound(db, external, other)
    ensures id == other
  {
    assert InvoiceFits(db, id, db.invoices[id]);
  }

  /** The step is a sync that succeeds for this external invoice and uses this local one. */
  predicate Resolves(db: Db, cfg: Config, step: Step, external: Id, id: Id)
    requires Valid(db)
  {
    && step.SyncExternalInvoice? && step.sync.externalInvoiceId == external
    && var synced := SyncInvoice(db, cfg, step.sync, step.now);
       synced.1.Done? && synced.2 == id
  }

  /** Some step of the run, with the state it finds. */
  ghost predicate StepAt(db: Db, cfg: Config, steps: seq<Step>, n: nat, before: Db, step: Step)
    requires Valid(db) && ValidPlans(db)
  {
    n < |steps| && steps[n] == step && Run(db, cfg, steps[..n]) == before
  }

  lemma ResolvedIsBound(db: Db, cfg: Config, steps: seq<Step>, n: nat, before: Db, step: Step, external: Id, id: Id)
    requires Valid(db) && ValidPlans(db) && StepAt(db, cfg, steps, n, before, step)
    requires Valid(before) && Resolves(before, cfg, step, external, id)
    ensures Bound(Run(db, cfg, steps[..n + 1]), external, id)
  {
    assert steps[..n + 1][..n] == steps[..n] && steps[..n + 1][n] == steps[n];
    SyncBinds(before, cfg, step.sync, step.now);
  }

  lemma BoundOverRun(db: Db, cfg: Config, steps: seq<Step>, i: nat, j: nat, a: Id, b: Id, id: Id, other: Id)
    requires Valid(db) && ValidPlans(db) && NothingRebinds(db, cfg, steps) && i <= j <= |steps|
    requires Bound(Run(db, cfg, steps[..i]), a, id) && Bound(Run(db, cfg, steps[..j]), b, other)
    ensures a == b <==> id == other
  {
    BoundLater(db, cfg, steps, i, j, a, id);
    if a == b {
      BoundIsUnique(Run(db, cfg, steps[..j]), a, id, other);
    }
  }

  /** Over any run, two successful syncs use the same invoice exactly when they are for the same external
      invoice, whatever metadata they carry. */
  lemma ExternalIdNamesOneInvoice(
    db: Db, cfg: Config, steps: seq<Step>, i: nat, earlier: Db, first: Step, j: nat, later: Db, second: Step,
    a: Id, b: Id, id: Id, other: Id)
    requires Valid(db) && ValidPlans(db) && NothingRebinds(db, cfg, steps) && Valid(earlier) && Valid(later)
    requires i < j && StepAt(db, cfg, steps, i, earlier, first) && StepAt(db, cfg, steps, j, later, second)
    requires Resolves(earlier, cfg, first, a, id) && Resolves(later, cfg, second, b, other)
    ensures a == b <==> id == other
  {
    ResolvedIsBound(db, cfg, steps, i, earlier, first, a, id);
    ResolvedIsBound(db, cfg, steps, j, later, second, b, other);
    BoundOverRun(db, cfg, steps, i + 1, j + 1, a, b, id, other);
  }

  /** The n-th step is a sync for this external invoice that creates an invoice, even if it then fails. */
  ghost predicate Creates(db: Db, cfg: Config, steps: seq<Step>, n: nat, external: Id)
    requires Valid(db) && ValidPlans(db)
  {
    && n < |steps| && steps[n].SyncExternalInvoice? && steps[n].sync.externalInvoiceId == external
    && Run(db, cfg, steps[..n]).nextInvoiceId in SyncInvoice(Run(db, cfg, steps[..n]), cfg, steps[n].sync,
       steps[n].now).0.invoices
  }

  lemma CreatedInResolution(db: Db, cfg: Config, p: SyncParams, now: int)
    requires Valid(db) && db.nextInvoiceId in SyncInvoice(db, cfg, p, now).0.invoices
    ensures ResolveInvoice(db, p).1.Done? && db.nextInvoiceId in ResolveInvoice(db, p).0.invoices
  {
    var (resolved, outcome, id) := ResolveInvoice(db, p);
    SyncResolvesThenForwards(db, cfg, p, now);
    ResolvingKeepsBindings(db, p);
    if outcome.Done? {
      ForwardedKeepsBindings(resolved, cfg, p, now, id);
    }
  }

  lemma CreatedWhereUnbound(db: Db, p: SyncParams)
    requires Valid(db) && ResolveInvoice(db, p).1.Done? && db.nextInvoiceId in ResolveInvoice(db, p).0.invoices
    ensures Bound(ResolveInvoice(db, p).0, p.externalInvoiceId, db.nextInvoiceId)
    ensures forall id: Id :: !Bound(db, p.externalInvoiceId, id)
  {
    ResolvedShape(db, p);
    assert db.nextInvoiceId !in db.invoices;
  }

  lemma CreatedIsBound(db: Db, cfg: Config, p: SyncParams, now: int)
    requires Valid(db) && db.nextInvoiceId in SyncInvoice(db, cfg, p, now).0.invoices
    ensures Bound(SyncInvoice(db, cfg, p, now).0, p.externalInvoiceId, db.nextInvoiceId)
    ensures forall id: Id :: !Bound(db, p.externalInvoiceId, id)
  {
    CreatedInResolution(db, cfg, p, now);
    CreatedWhereUnbound(db, p);
    SyncResolvesThenForwards(db, cfg, p, now);
    ResolvingKeepsBindings(db, p);
    ForwardedKeepsBindings(ResolveInvoice(db, p).0, cfg, p, now, ResolveInvoice(db, p).2);
  }

  /** Each external invoice creates at most one local invoice. */
  lemma ExternalIdCreatesOneInvoice(db: Db, cfg: Config, steps: seq<Step>, i: nat, j: nat, external: Id)
    requires Valid(db) && ValidPlans(db) && NothingRebinds(db, cfg, steps)
    requires i < j && Creates(db, cfg, steps, i, external)
    ensures !Creates(db, cfg, steps, j, external)
  {
    var before := Run(db, cfg, steps[..i]);
    CreatedIsBound(before, cfg, steps[i].sync, steps[i].now);
    assert steps[..i + 1][..i] == steps[..i] && steps[..i + 1][i] == steps[i];
    if Creates(db, cfg, steps, j, external) {
      BoundLater(db, cfg, steps, i + 1, j, external, before.nextInvoiceId);
      CreatedIsBound(Run(db, cfg, steps[..j]), cfg, steps[j].sync, steps[j].now);
    }
  }
}
