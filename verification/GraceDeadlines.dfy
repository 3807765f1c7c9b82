/** The grace deadline of a past due subscription over every run of billing operations. */
module GraceDeadlines {
  import opened Common
  import opened UtcCalendar
  import opened BillingTypes
  import opened BillingDb
  import opened Settlement
  import opened OverageCollection
  import opened PeriodChain
  import opened BillingSteps
  import UsageIndex

  /** When the step runs, for the steps that look at the clock. */
  function NowOf(step: Step): int {
    match step
    case SyncExternalInvoice(_, now) => now
    case ReportFailed(_, now) => now
    case SyncExternalSubscription(_, now) => now
    case _ => 0
  }

  predicate Recomputed(cfg: Config, a: Subscription, b: Subscription, now: int) {
    b.gracePeriodEndsAt
        == GracePeriodEnd(cfg, b.status, b.currentPeriodStart, b.currentPeriodEnd, a.gracePeriodEndsAt, now)
  }

  /** All a step can do to a subscription's status and deadline: leave both, make it ACTIVE or CANCELED with
      no deadline, or recompute the deadline for its new status. */
  predicate Moves(cfg: Config, a: Subscription, b: Subscription, now: int) {
    || (b.status == a.status && b.gracePeriodEndsAt == a.gracePeriodEndsAt)
    || (b.status in {ACTIVE, CANCELED} && b.gracePeriodEndsAt.None?)
    || Recomputed(cfg, a, b, now)
  }

  ghost predicate AllMove(db: Db, after: Db, cfg: Config, now: int) {
    forall s :: s in db.subscriptions ==>
        s in after.subscriptions && Moves(cfg, db.subscriptions[s], after.subscriptions[s], now)
  }

  lemma PaidMoves(db: Db, cfg: Config, p: PaidParams, now: int)
    requires Valid(db)
    ensures AllMove(db, MarkPaid(db, p).0, cfg, now)
  {
    if p.invoiceId in db.invoices {
      PaidWrites(db, p);
    }
  }

  lemma FailedMoves(db: Db, cfg: Config, p: FailedParams, now: int)
    requires Valid(db)
    ensures AllMove(db, MarkFailed(db, cfg, p, now).0, cfg, now)
  {
    if p.invoiceId in db.invoices {
      FailedWrites(db, cfg, p, now);
    }
  }

  lemma ForwardingMoves(db: Db, resolved: Db, after: Db, paid: Db, failed: Db, cfg: Config, now: int)
    requires resolved.subscriptions == db.subscriptions
    requires after.subscriptions == db.subscriptions || after == paid || after == failed
    requires AllMove(resolved, paid, cfg, now) && AllMove(resolved, failed, cfg, now)
    ensures AllMove(db, after, cfg, now)
  {
  }

  lemma SyncMoves(db: Db, cfg: Config, p: SyncParams, now: int)
    requires Valid(db)
    ensures AllMove(db, SyncInvoice(db, cfg, p, now).0, cfg, now)
  {
    var (resolved, _, id) := ResolveInvoice(db, p);
    SyncForwards(db, cfg, p, now);
    PaidMoves(resolved, cfg, SyncPaid(id, p), now);
    FailedMoves(resolved, cfg, SyncFailed(id, p), now);
    ForwardingMoves(db, resolved, SyncInvoice(db, cfg, p, now).0, MarkPaid(resolved, SyncPaid(id, p)).0,
                    MarkFailed(resolved, cfg, SyncFailed(id, p), now).0, cfg, now);
  }

  lemma SettlingMoves(db: Db, after: Db, cfg: Config, id: Id, settled: Settled, nextEnd: int, at: int, now: int)
    requires id in db.invoices && db.invoices[id].subscriptionId in db.subscriptions
    requires Writes(db, after, id, settled, nextEnd, at)
    ensures AllMove(db, after, cfg, now)
  {
  }

  lemma PeriodSettlingMoves(db: Db, cfg: Config, id: Id, records: seq<UsageIndex.UsageRecord>, at: int, now: int)
    requires Valid(db) && ValidPlans(db)
    ensures AllMove(db, MaterializedIfDue(db, records, id, at).0, cfg, now)
  {
    if Settles(db, id) {
      MaterializedIfDueWrites(db, records, id, at);
      SettlingMoves(db, MaterializedIfDue(db, records, id, at).0, cfg, id, SettlementOf(db, records, id),
                    AddPlanPeriod(db.invoices[id].periodEnd), at, now);
    }
  }

  lemma CancelMoves(db: Db, cfg: Config, external: Id, now: int)
    requires Valid(db)
    ensures AllMove(db, CancelByExternalId(db, external).0, cfg, now)
  {
  }

  lemma SubscriptionEventMoves(db: Db, cfg: Config, e: SubscriptionEvent, now: int)
    requires Valid(db)
    ensures AllMove(db, SyncSubscription(db, cfg, e, now).0, cfg, now)
  {
  }

  lemma CancelAtPeriodEndMoves(db: Db, cfg: Config, id: Id, end: Option<Option<int>>, now: int)
    ensures AllMove(db, CancelAtPeriodEnd(db, id, end).0, cfg, now)
  {
  }

  lemma SubscribingMoves(db: Db, cfg: Config, step: Step)
    requires Valid(db) && ValidPlans(db) && step.Subscribe?
    ensures AllMove(db, Apply(db, cfg, step).0, cfg, NowOf(step))
  {
  }

  lemma CheckoutMoves(
    db: Db, cfg: Config, id: Id, provider: Provider, session: Option<Id>, external: Option<Id>, now: int)
    requires Valid(db)
    ensures AllMove(db, RecordCheckout(db, id, provider, session, external).0, cfg, now)
  {
    if id in db.invoices {
      assert Refers(db, db.invoices[id]);
    }
  }

  lemma StepMoves(db: Db, cfg: Config, step: Step)
    requires Valid(db) && ValidPlans(db)
    ensures AllMove(db, Apply(db, cfg, step).0, cfg, NowOf(step))
  {
    match step
    case SyncExternalInvoice(p, now) => SyncMoves(db, cfg, p, now);
    case ReportPaid(p) => PaidMoves(db, cfg, p, 0);
    case ReportFailed(p, now) => FailedMoves(db, cfg, p, now);
    case SettlePeriod(id, records, at) => PeriodSettlingMoves(db, cfg, id, records, at, NowOf(step));
    case CompleteCheckout(id, provider, session, external) =>
      CheckoutMoves(db, cfg, id, provider, session, external, NowOf(step));
    case CancelExternal(external) => CancelMoves(db, cfg, external, NowOf(step));
    case SyncExternalSubscription(e, now) => SubscriptionEventMoves(db, cfg, e, now);
    case Cancel(id, end) => CancelAtPeriodEndMoves(db, cfg, id, end, NowOf(step));
    case Subscribe(_, _, _, _, _, _) => SubscribingMoves(db, cfg, step);
  }

  // ---------------------------------------------------------------- only past due subscriptions have a deadline

  ghost predicate GraceOnlyPastDue(db: Db) {
    forall s :: s in db.subscriptions && db.subscriptions[s].gracePeriodEndsAt.Some? ==>
        db.subscriptions[s].status == SUB_PAST_DUE
  }

  lemma NewSubscriptionsHaveNoDeadline(db: Db, cfg: Config, step: Step, s: Id)
    requires Valid(db) && ValidPlans(db)
    ensures var after := Apply(db, cfg, step).0;
            s in after.subscriptions && s !in db.subscriptions ==> after.subscriptions[s].gracePeriodEndsAt.None?
  {
    if !step.Subscribe? {
      OnlySubscribingAdds(db, cfg, step);
    }
  }

  /** In every reachable state a grace deadline is only found on a past due subscription. */
  lemma {:induction false} DeadlineImpliesPastDue(db: Db, cfg: Config, steps: seq<Step>)
    requires Valid(db) && ValidPlans(db) && GraceOnlyPastDue(db)
    ensures GraceOnlyPastDue(Run(db, cfg, steps))
  {
    if steps != [] {
      var before, step := Run(db, cfg, steps[..|steps| - 1]), steps[|steps| - 1];
      DeadlineImpliesPastDue(db, cfg, steps[..|steps| - 1]);
      StepMoves(before, cfg, step);
      var after := Apply(before, cfg, step).0;
      forall s | s in after.subscriptions && after.subscriptions[s].gracePeriodEndsAt.Some?
        ensures after.subscriptions[s].status == SUB_PAST_DUE
      {
        NewSubscriptionsHaveNoDeadline(before, cfg, step, s);
      }
    }
  }

  // ---------------------------------------------------------------- the deadline never moves earlier

  predicate PastDueInKnownPeriod(db: Db, s: Id) {
    s in db.subscriptions && db.subscriptions[s].status == SUB_PAST_DUE && db.subscriptions[s].currentPeriodStart.Some?
  }

  /** s is past due in a known period in every state from the i-th on. */
  ghost predicate StaysPastDue(db: Db, cfg: Config, steps: seq<Step>, s: Id, i: nat)
    requires Valid(db) && ValidPlans(db) && i <= |steps|
  {
    PastDueInKnownPeriod(Run(db, cfg, steps), s) && (i < |steps| ==> StaysPastDue(db, cfg, steps[..|steps| - 1], s, i))
  }

  predicate DeadlineAtLeast(db: Db, s: Id, t: int) {
    s in db.subscriptions && db.subscriptions[s].gracePeriodEndsAt.Some?
        && db.subscriptions[s].gracePeriodEndsAt.value >= t
  }

  lemma MovesKeepDeadline(db: Db, after: Db, cfg: Config, now: int, s: Id, t: int)
    requires AllMove(db, after, cfg, now) && cfg.graceDays > 0
    requires PastDueInKnownPeriod(after, s) && DeadlineAtLeast(db, s, t)
    ensures DeadlineAtLeast(after, s, t)
  {
    assert Moves(cfg, db.subscriptions[s], after.subscriptions[s], now);
  }

  /** A deadline once reached only moves later while the subscription stays past due in a known period. */
  lemma {:induction false} DeadlineNeverMovesEarlier(db: Db, cfg: Config, steps: seq<Step>, s: Id, i: nat, t: int)
    requires Valid(db) && ValidPlans(db) && i <= |steps| && cfg.graceDays > 0
    requires StaysPastDue(db, cfg, steps, s, i) && DeadlineAtLeast(Run(db, cfg, steps[..i]), s, t)
    ensures DeadlineAtLeast(Run(db, cfg, steps), s, t)
    decreases |steps|
  {
    if i == |steps| {
      assert steps[..i] == steps;
    } else {
      var init := steps[..|steps| - 1];
      assert init[..i] == steps[..i];
      DeadlineNeverMovesEarlier(db, cfg, init, s, i, t);
      StepMoves(Run(db, cfg, init), cfg, steps[|steps| - 1]);
      MovesKeepDeadline(Run(db, cfg, init), Run(db, cfg, steps), cfg, NowOf(steps[|steps| - 1]), s, t);
    }
  }

  // ---------------------------------------------------------------- every failure allows the full grace period

  /** The step told subscription s that a payment failed, and was applied. */
  predicate FailureFor(db: Db, cfg: Config, step: Step, s: Id)
    requires Valid(db) && ValidPlans(db)
  {
    && Apply(db, cfg, step).1.Done?
    && match step
       case ReportFailed(p, _) =>
         && p.invoiceId in db.invoices && db.invoices[p.invoiceId].kind == SUBSCRIPTION
            && db.invoices[p.invoiceId].subscriptionId == s
       case SyncExternalInvoice(p, _) =>
         var (resolved, _, id) := ResolveInvoice(db, p);
         && p.status in {PAST_DUE, VOID} && id in resolved.invoices
         && resolved.invoices[id].kind == SUBSCRIPTION && resolved.invoices[id].subscriptionId == s
       case SyncExternalSubscription(e, _) =>
         e.status == Some(SUB_PAST_DUE) && SubscriptionByExternalId(db, e.externalSubscriptionId) == Some(s)
       case _ => false
  }

  /** graceDays after the period ends, or after now if that is later */
  function FullGrace(cfg: Config, sub: Subscription, now: int): int {
    Max(now, OrElse(sub.currentPeriodEnd, now)) + cfg.graceDays * 86400000
  }

  lemma FailedGivesGrace(db: Db, cfg: Config, p: FailedParams, now: int)
    requires Valid(db) && p.invoiceId in db.invoices && db.invoices[p.invoiceId].kind == SUBSCRIPTION
    requires MarkFailed(db, cfg, p, now).1.Done?
    ensures var s, after := db.invoices[p.invoiceId].subscriptionId, MarkFailed(db, cfg, p, now).0;
            && s in db.subscriptions && s in after.subscriptions && after.subscriptions[s].status == SUB_PAST_DUE
            && Recomputed(cfg, db.subscriptions[s], after.subscriptions[s], now)
  {
    assert Refers(db, db.invoices[p.invoiceId]);
  }

  lemma FailureRecomputes(db: Db, cfg: Config, step: Step, s: Id)
    requires Valid(db) && ValidPlans(db) && FailureFor(db, cfg, step, s)
    ensures var after := Apply(db, cfg, step).0;
            && s in db.subscriptions && s in after.subscriptions && after.subscriptions[s].status == SUB_PAST_DUE
            && Recomputed(cfg, db.subscriptions[s], after.subscriptions[s], NowOf(step))
  {
    match step
    case ReportFailed(p, now) => FailedGivesGrace(db, cfg, p, now);
    case SyncExternalInvoice(p, now) =>
      var (resolved, outcome, id) := ResolveInvoice(db, p);
      ResolvedIsValid(db, p);
      FailedGivesGrace(resolved, cfg, SyncFailed(id, p), now);
    case SyncExternalSubscription(e, now) =>
  }

  lemma FailureGivesGrace(db: Db, cfg: Config, step: Step, s: Id)
    requires Valid(db) && ValidPlans(db) && FailureFor(db, cfg, step, s) && cfg.graceDays > 0
    requires PastDueInKnownPeriod(Apply(db, cfg, step).0, s)
    ensures var after := Apply(db, cfg, step).0;
            DeadlineAtLeast(after, s, FullGrace(cfg, after.subscriptions[s], NowOf(step)))
  {
    FailureRecomputes(db, cfg, step, s);
  }

  /** After a failure, and for as long as the subscription stays past due in a known period, the deadline is
      at or after the end of the grace period counted from that failure. */
  lemma EveryFailureAllowsFullGrace(db: Db, cfg: Config, steps: seq<Step>, s: Id, i: nat)
    requires Valid(db) && ValidPlans(db) && i < |steps| && cfg.graceDays > 0
    requires FailureFor(Run(db, cfg, steps[..i]), cfg, steps[i], s) && StaysPastDue(db, cfg, steps, s, i + 1)
    ensures var failed := Run(db, cfg, steps[..i + 1]);
            && s in failed.subscriptions
            && DeadlineAtLeast(Run(db, cfg, steps), s, FullGrace(cfg, failed.subscriptions[s], NowOf(steps[i])))
  {
    var before, failed := Run(db, cfg, steps[..i]), Run(db, cfg, steps[..i + 1]);
    assert steps[..i + 1][..i] == steps[..i] && steps[..i + 1][i] == steps[i];
    PastDueAt(db, cfg, steps, s, i + 1);
    FailureGivesGrace(before, cfg, steps[i], s);
    DeadlineNeverMovesEarlier(db, cfg, steps, s, i + 1, FullGrace(cfg, failed.subscriptions[s], NowOf(steps[i])));
  }

  lemma {:induction false} PastDueAt(db: Db, cfg: Config, steps: seq<Step>, s: Id, i: nat)
    requires Valid(db) && ValidPlans(db) && i <= |steps| && StaysPastDue(db, cfg, steps, s, i)
    ensures PastDueInKnownPeriod(Run(db, cfg, steps[..i]), s)
    decreases |steps|
  {
    if i == |steps| {
      assert steps[..i] == steps;
    } else {
      PastDueAt(db, cfg, steps[..|steps| - 1], s, i);
      assert steps[..|steps| - 1][..i] == steps[..i];
    }
  }

  /** Exactly what a failure makes of the deadline: none if grace is off or the period start is unknown, else
      the later of the deadline there was and the end of the full grace period. */
  lemma DeadlineAfterFailureIsExact(db: Db, cfg: Config, step: Step, s: Id)
    requires Valid(db) && ValidPlans(db) && FailureFor(db, cfg, step, s)
    ensures var after := Apply(db, cfg, step).0;
            && s in db.subscriptions && s in after.subscriptions
            && var full := FullGrace(cfg, after.subscriptions[s], NowOf(step));
               after.subscriptions[s].gracePeriodEndsAt ==
                 if cfg.graceDays <= 0 || after.subscriptions[s].currentPeriodStart.None? then None
                 else Some(Max(full, OrElse(db.subscriptions[s].gracePeriodEndsAt, full)))
  {
    FailureRecomputes(db, cfg, step, s);
  }
}
