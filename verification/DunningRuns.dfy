/** Everything that can happen to a renewal invoice while it stays past due: one retry worker, whose
    selection and retry are separate steps, and any billing operations in between. */
module DunningRuns {
  import opened Common
  import opened BillingTypes
  import opened ManagedRetryPolicy
  import opened BillingDb
  import opened Settlement
  import opened OverageCollection
  import PeriodChain
  import opened Dunning
  import opened PaymentProvider
  import opened ExternalBinding
  import BillingSteps
  import UsageIndex

  /** The retry the worker has selected the invoice for. */
  datatype Flight = Flight(managedRetryCount: int, selectedAt: int)

  /** log: when each retry of the invoice was attempted */
  datatype State = State(db: Db, flight: Option<Flight>, log: seq<int>)

  datatype Action =
    | Select(now: int)
    | Retry(call: Call)
    | RetryOther(due: Due, call: Call)
    | Bill(step: BillingSteps.Step)

  function Apply(st: State, cfg: Config, r: Id, action: Action): State
    requires Valid(st.db) && ValidPlans(st.db)
  {
    match action
    case Select(now) =>
      if st.flight.None? && IsDue(st.db, r, now)
          then st.(flight := Some(Flight(st.db.invoices[r].retry.retryCount, now))) else st
    case Retry(call) =>
      if st.flight.Some? && st.flight.value.selectedAt <= call.attemptedAt
      then State(AfterRetry(st.db, cfg, Due(r, st.flight.value.managedRetryCount), call).0, None, st.log
          + [call.attemptedAt])
      else st
    case RetryOther(due, call) => if due.id != r then st.(db := AfterRetry(st.db, cfg, due, call).0) else st
    case Bill(step) => st.(db := BillingSteps.Apply(st.db, cfg, step).0)
  }

  // ---------------------------------------------------------------- the retry columns between retries

  /** A renewal that is past due in a known period. */
  predicate Open(db: Db, r: Id) {
    && r in db.invoices && db.invoices[r].status == PAST_DUE && db.invoices[r].kind == SUBSCRIPTION
    && db.invoices[r].subscriptionId in db.subscriptions
    && db.subscriptions[db.invoices[r].subscriptionId].currentPeriodStart.Some?
  }

  /** Reports that go through Stripe. */
  predicate FromStripe(step: BillingSteps.Step) {
    && (step.SyncExternalInvoice? ==> step.sync.provider == STRIPE)
    && (step.ReportFailed? ==> step.failed.provider == STRIPE)
  }

  ghost predicate IsInitial(cfg: Config, b: RetryState) {
    exists t :: b == InitialRetryState(t, cfg.retryDelaysMinutes)
  }

  /** The columns stay, or are set up if nothing was in them. */
  ghost predicate RetryKept(cfg: Config, a: Invoice, b: Invoice) {
    b.status == PAST_DUE ==>
        b.kind == a.kind && (b.retry == a.retry || (!HasRetryState(a.retry) && IsInitial(cfg, b.retry)))
  }

  ghost predicate Keeps(cfg: Config, db: Db, after: Db, r: Id) {
    r in db.invoices && r in after.invoices && RetryKept(cfg, db.invoices[r], after.invoices[r])
  }

  lemma PaidKeeps(db: Db, cfg: Config, p: PaidParams, r: Id)
    requires Valid(db) && Open(db, r)
    ensures Keeps(cfg, db, MarkPaid(db, p).0, r)
  {
  }

  lemma FailedRow(cfg: Config, row: Invoice, sub: Subscription, p: FailedParams, now: int)
    requires cfg.retryEnabled && p.provider == STRIPE && row.status == PAST_DUE && row.kind == SUBSCRIPTION
        && sub.currentPeriodStart.Some?
    ensures RetryKept(cfg, row, FailedInvoice(cfg, row, sub, p, now))
  {
    if !HasRetryState(row.retry) {
      assert IsInitial(cfg, InitialRetryState(now, cfg.retryDelaysMinutes));
    }
  }

  lemma FailedWrites(db: Db, cfg: Config, p: FailedParams, now: int, r: Id)
    requires Valid(db) && Open(db, r)
    ensures var row, after := db.invoices[r], MarkFailed(db, cfg, p, now).0;
            && r in after.invoices
            && (after.invoices[r] == row
                || (p.invoiceId == r
                   && after.invoices[r] == FailedInvoice(cfg, row, db.subscriptions[row.subscriptionId], p, now)))
  {
  }

  lemma FailedKeeps(db: Db, cfg: Config, p: FailedParams, now: int, r: Id)
    requires Valid(db) && Open(db, r) && cfg.retryEnabled && p.provider == STRIPE
    ensures Keeps(cfg, db, MarkFailed(db, cfg, p, now).0, r)
  {
    FailedWrites(db, cfg, p, now, r);
    FailedRow(cfg, db.invoices[r], db.subscriptions[db.invoices[r].subscriptionId], p, now);
  }

  lemma ResolvingKeeps(db: Db, p: SyncParams, r: Id)
    requires Valid(db) && Open(db, r)
    ensures var resolved := ResolveInvoice(db, p).0;
            && Valid(resolved) && Open(resolved, r) && resolved.invoices[r] == db.invoices[r]
  {
    ResolvedIsValid(db, p);
  }

  lemma SyncKeeps(db: Db, cfg: Config, p: SyncParams, now: int, r: Id)
    requires Valid(db) && Open(db, r) && cfg.retryEnabled && p.provider == STRIPE
    ensures Keeps(cfg, db, SyncInvoice(db, cfg, p, now).0, r)
  {
    var (resolved, outcome, id) := ResolveInvoice(db, p);
    ResolvingKeeps(db, p, r);
    SyncResolvesThenForwards(db, cfg, p, now);
    if outcome.Done? {
      ForwardingKeeps(resolved, cfg, p, now, id, r);
    }
  }

  lemma ForwardingKeeps(db: Db, cfg: Config, p: SyncParams, now: int, id: Id, r: Id)
    requires Valid(db) && Open(db, r) && id in db.invoices && cfg.retryEnabled && p.provider == STRIPE
    ensures Keeps(cfg, db, Forwarded(db, cfg, p, now, id).0, r)
  {
    PaidKeeps(db, cfg, SyncPaid(id, p), r);
    FailedKeeps(db, cfg, SyncFailed(id, p), now, r);
  }

  lemma SettlingKeeps(db: Db, cfg: Config, records: seq<UsageIndex.UsageRecord>, id: Id, at: int, r: Id)
    requires Valid(db) && ValidPlans(db) && Open(db, r)
    ensures Keeps(cfg, db, MaterializedIfDue(db, records, id, at).0, r)
  {
    if Settles(db, id) {
      PeriodChain.MaterializedIfDueWrites(db, records, id, at);
    }
  }

  lemma CheckoutKeeps(db: Db, cfg: Config, id: Id, provider: Provider, session: Option<Id>, external: Option<Id>, r: Id)
    requires Valid(db) && Open(db, r)
    ensures Keeps(cfg, db, RecordCheckout(db, id, provider, session, external).0, r)
  {
  }

  lemma SubscribingKeeps(db: Db, cfg: Config, step: BillingSteps.Step, r: Id)
    requires Valid(db) && ValidPlans(db) && Open(db, r) && step.Subscribe?
    ensures Keeps(cfg, db, BillingSteps.Apply(db, cfg, step).0, r)
  {
  }

  /** No billing operation moves the retry schedule of a renewal that stays past due. */
  lemma BillingKeepsRetry(db: Db, cfg: Config, step: BillingSteps.Step, r: Id)
    requires Valid(db) && ValidPlans(db) && Open(db, r) && cfg.retryEnabled && FromStripe(step)
    ensures Keeps(cfg, db, BillingSteps.Apply(db, cfg, step).0, r)
  {
    match step
    case SyncExternalInvoice(p, now) => SyncKeeps(db, cfg, p, now, r);
    case ReportPaid(p) => PaidKeeps(db, cfg, p, r);
    case ReportFailed(p, now) => FailedKeeps(db, cfg, p, now, r);
    case SettlePeriod(id, records, at) => SettlingKeeps(db, cfg, records, id, at, r);
    case CompleteCheckout(id, provider, session, external) => CheckoutKeeps(db, cfg, id, provider, session,
        external, r);
    case CancelExternal(_) => SubscriptionStepsKeepInvoices(db, cfg, step);
    case SyncExternalSubscription(_, _) => SubscriptionStepsKeepInvoices(db, cfg, step);
    case Cancel(_, _) => SubscriptionStepsKeepInvoices(db, cfg, step);
    case Subscribe(_, _, _, _, _, _) => SubscribingKeeps(db, cfg, step, r);
  }

  /** A retry that leaves its invoice past due has moved it one step along the schedule. */
  ghost predicate RetriedTo(cfg: Config, b: RetryState, count: int, at: int) {
    exists error :: b == RetryStateAfterAttempt(count, at, cfg.retryDelaysMinutes, error)
  }

  lemma RetryMovesOn(db: Db, cfg: Config, due: Due, call: Call)
    requires Valid(db) && due.id in db.invoices
    ensures var after := AfterRetry(db, cfg, due, call).0;
            && due.id in after.invoices
            && (after.invoices[due.id].status == PAST_DUE ==>
               RetriedTo(cfg, after.invoices[due.id].retry, due.managedRetryCount, call.attemptedAt))
  {
    match call.result
    case Threw(error) => assert RetriedTo(cfg,
        RetryStateAfterAttempt(due.managedRetryCount, call.attemptedAt, cfg.retryDelaysMinutes, Some(error)),
        due.managedRetryCount, call.attemptedAt);
    case Answered(status, _, _, _, _) =>
      PaidIsNotPastDue(db, PaidReport(due.id, call.result));
      VoidIsNotPastDue(db, cfg, FailedReport(due.id, call.result), call.now);
      assert forall error ::
          RetriedTo(cfg,
          RetryStateAfterAttempt(due.managedRetryCount, call.attemptedAt, cfg.retryDelaysMinutes, error),
          due.managedRetryCount, call.attemptedAt);
  }

  // ---------------------------------------------------------------- the invariant

  /** What the n-th retry waits for: the one before it, or the failure that started the schedule. */
  function Reference(first: Option<int>, log: seq<int>): Option<int> {
    if log == [] then first else Some(log[|log| - 1])
  }

  function Limit(delays: seq<int>, first: Option<int>): int { if first.Some? then |delays| else Max(1, |delays|) }

  /** Where the schedule stands after the logged retries. */
  predicate Scheduled(retry: RetryState, delays: seq<int>, first: Option<int>, log: seq<int>) {
    var n, reference := |log|, Reference(first, log);
    && retry.retryCount == n
    && (retry.nextRetryAt.Some? <==> n < |delays|)
    && (retry.exhaustedAt.Some? <==> n >= |delays|)
    && (n < |delays| && reference.Some? ==> retry.nextRetryAt == Some(reference.value + delays[n] * MS_PER_MINUTE))
  }

  predicate Spaced(delays: seq<int>, first: Option<int>, log: seq<int>) {
    forall k :: 0 <= k < |log| && k < |delays| && Reference(first, log[..k]).Some? ==>
      log[k] >= Reference(first, log[..k]).value + delays[k] * MS_PER_MINUTE
  }

  predicate FlightFits(f: Flight, delays: seq<int>, first: Option<int>, log: seq<int>) {
    var n, reference := |log|, Reference(first, log);
    && f.managedRetryCount == n && n < Limit(delays, first)
    && (reference.Some? ==> n < |delays| && f.selectedAt >= reference.value + delays[n] * MS_PER_MINUTE)
  }

  ghost predicate Inv(st: State, cfg: Config, r: Id, first: Option<int>) {
    var delays := cfg.retryDelaysMinutes;
    && Valid(st.db) && ValidPlans(st.db) && Open(st.db, r) && cfg.retryEnabled && PositiveDelays(delays)
    && InvOf(st.db.invoices[r].retry, st.flight, st.log, delays, first)
  }

  ghost predicate InvOf(
    retry: RetryState, flight: Option<Flight>, log: seq<int>, delays: seq<int>, first: Option<int>) {
    && (Scheduled(retry, delays, first, log) || (!HasRetryState(retry) && log == [] && first.None?))
    && |log| <= Limit(delays, first) && Spaced(delays, first, log)
    && (flight.Some? ==> FlightFits(flight.value, delays, first, log))
  }

  lemma PositiveDelay(delays: seq<int>, n: nat)
    requires PositiveDelays(delays)
    ensures n < |delays| ==> delays[n] != 0
  {
  }

  lemma KeptInv(cfg: Config, a: RetryState, b: RetryState, flight: Option<Flight>, log: seq<int>, first: Option<int>)
    requires InvOf(a, flight, log, cfg.retryDelaysMinutes, first) && PositiveDelays(cfg.retryDelaysMinutes)
    requires b == a || (!HasRetryState(a) && IsInitial(cfg, b))
    ensures InvOf(b, flight, log, cfg.retryDelaysMinutes, first)
  {
    PositiveDelay(cfg.retryDelaysMinutes, 0);
    if b != a {
      assert log == [] && first.None?;
    }
  }

  lemma SelectedInv(retry: RetryState, log: seq<int>, delays: seq<int>, first: Option<int>, now: int)
    requires InvOf(retry, None, log, delays, first) && retry.exhaustedAt.None?
    requires if retry.nextRetryAt.Some? then retry.nextRetryAt.value <= now else retry.retryCount == 0
    ensures InvOf(retry, Some(Flight(retry.retryCount, now)), log, delays, first)
  {
  }

  lemma SpacedWithLast(delays: seq<int>, first: Option<int>, log: seq<int>, at: int)
    requires Spaced(delays, first, log)
    requires |log| < |delays| && Reference(first, log).Some? ==>
        at >= Reference(first, log).value + delays[|log|] * MS_PER_MINUTE
    ensures Spaced(delays, first, log + [at])
  {
    var longer := log + [at];
    forall k | 0 <= k < |longer| && k < |delays| && Reference(first, longer[..k]).Some?
      ensures longer[k] >= Reference(first, longer[..k]).value + delays[k] * MS_PER_MINUTE
    {
      assert longer[..k] == log[..k];
      if k == |log| {
        assert log[..k] == log;
      }
    }
  }

  lemma RetriedSchedule(
    delays: seq<int>, b: RetryState, first: Option<int>, log: seq<int>, at: int, error: Option<string>)
    requires PositiveDelays(delays) && b == RetryStateAfterAttempt(|log|, at, delays, error)
    ensures Scheduled(b, delays, first, log + [at])
  {
    PositiveDelay(delays, |log| + 1);
    assert Reference(first, log + [at]) == Some(at);
  }

  lemma RetriedInv(cfg: Config, a: RetryState, b: RetryState, f: Flight, log: seq<int>, first: Option<int>, at: int)
    requires InvOf(a, Some(f), log, cfg.retryDelaysMinutes, first) && PositiveDelays(cfg.retryDelaysMinutes)
    requires at >= f.selectedAt && RetriedTo(cfg, b, f.managedRetryCount, at)
    ensures InvOf(b, None, log + [at], cfg.retryDelaysMinutes, first)
  {
    var error :| b == RetryStateAfterAttempt(f.managedRetryCount, at, cfg.retryDelaysMinutes, error);
    RetriedSchedule(cfg.retryDelaysMinutes, b, first, log, at, error);
    SpacedWithLast(cfg.retryDelaysMinutes, first, log, at);
  }

  lemma ActionIsValid(st: State, cfg: Config, r: Id, action: Action)
    requires Valid(st.db) && ValidPlans(st.db)
    ensures Valid(Apply(st, cfg, r, action).db) && ValidPlans(Apply(st, cfg, r, action).db)
  {
    match action
    case Select(_) =>
    case Retry(call) =>
      if st.flight.Some? {
        RetryKeepsPlans(st.db, cfg, Due(r, st.flight.value.managedRetryCount), call);
      }
    case RetryOther(due, call) => RetryKeepsPlans(st.db, cfg, due, call);
    case Bill(step) => BillingSteps.StepIsValid(st.db, cfg, step);
  }

  lemma RetryKeepsPlans(db: Db, cfg: Config, due: Due, call: Call)
    requires Valid(db) && ValidPlans(db)
    ensures Valid(AfterRetry(db, cfg, due, call).0) && ValidPlans(AfterRetry(db, cfg, due, call).0)
  {
    AfterRetryIsValid(db, cfg, due, call);
    if call.result.Answered? {
      if call.result.status == PAID {
        BillingSteps.MarkPaidKeepsPlans(db, PaidReport(due.id, call.result));
      } else {
        BillingSteps.MarkFailedKeepsPlans(db, cfg, FailedReport(due.id, call.result), call.now);
      }
    }
  }

  lemma ActionKeepsInv(st: State, cfg: Config, r: Id, first: Option<int>, action: Action)
    requires Inv(st, cfg, r, first) && Open(Apply(st, cfg, r, action).db, r)
        && (action.Bill? ==> FromStripe(action.step))
    ensures Inv(Apply(st, cfg, r, action), cfg, r, first)
  {
    ActionIsValid(st, cfg, r, action);
    var after := Apply(st, cfg, r, action);
    var retry := st.db.invoices[r].retry;
    match action
    case Select(now) =>
      if st.flight.None? && IsDue(st.db, r, now) {
        SelectedInv(retry, st.log, cfg.retryDelaysMinutes, first, now);
      }
    case Retry(call) =>
      if st.flight.Some? && st.flight.value.selectedAt <= call.attemptedAt {
        RetryMovesOn(st.db, cfg, Due(r, st.flight.value.managedRetryCount), call);
        RetriedInv(cfg, retry, after.db.invoices[r].retry, st.flight.value, st.log, first, call.attemptedAt);
      }
    case RetryOther(due, call) =>
      if due.id != r {
        RetryLeavesOthers(st.db, cfg, due, call);
      }
    case Bill(step) =>
      BillingKeepsRetry(st.db, cfg, step, r);
      KeptInv(cfg, retry, after.db.invoices[r].retry, st.flight, st.log, first);
  }

  // ---------------------------------------------------------------- runs

  ghost function Run(st: State, cfg: Config, r: Id, actions: seq<Action>): (after: State)
    requires Valid(st.db) && ValidPlans(st.db)
    ensures Valid(after.db) && ValidPlans(after.db)
  {
    if actions == [] then st
    else
      var before := Run(st, cfg, r, actions[..|actions| - 1]);
      ActionIsValid(before, cfg, r, actions[|actions| - 1]);
      Apply(before, cfg, r, actions[|actions| - 1])
  }

  /** The invoice is past due in a known period throughout, and all reports come through Stripe. */
  ghost predicate StaysOpen(st: State, cfg: Config, r: Id, actions: seq<Action>)
    requires Valid(st.db) && ValidPlans(st.db)
  {
    && Open(Run(st, cfg, r, actions).db, r)
    && (actions != [] ==>
          StaysOpen(st, cfg, r, actions[..|actions| - 1])
          && (actions[|actions| - 1].Bill? ==> FromStripe(actions[|actions| - 1].step)))
  }

  lemma {:induction false} RunKeepsInv(st: State, cfg: Config, r: Id, first: Option<int>, actions: seq<Action>)
    requires Inv(st, cfg, r, first) && StaysOpen(st, cfg, r, actions)
    ensures Inv(Run(st, cfg, r, actions), cfg, r, first)
  {
    if actions != [] {
      RunKeepsInv(st, cfg, r, first, actions[..|actions| - 1]);
      ActionKeepsInv(Run(st, cfg, r, actions[..|actions| - 1]), cfg, r, first, actions[|actions| - 1]);
    }
  }

  /** A renewal that has just become past due, at the time first if a failure report set up its schedule;
      otherwise its retry columns are still empty. */
  ghost predicate Starts(st: State, cfg: Config, r: Id, first: Option<int>) {
    && Valid(st.db) && ValidPlans(st.db) && Open(st.db, r) && cfg.retryEnabled && PositiveDelays(cfg.retryDelaysMinutes)
    && st.flight.None? && st.log == []
    && (if first.Some? then st.db.invoices[r].retry == InitialRetryState(first.value, cfg.retryDelaysMinutes)
        else !HasRetryState(st.db.invoices[r].retry))
  }

  lemma StartsInv(st: State, cfg: Config, r: Id, first: Option<int>)
    requires Starts(st, cfg, r, first)
    ensures Inv(st, cfg, r, first)
  {
    PositiveDelay(cfg.retryDelaysMinutes, 0);
  }

  lemma SpacedLog(delays: seq<int>, first: Option<int>, log: seq<int>, k: nat)
    requires |log| <= Limit(delays, first) && Spaced(delays, first, log)
    ensures 0 < k < |log| ==> k < |delays| && log[k] >= log[k - 1] + delays[k] * MS_PER_MINUTE
    ensures first.Some? && log != [] ==> delays != [] && log[0] >= first.value + delays[0] * MS_PER_MINUTE
  {
    if 0 < k < |log| {
      assert Reference(first, log[..k]) == Some(log[k - 1]);
    }
    if log != [] {
      assert log[..0] == [];
    }
  }

  /** While a renewal stays past due it is retried at most as often as there are delays (once even without
      any, if its schedule was never set up), each retry a full delay after the one before, the first a full
      delay after the failure. */
  lemma DunningIsBoundedAndSpaced(st: State, cfg: Config, r: Id, first: Option<int>, actions: seq<Action>, k: nat)
    requires Starts(st, cfg, r, first) && StaysOpen(st, cfg, r, actions)
    ensures var log, delays := Run(st, cfg, r, actions).log, cfg.retryDelaysMinutes;
            && |log| <= (if first.Some? then |delays| else Max(1, |delays|))
            && (0 < k < |log| ==> k < |delays| && log[k] >= log[k - 1] + delays[k] * 60000)
            && (first.Some? && log != [] ==> delays != [] && log[0] >= first.value + delays[0] * 60000)
  {
    StartsInv(st, cfg, r, first);
    RunKeepsInv(st, cfg, r, first, actions);
    SpacedLog(cfg.retryDelaysMinutes, first, Run(st, cfg, r, actions).log, k);
  }

  /** A next retry and exhaustion are never both set, and an exhausted renewal is never selected. */
  lemma ExhaustedIsNotSelected(st: State, cfg: Config, r: Id, first: Option<int>, actions: seq<Action>, now: int)
    requires Starts(st, cfg, r, first) && StaysOpen(st, cfg, r, actions)
    ensures var db := Run(st, cfg, r, actions).db;
            && r in db.invoices
            && !(db.invoices[r].retry.nextRetryAt.Some? && db.invoices[r].retry.exhaustedAt.Some?)
            && (db.invoices[r].retry.exhaustedAt.Some? ==> !IsDue(db, r, now))
  {
    StartsInv(st, cfg, r, first);
    RunKeepsInv(st, cfg, r, first, actions);
  }

  /** Once exhausted, with no retry under way, a renewal that stays past due is never retried again. */
  lemma {:induction false} ExhaustedStaysExhausted(
    st: State, cfg: Config, r: Id, first: Option<int>, actions: seq<Action>)
    requires Inv(st, cfg, r, first) && StaysOpen(st, cfg, r, actions)
    requires st.flight.None? && st.db.invoices[r].retry.exhaustedAt.Some?
    ensures var after := Run(st, cfg, r, actions);
            && after.log == st.log && after.flight.None?
            && r in after.db.invoices && after.db.invoices[r].retry.exhaustedAt.Some?
  {
    if actions != [] {
      var init, action := actions[..|actions| - 1], actions[|actions| - 1];
      ExhaustedStaysExhausted(st, cfg, r, first, init);
      RunKeepsInv(st, cfg, r, first, init);
      ActionLeavesExhausted(Run(st, cfg, r, init), cfg, r, first, action);
    }
  }

  lemma ActionLeavesExhausted(st: State, cfg: Config, r: Id, first: Option<int>, action: Action)
    requires Inv(st, cfg, r, first) && Open(Apply(st, cfg, r, action).db, r)
        && (action.Bill? ==> FromStripe(action.step))
    requires st.flight.None? && st.db.invoices[r].retry.exhaustedAt.Some?
    ensures var after := Apply(st, cfg, r, action);
            after.log == st.log && after.flight.None? && after.db.invoices[r].retry.exhaustedAt.Some?
  {
    match action
    case Select(_) =>
    case Retry(_) =>
    case RetryOther(due, call) =>
      if due.id != r {
        RetryLeavesOthers(st.db, cfg, due, call);
      }
    case Bill(step) => BillingKeepsRetry(st.db, cfg, step, r);
  }
}
