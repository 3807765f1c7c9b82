/** Retrying the payment of past due renewals (billing-managed-retry.service.ts). */
module Dunning {
  import opened Common
  import opened BillingTypes
  import opened ManagedRetryPolicy
  import opened BillingDb
  import opened InvoiceQuery
  import opened Batches
  import opened StableSort
  import opened SubscriptionsService
  import opened PaymentProvider
  import opened ReportEffects
  import Metering

  /** A retry's clock readings and the provider's answer. */
  datatype Call = Call(attemptedAt: int, result: ChargeResult, now: int)

  /** The columns of a selected invoice that the retry goes on to use. */
  datatype Due = Due(id: Id, managedRetryCount: int)

  function ErrorText(o: Outcome): string {
    match o
    case InvoiceNotFound => "INVOICE_NOT_FOUND"
    case SubscriptionNotFound => "SUBSCRIPTION_NOT_FOUND"
    case _ => "Unique constraint failed"
  }

  // ---------------------------------------------------------------- selection

  predicate IsDue(db: Db, id: Id, now: int) {
    && id in db.invoices
    && var row := db.invoices[id];
       && row.provider == STRIPE && row.status == PAST_DUE && row.externalInvoiceId.Some?
       && row.retry.exhaustedAt.None?
       && (if row.retry.nextRetryAt.Some? then row.retry.nextRetryAt.value <= now else row.retry.retryCount == 0)
       && row.subscriptionId in db.subscriptions
       && db.subscriptions[row.subscriptionId].status == SUB_PAST_DUE
       && db.subscriptions[row.subscriptionId].currentPeriodStart.Some?
  }

  function NextRetryOf(db: Db, id: Id): Option<int> {
    if id in db.invoices then db.invoices[id].retry.nextRetryAt else None
  }

  /** By next retry time, invoices without one last, then by age. */
  function SoonerRetry(db: Db): (Id, Id) -> bool {
    (a: Id, b: Id) =>
      var x, y := NextRetryOf(db, a), NextRetryOf(db, b);
      if x == y then a < b else if x.None? then false else y.None? || x.value < y.value
  }

  /** When a selection is full, an invoice that was left out waits for a retry no earlier than any selected. */
  lemma EarliestRetriesFirst(db: Db, now: int, take: nat, id: Id, other: Id)
    requires id < db.nextInvoiceId && IsDue(db, id, now) && id !in DueIds(db, now, take)
        && other in DueIds(db, now, take)
    ensures NextRetryOf(db, id).Some? ==>
        NextRetryOf(db, other).Some? && NextRetryOf(db, other).value <= NextRetryOf(db, id).value
  {
    FoundAreFirst((k: Id) => IsDue(db, k, now), db.nextInvoiceId, SoonerRetry(db), take, id, other);
  }

  function DueIds(db: Db, now: int, take: nat): seq<Id> {
    FindFirst((id: Id) => IsDue(db, id, now), db.nextInvoiceId, SoonerRetry(db), take)
  }

  // ---------------------------------------------------------------- one retry

  function WithRetryState(db: Db, cfg: Config, due: Due, attemptedAt: int, error: Option<string>): Db {
    if due.id !in db.invoices then db
    else
      db.(invoices := db.invoices[due.id :=
        db.invoices[due.id].(retry :=
            RetryStateAfterAttempt(due.managedRetryCount, attemptedAt, cfg.retryDelaysMinutes, error))])
  }

  /** processInvoiceRetry, and whether it returned without throwing. */
  function AfterRetry(db: Db, cfg: Config, due: Due, call: Call): (Db, bool)
    requires Valid(db)
  {
    match call.result
    case Threw(error) => (WithRetryState(db, cfg, due, call.attemptedAt, Some(error)), false)
    case Answered(status, _, _, _, _) =>
      var (reported, outcome) :=
        if status == PAID then MarkPaid(db, PaidReport(due.id, call.result))
        else MarkFailed(db, cfg, FailedReport(due.id, call.result), call.now);
      if !Succeeded(outcome)
          then (WithRetryState(reported, cfg, due, call.attemptedAt, Some(ErrorText(outcome))), false)
      else if status == PAST_DUE then (WithRetryState(reported, cfg, due, call.attemptedAt, None), true)
      else (reported, true)
  }

  lemma WithRetryStateIsValid(db: Db, cfg: Config, due: Due, attemptedAt: int, error: Option<string>)
    requires Valid(db)
    ensures Valid(WithRetryState(db, cfg, due, attemptedAt, error))
  {
    var after := WithRetryState(db, cfg, due, attemptedAt, error);
    forall i | i in after.invoices
      ensures InvoiceFits(after, i, after.invoices[i])
    {
      assert InvoiceFits(db, i, db.invoices[i]);
    }
  }

  lemma AfterRetryIsValid(db: Db, cfg: Config, due: Due, call: Call)
    requires Valid(db)
    ensures Valid(AfterRetry(db, cfg, due, call).0)
  {
    match call.result
    case Threw(error) => WithRetryStateIsValid(db, cfg, due, call.attemptedAt, Some(error));
    case Answered(status, _, _, _, _) =>
      if status == PAID {
        MarkPaidIsValid(db, PaidReport(due.id, call.result));
      } else {
        MarkFailedIsValid(db, cfg, FailedReport(due.id, call.result), call.now);
      }
      var (reported, outcome) :=
        if status == PAID then MarkPaid(db, PaidReport(due.id, call.result))
        else MarkFailed(db, cfg, FailedReport(due.id, call.result), call.now);
      WithRetryStateIsValid(reported, cfg, due, call.attemptedAt, Some(ErrorText(outcome)));
      WithRetryStateIsValid(reported, cfg, due, call.attemptedAt, None);
  }

  // ---------------------------------------------------------------- what a retry shows

  /** One more retry made, at this time and with this error; the next due its delay in minutes later, or none left. */
  predicate Advanced(cfg: Config, retry: RetryState, count: int, at: int, error: Option<string>) {
    var n, delays := count + 1, cfg.retryDelaysMinutes;
    && retry.retryCount == n && retry.lastRetryAt == Some(at) && retry.lastError == error
    && (if 0 <= n < |delays| && delays[n] != 0
        then retry.nextRetryAt == Some(at + delays[n] * 60000) && retry.exhaustedAt.None?
        else retry.nextRetryAt.None? && retry.exhaustedAt == Some(at))
  }

  /** Only the retry columns of the invoice have changed. */
  ghost predicate OnlyAdvances(db: Db, cfg: Config, after: Db, due: Due, at: int, error: Option<string>)
    requires due.id in db.invoices
  {
    && due.id in after.invoices
    && Advanced(cfg, after.invoices[due.id].retry, due.managedRetryCount, at, error)
    && after == db.(invoices := db.invoices[due.id := db.invoices[due.id].(retry := after.invoices[due.id].retry)])
  }

  /** The rows show what the provider answered: the invoice its status, the subscription of a renewal that it serves
      the invoice's period, or that it is past due. */
  ghost predicate AnswerShows(db: Db, cfg: Config, after: Db, due: Due, call: Call)
    requires due.id in db.invoices && db.invoices[due.id].subscriptionId in db.subscriptions && call.result.Answered?
  {
    var r, row, s := call.result, db.invoices[due.id], db.invoices[due.id].subscriptionId;
    && OnlyRows(db, after, due.id) && after.invoices[due.id].status == r.status
    && (row.kind == SUBSCRIPTION ==>
          if r.status == PAID
          then && after.subscriptions[s].status == ACTIVE && after.subscriptions[s].gracePeriodEndsAt.None?
               && Metering.ServesExactly(after.subscriptions[s], row.periodStart, row.periodEnd)
          else after.subscriptions[s].status == SUB_PAST_DUE)
    && (if r.status == PAID
        then PaymentShows(db, after, PaidParams(due.id, STRIPE, None, r.externalInvoiceId, r.externalSubscriptionId,
                 r.attemptCount))
        else FailureShows(db, cfg, after, FailedParams(due.id, STRIPE, None, r.externalInvoiceId,
                 r.externalSubscriptionId, Some(r.status), r.attemptCount, r.nextPaymentAttemptAt), call.now))
    && (if r.status == PAST_DUE
        then Advanced(cfg, after.invoices[due.id].retry, due.managedRetryCount, call.attemptedAt, None)
        else IsIdle(after.invoices[due.id].retry))
  }

  /** A retry returns exactly when the provider answers and its answer can be stored, and then the answer shows; one
      that throws at the provider only advances the schedule. */
  ghost predicate RetryIsRecorded(db: Db, cfg: Config, after: Db, due: Due, call: Call, ok: bool)
    requires due.id in db.invoices && db.invoices[due.id].subscriptionId in db.subscriptions
    requires db.invoices[due.id].status == PAST_DUE
  {
    var r := call.result;
    && (ok <==> r.Answered? && IsLetIn(db, due.id, r.externalInvoiceId, None, r.externalSubscriptionId))
    && (ok ==> AnswerShows(db, cfg, after, due, call))
    && (r.Threw? ==> OnlyAdvances(db, cfg, after, due, call.attemptedAt, Some(r.error)))
    && (!ok && r.Answered? ==>
          && due.id in after.invoices
          && Advanced(cfg, after.invoices[due.id].retry, due.managedRetryCount, call.attemptedAt,
                      Some("Unique constraint failed")))
  }

  lemma AttemptAdvances(cfg: Config, due: Due, at: int, error: Option<string>)
    ensures Advanced(cfg, RetryStateAfterAttempt(due.managedRetryCount, at, cfg.retryDelaysMinutes, error),
                due.managedRetryCount, at, error)
  {
  }

  lemma RetryTakesEffect(db: Db, cfg: Config, due: Due, call: Call)
    requires Valid(db) && due.id in db.invoices && db.invoices[due.id].status == PAST_DUE
    ensures db.invoices[due.id].subscriptionId in db.subscriptions
    ensures var (after, ok) := AfterRetry(db, cfg, due, call);
            RetryIsRecorded(db, cfg, after, due, call, ok)
  {
    assert Refers(db, db.invoices[due.id]);
    match call.result
    case Threw(error) => AttemptAdvances(cfg, due, call.attemptedAt, Some(error));
    case Answered(status, _, _, _, _) =>
      if status == PAID {
        PaidRetryTakesEffect(db, cfg, due, call);
      } else {
        FailedRetryTakesEffect(db, cfg, due, call);
      }
  }

  lemma PaidRetryTakesEffect(db: Db, cfg: Config, due: Due, call: Call)
    requires Valid(db) && due.id in db.invoices && db.invoices[due.id].status == PAST_DUE
    requires db.invoices[due.id].subscriptionId in db.subscriptions
    requires call.result.Answered? && call.result.status == PAID
    ensures var (after, ok) := AfterRetry(db, cfg, due, call);
            RetryIsRecorded(db, cfg, after, due, call, ok)
  {
    var p := PaidReport(due.id, call.result);
    PaymentTakesEffect(db, p);
    PaymentIsApplied(db, p);
    PaidIsNotPastDue(db, p);
    AttemptAdvances(cfg, due, call.attemptedAt, Some("Unique constraint failed"));
  }

  lemma FailedRetryTakesEffect(db: Db, cfg: Config, due: Due, call: Call)
    requires Valid(db) && due.id in db.invoices && db.invoices[due.id].status == PAST_DUE
    requires db.invoices[due.id].subscriptionId in db.subscriptions
    requires call.result.Answered? && call.result.status != PAID
    ensures var (after, ok) := AfterRetry(db, cfg, due, call);
            RetryIsRecorded(db, cfg, after, due, call, ok)
  {
    var p := FailedReport(due.id, call.result);
    var (reported, outcome) := MarkFailed(db, cfg, p, call.now);
    FailureTakesEffect(db, cfg, p, call.now);
    FailureIsApplied(db, cfg, p, call.now);
    VoidIsNotPastDue(db, cfg, p, call.now);
    AttemptAdvances(cfg, due, call.attemptedAt, Some("Unique constraint failed"));
    AttemptAdvances(cfg, due, call.attemptedAt, None);
    if outcome.Done? && call.result.status == PAST_DUE {
      AdvancedFailureShows(db, cfg, reported, due, call);
    }
  }

  /** Advancing the schedule leaves the rest of what a failure shows. */
  lemma AdvancedFailureShows(db: Db, cfg: Config, reported: Db, due: Due, call: Call)
    requires due.id in db.invoices && db.invoices[due.id].subscriptionId in db.subscriptions
    requires call.result.Answered? && call.result.status == PAST_DUE
    requires FailureShows(db, cfg, reported, FailedReport(due.id, call.result), call.now)
    ensures AnswerShows(db, cfg, WithRetryState(reported, cfg, due, call.attemptedAt, None), due, call)
  {
    AttemptAdvances(cfg, due, call.attemptedAt, None);
  }

  // ---------------------------------------------------------------- a batch

  /** Retrying an invoice, when calls says what the provider will answer for each. */
  ghost function RetryStep(cfg: Config, calls: Id -> Call): (Db, Due) -> (Db, Verdict) {
    (db: Db, due: Due) => if Valid(db) then RetryVerdict(AfterRetry(db, cfg, due, calls(due.id))) else (db, SKIPPED)
  }

  function RetryVerdict(after: (Db, bool)): (Db, Verdict) { (after.0, if after.1 then DONE else FAILED) }

  function Batch(db: Db, now: int, take: nat): seq<Due> {
    var ids := DueIds(db, now, take);
    seq(|ids|,
        i requires 0 <= i < |ids| => Due(ids[i], if ids[i] in db.invoices then db.invoices[ids[i]].retry.retryCount
        else 0))
  }

  class BillingManagedRetry {
    const tables: Subscriptions

    constructor (tables: Subscriptions)
      ensures this.tables == tables
    {
      this.tables := tables;
    }

    method UpdateRetryState(due: Due, attemptedAt: int, error: Option<string>)
      requires Valid(tables.Tables())
      modifies tables
      ensures tables.Tables() == WithRetryState(old(tables.Tables()), tables.config, due, attemptedAt, error)
      ensures Valid(tables.Tables())
    {
      WithRetryStateIsValid(tables.Tables(), tables.config, due, attemptedAt, error);
      if due.id in tables.invoices {
        var row := tables.invoices[due.id];
        tables.invoices := tables.invoices[due.id :=
          row.(retry :=
              RetryStateAfterAttempt(due.managedRetryCount, attemptedAt, tables.config.retryDelaysMinutes, error))];
      }
    }

    method ProcessInvoiceRetry(due: Due, call: Call) returns (ok: bool)
      requires Valid(tables.Tables())
      modifies tables
      ensures (tables.Tables(), ok) == AfterRetry(old(tables.Tables()), tables.config, due, call)
      ensures Valid(tables.Tables())
      ensures due.id in old(tables.invoices) && old(tables.invoices)[due.id].status == PAST_DUE ==>
                && old(tables.invoices)[due.id].subscriptionId in old(tables.subscriptions)
                && RetryIsRecorded(old(tables.Tables()), tables.config, tables.Tables(), due, call, ok)
    {
      if due.id in tables.invoices && tables.invoices[due.id].status == PAST_DUE {
        RetryTakesEffect(tables.Tables(), tables.config, due, call);
      }
      var result := call.result;
      if result.Threw? {
        UpdateRetryState(due, call.attemptedAt, Some(result.error));
        return false;
      }
      var outcome: Outcome;
      if result.status == PAID {
        outcome := tables.MarkInvoicePaid(PaidReport(due.id, result));
      } else {
        outcome := tables.MarkInvoiceFailed(FailedReport(due.id, result), call.now);
      }
      if !Succeeded(outcome) {
        UpdateRetryState(due, call.attemptedAt, Some(ErrorText(outcome)));
        return false;
      }
      if result.status == PAST_DUE {
        UpdateRetryState(due, call.attemptedAt, None);
      }
      ok := true;
    }

    ghost predicate Performs(step: (Db, Due) -> (Db, Verdict), due: Due, call: Call, db: Db) {
      Valid(db) ==> step(db, due) == RetryVerdict(AfterRetry(db, tables.config, due, call))
    }

    method Try(due: Due, call: Call, ghost step: (Db, Due) -> (Db, Verdict)) returns (ok: bool)
      requires Valid(tables.Tables()) && Performs(step, due, call, tables.Tables())
      modifies tables
      ensures step(old(tables.Tables()), due) == RetryVerdict((tables.Tables(), ok))
      ensures Valid(tables.Tables())
    {
      ok := ProcessInvoiceRetry(due, call);
    }

    /** A retry that throws is counted as failed and the next is tried. */
    method TryAll(
      batch: seq<Due>, calls: Id -> Call, ghost step: (Db, Due) -> (Db, Verdict)) returns (processed: nat, failed: nat)
      requires Valid(tables.Tables())
      requires forall i: int, db: Db :: 0 <= i < |batch| ==> Performs(step, batch[i], calls(batch[i].id), db)
      modifies tables
      ensures Tally(tables.Tables(), processed, failed) == AfterAll(step, old(tables.Tables()), batch)
          && processed + failed == |batch|
      ensures Valid(tables.Tables())
    {
      processed, failed := 0, 0;
      for i := 0 to |batch|
        invariant Valid(tables.Tables())
        invariant processed + failed == i
        invariant Tally(tables.Tables(), processed, failed) == AfterAll(step, old(tables.Tables()), batch[..i])
      {
        AllInTurn(step, old(tables.Tables()), batch, i);
        var ok := Try(batch[i], calls(batch[i].id), step);
        if ok {
          processed := processed + 1;
        } else {
          failed := failed + 1;
        }
      }
      assert batch[..|batch|] == batch;
    }

    /** processDueRetries */
    method ProcessDueRetries(now: int, take: nat, calls: Id -> Call) returns (processed: nat, failed: nat)
      requires Valid(tables.Tables())
      modifies tables
      ensures var batch := Batch(old(tables.Tables()), now, take);
              && Tally(tables.Tables(), processed, failed)
                 == AfterAll(RetryStep(tables.config, calls), old(tables.Tables()), batch)
              && processed + failed == |batch|
      ensures Valid(tables.Tables())
    {
      var batch := Batch(tables.Tables(), now, take);
      processed, failed := TryAll(batch, calls, RetryStep(tables.config, calls));
    }
  }

  // ---------------------------------------------------------------- when a renewal is due

  /** A renewal that fails at Stripe, and has no schedule under way, is due exactly from its first delay on. */
  lemma FailedRenewalComesDue(db: Db, cfg: Config, p: FailedParams, now: int, t: int)
    requires Valid(db) && MarkFailed(db, cfg, p, now).1.Done?
    requires cfg.retryEnabled && cfg.retryDelaysMinutes != [] && cfg.retryDelaysMinutes[0] != 0
    requires p.provider == STRIPE && p.invoiceStatus == Some(PAST_DUE)
    requires p.invoiceId in db.invoices && db.invoices[p.invoiceId].subscriptionId in db.subscriptions
    requires var row := db.invoices[p.invoiceId];
             && row.kind == SUBSCRIPTION && !(row.status == PAST_DUE && HasRetryState(row.retry))
             && (row.externalInvoiceId.Some? || p.externalInvoiceId.Some?)
             && db.subscriptions[row.subscriptionId].currentPeriodStart.Some?
    ensures IsDue(MarkFailed(db, cfg, p, now).0, p.invoiceId, t) <==> t >= now + cfg.retryDelaysMinutes[0] * 60000
  {
    FailureTakesEffect(db, cfg, p, now);
  }

  /** There is a retry number n, and its delay after the last attempt is over. */
  predicate DelayIsOver(cfg: Config, n: int, attemptedAt: int, t: int) {
    && 0 <= n < |cfg.retryDelaysMinutes| && cfg.retryDelaysMinutes[n] != 0
    && t >= attemptedAt + cfg.retryDelaysMinutes[n] * 60000
  }

  /** A renewal that was due and is still past due after its retry, however that turned out, is due again exactly from
      its next delay on, and never if there is none. */
  lemma RetriedRenewalComesDue(db: Db, cfg: Config, due: Due, call: Call, at: int, t: int)
    requires Valid(db) && IsDue(db, due.id, at)
    ensures var after := AfterRetry(db, cfg, due, call).0;
            && due.id in after.invoices
            && (after.invoices[due.id].status == PAST_DUE ==>
                  (IsDue(after, due.id, t) <==> DelayIsOver(cfg, due.managedRetryCount + 1, call.attemptedAt, t)))
  {
    RetryTakesEffect(db, cfg, due, call);
    if call.result.Answered? {
      var (after, ok) := AfterRetry(db, cfg, due, call);
      if !ok {
        RefusedRetryLeavesDue(db, cfg, due, call, at);
      }
    }
  }

  /** An answer that cannot be stored, or only on the invoice, leaves what makes a renewal due but for its schedule. */
  lemma RefusedRetryLeavesDue(db: Db, cfg: Config, due: Due, call: Call, at: int)
    requires Valid(db) && IsDue(db, due.id, at) && call.result.Answered? && !AfterRetry(db, cfg, due, call).1
    ensures var after := AfterRetry(db, cfg, due, call).0;
            && due.id in after.invoices
            && after.invoices[due.id].provider == STRIPE && after.invoices[due.id].externalInvoiceId.Some?
            && after.invoices[due.id].subscriptionId == db.invoices[due.id].subscriptionId
            && after.subscriptions == db.subscriptions
  {
    if call.result.status == PAID {
      RefusedPaymentKeepsSubscriptions(db, PaidReport(due.id, call.result));
    } else {
      RefusedFailureKeepsSubscriptions(db, cfg, FailedReport(due.id, call.result), call.now);
    }
  }

  lemma RefusedPaymentKeepsSubscriptions(db: Db, p: PaidParams)
    requires Valid(db) && p.invoiceId in db.invoices && !MarkPaid(db, p).1.Done?
    ensures MarkPaid(db, p).0.subscriptions == db.subscriptions
  {
  }

  lemma RefusedFailureKeepsSubscriptions(db: Db, cfg: Config, p: FailedParams, now: int)
    requires Valid(db) && p.invoiceId in db.invoices && !MarkFailed(db, cfg, p, now).1.Done?
    ensures MarkFailed(db, cfg, p, now).0.subscriptions == db.subscriptions
  {
  }

  // ---------------------------------------------------------------- a batch settles what it tried

  predicate PositiveDelays(delays: seq<int>) { forall i :: 0 <= i < |delays| ==> delays[i] > 0 }

  ghost predicate LeavesOthers(db: Db, after: Db, id: Id) {
    forall k :: k != id ==>
        (k in after.invoices <==> k in db.invoices)
        && (k in db.invoices && k in after.invoices ==> after.invoices[k] == db.invoices[k])
  }

  lemma PaidLeavesOthers(db: Db, p: PaidParams)
    requires Valid(db)
    ensures LeavesOthers(db, MarkPaid(db, p).0, p.invoiceId)
  {
    if p.invoiceId in db.invoices {
      PaidWrites(db, p);
    }
  }

  lemma FailedLeavesOthers(db: Db, cfg: Config, p: FailedParams, now: int)
    requires Valid(db)
    ensures LeavesOthers(db, MarkFailed(db, cfg, p, now).0, p.invoiceId)
  {
    if p.invoiceId in db.invoices {
      FailedWrites(db, cfg, p, now);
    }
  }

  /** A retry touches no invoice but its own. */
  lemma RetryLeavesOthers(db: Db, cfg: Config, due: Due, call: Call)
    requires Valid(db)
    ensures LeavesOthers(db, AfterRetry(db, cfg, due, call).0, due.id)
  {
    if call.result.Answered? {
      if call.result.status == PAID {
        PaidLeavesOthers(db, PaidReport(due.id, call.result));
      } else {
        FailedLeavesOthers(db, cfg, FailedReport(due.id, call.result), call.now);
      }
    }
  }

  /** An invoice that a selection at this time does not find. */
  predicate RestsAt(row: Invoice, now: int) {
    row.status != PAST_DUE || row.retry.exhaustedAt.Some?
        || (row.retry.nextRetryAt.Some? && row.retry.nextRetryAt.value > now)
  }

  lemma RetryStateRests(cfg: Config, due: Due, call: Call, error: Option<string>, row: Invoice, now: int)
    requires PositiveDelays(cfg.retryDelaysMinutes) && call.attemptedAt >= now
    ensures RestsAt(row.(retry :=
        RetryStateAfterAttempt(due.managedRetryCount, call.attemptedAt, cfg.retryDelaysMinutes, error)), now)
  {
    var delays, n := cfg.retryDelaysMinutes, due.managedRetryCount + 1;
    assert 0 <= n < |delays| ==> delays[n] * MS_PER_MINUTE > 0;
  }

  /** A retried invoice is either no longer past due or not due again before its next delay has passed. */
  lemma RetriedIsNotDue(db: Db, cfg: Config, due: Due, call: Call, now: int)
    requires Valid(db) && due.id in db.invoices && PositiveDelays(cfg.retryDelaysMinutes) && call.attemptedAt >= now
    ensures var after := AfterRetry(db, cfg, due, call).0;
            due.id in after.invoices && RestsAt(after.invoices[due.id], now)
  {
    match call.result
    case Threw(error) => RetryStateRests(cfg, due, call, Some(error), db.invoices[due.id], now);
    case Answered(status, _, _, _, _) =>
      PaidIsNotPastDue(db, PaidReport(due.id, call.result));
      VoidIsNotPastDue(db, cfg, FailedReport(due.id, call.result), call.now);
      var (reported, outcome) :=
        if status == PAID then MarkPaid(db, PaidReport(due.id, call.result))
        else MarkFailed(db, cfg, FailedReport(due.id, call.result), call.now);
      RetryStateRests(cfg, due, call, Some(ErrorText(outcome)), reported.invoices[due.id], now);
      RetryStateRests(cfg, due, call, None, reported.invoices[due.id], now);
  }

  ghost predicate AllRest(db: Db, batch: seq<Due>, now: int) {
    forall i :: 0 <= i < |batch| ==> batch[i].id in db.invoices && RestsAt(db.invoices[batch[i].id], now)
  }

  /** One step, on any valid tables that have the invoice. */
  ghost predicate LeavesAtRest(step: (Db, Due) -> (Db, Verdict), due: Due, now: int, db: Db) {
    Valid(db) && due.id in db.invoices ==>
      var after := step(db, due).0;
      Valid(after) && LeavesOthers(db, after, due.id) && due.id in after.invoices
          && RestsAt(after.invoices[due.id], now)
  }

  lemma {:induction false} AllLeftAtRest(step: (Db, Due) -> (Db, Verdict), db: Db, batch: seq<Due>, now: int)
    requires Valid(db) && forall i :: 0 <= i < |batch| ==> batch[i].id in db.invoices
    requires forall i: int, d: Db :: 0 <= i < |batch| ==> LeavesAtRest(step, batch[i], now, d)
    requires forall i, j :: 0 <= i < j < |batch| ==> batch[i].id != batch[j].id
    ensures var after := AfterAll(step, db, batch).db;
            Valid(after) && AllRest(after, batch, now) && forall k :: k in db.invoices ==> k in after.invoices
  {
    if batch != [] {
      var n := |batch| - 1;
      forall i: int, d: Db | 0 <= i < n
        ensures LeavesAtRest(step, batch[..n][i], now, d)
      {
        assert LeavesAtRest(step, batch[i], now, d);
      }
      AllLeftAtRest(step, db, batch[..n], now);
      var before := AfterAll(step, db, batch[..n]).db;
      assert LeavesAtRest(step, batch[n], now, before);
      RestsWithLast(before, AfterAll(step, db, batch).db, batch, now);
    }
  }

  lemma RetryLeavesAtRest(cfg: Config, calls: Id -> Call, due: Due, now: int, db: Db)
    requires PositiveDelays(cfg.retryDelaysMinutes) && calls(due.id).attemptedAt >= now
    ensures LeavesAtRest(RetryStep(cfg, calls), due, now, db)
  {
    if Valid(db) && due.id in db.invoices {
      AfterRetryIsValid(db, cfg, due, calls(due.id));
      RetryLeavesOthers(db, cfg, due, calls(due.id));
      RetriedIsNotDue(db, cfg, due, calls(due.id), now);
    }
  }

  lemma RestsWithLast(before: Db, after: Db, batch: seq<Due>, now: int)
    requires batch != [] && AllRest(before, batch[..|batch| - 1], now)
        && LeavesOthers(before, after, batch[|batch| - 1].id)
    requires forall i, j :: 0 <= i < j < |batch| ==> batch[i].id != batch[j].id
    requires batch[|batch| - 1].id in after.invoices && RestsAt(after.invoices[batch[|batch| - 1].id], now)
    ensures AllRest(after, batch, now)
  {
    forall i | 0 <= i < |batch|
      ensures batch[i].id in after.invoices && RestsAt(after.invoices[batch[i].id], now)
    {
      assert i < |batch| - 1 ==> batch[..|batch| - 1][i] == batch[i];
    }
  }

  lemma BatchIds(db: Db, now: int, take: nat)
    ensures var ids, batch := DueIds(db, now, take), Batch(db, now, take);
            |batch| == |ids| && forall i :: 0 <= i < |ids| ==> batch[i].id == ids[i]
  {
  }

  lemma SameIds(ids: seq<Id>, batch: seq<Due>, keep: Id -> bool, n: nat, take: nat)
    requires |batch| == |ids| && forall i :: 0 <= i < |ids| ==> batch[i].id == ids[i]
    requires Distinct(ids) && (forall id: Id :: id in ids ==> keep(id))
    requires |ids| < take ==> forall id: Id :: id < n && keep(id) ==> id in ids
    ensures forall i :: 0 <= i < |batch| ==> keep(batch[i].id)
    ensures forall i, j :: 0 <= i < j < |batch| ==> batch[i].id != batch[j].id
    ensures |batch| < take ==> forall id: Id :: id < n && keep(id) ==> exists i :: 0 <= i < |batch| && batch[i].id == id
  {
    forall i | 0 <= i < |batch|
      ensures keep(batch[i].id)
    {
      assert ids[i] in ids;
    }
    if |batch| < take {
      forall id: Id | id < n && keep(id)
        ensures exists i :: 0 <= i < |batch| && batch[i].id == id
      {
        var i :| 0 <= i < |ids| && ids[i] == id;
        assert batch[i].id == id;
      }
    }
  }

  /** A batch is distinct due invoices, each with the retries it has had, and all of them unless it is full. */
  lemma BatchIsDue(db: Db, now: int, take: nat)
    ensures var batch := Batch(db, now, take);
            && (forall i :: 0 <= i < |batch| ==>
                  IsDue(db, batch[i].id, now)
                  && batch[i].managedRetryCount == db.invoices[batch[i].id].retry.retryCount)
            && (forall i, j :: 0 <= i < j < |batch| ==> batch[i].id != batch[j].id)
            && (|batch| < take ==> forall id: Id :: id < db.nextInvoiceId && IsDue(db, id, now) ==>
                  exists i :: 0 <= i < |batch| && batch[i].id == id)
  {
    var keep := (k: Id) => IsDue(db, k, now);
    FoundAreDue(keep, db.nextInvoiceId, SoonerRetry(db), take);
    BatchIds(db, now, take);
    SameIds(DueIds(db, now, take), Batch(db, now, take), keep, db.nextInvoiceId, take);
    assert forall id: Id :: keep(id) == IsDue(db, id, now);
  }

  /** A past due Stripe invoice whose subscription is past due too, whose retry has come, or which was never retried and
      has no time set for it. */
  predicate AwaitsRetry(db: Db, id: Id, now: int) {
    && id in db.invoices && db.invoices[id].subscriptionId in db.subscriptions
    && var row, sub := db.invoices[id], db.subscriptions[db.invoices[id].subscriptionId];
       && row.status == PAST_DUE && row.provider == STRIPE && row.externalInvoiceId.Some?
       && sub.status == SUB_PAST_DUE && sub.currentPeriodStart.Some?
       && row.retry.exhaustedAt.None?
       && (row.retry.nextRetryAt.None? ==> row.retry.retryCount == 0)
       && (row.retry.nextRetryAt.Some? ==> now >= row.retry.nextRetryAt.value)
  }

  predicate IsSelected(batch: seq<Due>, id: Id) { exists i :: 0 <= i < |batch| && batch[i].id == id }

  /** When the batch has room, every invoice that awaits its retry is in it, and nothing else ever is. One that is left
      out of a full batch does not come before any in it. */
  lemma RetriesAreSelected(db: Db, now: int, take: nat, id: Id)
    requires Valid(db)
    ensures var batch := Batch(db, now, take);
            && |batch| <= take
            && (IsSelected(batch, id) ==> AwaitsRetry(db, id, now))
            && (AwaitsRetry(db, id, now) && !IsSelected(batch, id) ==>
                  && |batch| == take
                  && forall i :: 0 <= i < |batch| && db.invoices[id].retry.nextRetryAt.Some? ==>
                       && batch[i].id in db.invoices
                       && var earlier := db.invoices[batch[i].id].retry.nextRetryAt;
                          earlier.Some? && earlier.value <= db.invoices[id].retry.nextRetryAt.value)
  {
    var ids, batch := DueIds(db, now, take), Batch(db, now, take);
    BatchIsDue(db, now, take);
    BatchIds(db, now, take);
    FoundAreDue((k: Id) => IsDue(db, k, now), db.nextInvoiceId, SoonerRetry(db), take);
    if AwaitsRetry(db, id, now) && !IsSelected(batch, id) {
      assert IsDue(db, id, now) && |batch| == |ids|;
      assert forall i :: 0 <= i < |ids| ==> ids[i] == batch[i].id;
      assert id !in ids;
      forall i | 0 <= i < |batch| && db.invoices[id].retry.nextRetryAt.Some?
        ensures batch[i].id in db.invoices
        ensures var earlier := db.invoices[batch[i].id].retry.nextRetryAt;
                earlier.Some? && earlier.value <= db.invoices[id].retry.nextRetryAt.value
      {
        assert batch[i].id == ids[i] && ids[i] in ids;
        EarliestRetriesFirst(db, now, take, id, ids[i]);
      }
    }
  }

  lemma RestingIsNotDue(db: Db, id: Id, now: int)
    requires id in db.invoices && RestsAt(db.invoices[id], now)
    ensures !IsDue(db, id, now)
  {
  }

  /** However the retries of a batch turn out, none of its invoices is due again at the batch's time; and
      everything that was due then was tried, unless the batch was full. */
  lemma BatchIsNotDueAgain(db: Db, cfg: Config, now: int, take: nat, calls: Id -> Call, id: Id)
    requires Valid(db) && PositiveDelays(cfg.retryDelaysMinutes)
    requires forall k: Id :: calls(k).attemptedAt >= now
    ensures var batch := Batch(db, now, take);
            var after := AfterAll(RetryStep(cfg, calls), db, batch).db;
            && (forall i :: 0 <= i < |batch| ==> IsDue(db, batch[i].id, now) && !IsDue(after, batch[i].id, now))
            && (|batch| < take && IsDue(db, id, now) ==> !IsDue(after, id, now))
  {
    var batch, step := Batch(db, now, take), RetryStep(cfg, calls);
    BatchIsDue(db, now, take);
    forall i: int, d: Db | 0 <= i < |batch|
      ensures LeavesAtRest(step, batch[i], now, d)
    {
      RetryLeavesAtRest(cfg, calls, batch[i], now, d);
    }
    BatchAtRestIsNotDue(db, batch, step, now);
  }

  lemma BatchAtRestIsNotDue(db: Db, batch: seq<Due>, step: (Db, Due) -> (Db, Verdict), now: int)
    requires Valid(db) && forall i :: 0 <= i < |batch| ==> IsDue(db, batch[i].id, now)
    requires forall i, j :: 0 <= i < j < |batch| ==> batch[i].id != batch[j].id
    requires forall i: int, d: Db :: 0 <= i < |batch| ==> LeavesAtRest(step, batch[i], now, d)
    ensures forall i :: 0 <= i < |batch| ==> !IsDue(AfterAll(step, db, batch).db, batch[i].id, now)
  {
    AllLeftAtRest(step, db, batch, now);
    forall i | 0 <= i < |batch|
      ensures !IsDue(AfterAll(step, db, batch).db, batch[i].id, now)
    {
      RestingIsNotDue(AfterAll(step, db, batch).db, batch[i].id, now);
    }
  }
}
