/** One pass of the overage collection worker: settle the periods that are over, then charge the overage
    invoices that have not been charged (processDueOverageCollection). */
module OverageBatch {
  import opened Common
  import opened BillingTypes
  import opened BillingDb
  import opened Settlement
  import opened OverageCollection
  import opened PeriodChain
  import opened PaymentProvider
  import opened InvoiceQuery
  import opened StableSort
  import opened Batches
  import opened ExternalBinding
  import opened ReportEffects
  import opened SettlementEffects
  import opened ManagedRetryPolicy
  import BillingSteps
  import UsageIndex

  // ---------------------------------------------------------------- selection

  predicate IsDueSource(db: Db, id: Id, now: int) {
    id in db.invoices && IsSettleable(db.invoices[id]) && db.invoices[id].periodEnd <= now
  }

  function EndOfPeriod(db: Db, id: Id): int { if id in db.invoices then db.invoices[id].periodEnd else 0 }

  function SoonerEnd(db: Db): (Id, Id) -> bool {
    (a: Id, b: Id) => EndOfPeriod(db, a) < EndOfPeriod(db, b) || (EndOfPeriod(db, a) == EndOfPeriod(db, b) && a < b)
  }

  /** When a selection is full, a period that was left out ended no earlier than any selected. */
  lemma EarliestPeriodsFirst(db: Db, now: int, take: nat, id: Id, other: Id)
    requires id < db.nextInvoiceId && IsDueSource(db, id, now) && id !in DueSources(db, now, take)
        && other in DueSources(db, now, take)
    ensures EndOfPeriod(db, other) <= EndOfPeriod(db, id)
  {
    FoundAreFirst((k: Id) => IsDueSource(db, k, now), db.nextInvoiceId, SoonerEnd(db), take, id, other);
  }

  function DueSources(db: Db, now: int, take: nat): seq<Id> {
    FindFirst((id: Id) => IsDueSource(db, id, now), db.nextInvoiceId, SoonerEnd(db), take)
  }

  /** An overage invoice that has not been charged. */
  predicate IsUncharged(db: Db, id: Id) {
    && id in db.invoices && db.invoices[id].kind == OVERAGE && db.invoices[id].status == DRAFT
    && db.invoices[id].externalInvoiceId.None?
  }

  function Uncharged(db: Db, take: nat): seq<Id> {
    FindFirst((id: Id) => IsUncharged(db, id) && db.invoices[id].provider == STRIPE,
              db.nextInvoiceId, (a: Id, b: Id) => a < b, take)
  }

  // ---------------------------------------------------------------- one item of each loop

  /** Settling an invoice; a transaction that throws leaves nothing behind. */
  function AfterSettling(db: Db, records: seq<UsageIndex.UsageRecord>, id: Id, throws: bool, now: int): (Db, Verdict)
    requires Valid(db) && ValidPlans(db)
  {
    if throws then (db, FAILED)
    else
      var after := MaterializedIfDue(db, records, id, now);
      (after.0, if after.1 then DONE else SKIPPED)
  }

  /** collectOverageInvoice */
  function AfterCharge(db: Db, cfg: Config, id: Id, charge: ChargeResult, now: int): (Db, Verdict)
    requires Valid(db)
  {
    if !IsUncharged(db, id) then (db, SKIPPED)
    else
      match charge
      case Threw(_) => (db, FAILED)
      case Answered(status, _, _, _, _) =>
        var after := if status == PAID then MarkPaid(db, PaidReport(id, charge))
            else MarkFailed(db, cfg, FailedReport(id, charge), now);
        (after.0, if Succeeded(after.1) then DONE else FAILED)
  }

  ghost function SettleStep(
    records: seq<UsageIndex.UsageRecord>, throws: Id -> bool, now: int): (Db, Id) -> (Db, Verdict) {
    (db: Db, id: Id) => if Valid(db) && ValidPlans(db) then AfterSettling(db, records, id, throws(id), now)
        else (db, SKIPPED)
  }

  ghost function ChargeStep(cfg: Config, charges: Id -> ChargeResult, now: int): (Db, Id) -> (Db, Verdict) {
    (db: Db, id: Id) => if Valid(db) then AfterCharge(db, cfg, id, charges(id), now) else (db, SKIPPED)
  }

  ghost predicate Sound(db: Db) { Valid(db) && ValidPlans(db) }

  lemma SettlingIsSound(db: Db, records: seq<UsageIndex.UsageRecord>, id: Id, now: int)
    requires Sound(db)
    ensures Sound(MaterializedIfDue(db, records, id, now).0)
  {
    MaterializedIfDueIsValid(db, records, id, now);
  }

  lemma ChargingIsSound(db: Db, cfg: Config, id: Id, charge: ChargeResult, now: int)
    requires Sound(db)
    ensures Sound(AfterCharge(db, cfg, id, charge, now).0)
  {
    if charge.Answered? {
      if charge.status == PAID {
        MarkPaidIsValid(db, PaidReport(id, charge));
        BillingSteps.MarkPaidKeepsPlans(db, PaidReport(id, charge));
      } else {
        MarkFailedIsValid(db, cfg, FailedReport(id, charge), now);
        BillingSteps.MarkFailedKeepsPlans(db, cfg, FailedReport(id, charge), now);
      }
    }
  }

  /** Charging an overage invoice touches that row alone, and not what it charges for. */
  lemma ChargeWrites(db: Db, cfg: Config, id: Id, charge: ChargeResult, now: int)
    requires Valid(db)
    ensures var after := AfterCharge(db, cfg, id, charge, now).0;
            && after.subscriptions == db.subscriptions && after.invoices.Keys == db.invoices.Keys
            && (forall k :: k in db.invoices && (k != id || db.invoices[k].kind != OVERAGE) ==>
               after.invoices[k] == db.invoices[k])
            && (forall k :: k in db.invoices ==> SameCharge(db.invoices[k], after.invoices[k]))
  {
    if IsUncharged(db, id) && charge.Answered? {
      if charge.status == PAID {
        PaidWrites(db, PaidReport(id, charge));
      } else {
        FailedWrites(db, cfg, FailedReport(id, charge), now);
      }
    }
  }

  // ---------------------------------------------------------------- what a charge shows

  /** An invoice that was never sent to the provider: for overage, DRAFT, bound to no external invoice. */
  predicate AwaitsItsCharge(db: Db, id: Id) {
    && id in db.invoices && db.invoices[id].kind == OVERAGE
    && db.invoices[id].status == DRAFT && db.invoices[id].externalInvoiceId.None?
  }

  /** No other invoice has the external invoice the provider answered with. */
  predicate IsUntaken(db: Db, id: Id, charge: ChargeResult)
    requires charge.Answered?
  {
    forall k :: k in db.invoices && k != id ==> !Clash(db.invoices[k].externalInvoiceId, charge.externalInvoiceId)
  }

  /** The invoice shows what the provider answered and charges what it did; the provider's next attempt is kept only
      for a charge that was declined. */
  predicate ShowsAnswer(row: Invoice, shown: Invoice, charge: ChargeResult)
    requires charge.Answered?
  {
    && shown.status == charge.status && SameBill(row, shown) && shown.provider == STRIPE
    && shown.externalInvoiceId == charge.externalInvoiceId
    && shown.externalCheckoutSessionId == row.externalCheckoutSessionId
    && shown.nextPaymentAttemptAt == (if charge.status == PAST_DUE then charge.nextPaymentAttemptAt else None)
    && IsIdle(shown.retry)
    && (if charge.attemptCount.Some? then Some(shown.attemptCount) == charge.attemptCount
        else match charge.status
             case PAID => shown.attemptCount == row.attemptCount
             case PAST_DUE => shown.attemptCount == if row.attemptCount < 1 then 1 else row.attemptCount
             case VOID => shown.attemptCount == 0)
  }

  /** Nothing but the invoice has changed. */
  ghost predicate ChargeShows(db: Db, after: Db, id: Id, charge: ChargeResult)
    requires id in db.invoices && charge.Answered?
  {
    && OnlyRows(db, after, id) && after.subscriptions == db.subscriptions
    && ShowsAnswer(db.invoices[id], after.invoices[id], charge)
  }

  /** A charge is skipped exactly when the invoice does not await it, and recorded exactly when the provider answers
      with an external invoice of its own; unless it is recorded, the tables are as they were. */
  ghost predicate ChargeIsRecorded(db: Db, after: Db, id: Id, charge: ChargeResult, verdict: Verdict) {
    && (verdict.SKIPPED? <==> !AwaitsItsCharge(db, id))
    && (verdict.DONE? <==> AwaitsItsCharge(db, id) && charge.Answered? && IsUntaken(db, id, charge))
    && (verdict.DONE? ==> ChargeShows(db, after, id, charge))
    && (!verdict.DONE? ==> after == db)
  }

  lemma ChargeTakesEffect(db: Db, cfg: Config, id: Id, charge: ChargeResult, now: int)
    requires Valid(db)
    ensures var (after, verdict) := AfterCharge(db, cfg, id, charge, now);
            ChargeIsRecorded(db, after, id, charge, verdict)
  {
    if AwaitsItsCharge(db, id) && charge.Answered? {
      if charge.status == PAID {
        PaidChargeTakesEffect(db, id, charge);
      } else {
        DeclinedChargeTakesEffect(db, cfg, id, charge, now);
      }
    }
  }

  lemma PaidChargeTakesEffect(db: Db, id: Id, charge: ChargeResult)
    requires Valid(db) && AwaitsItsCharge(db, id) && charge.Answered? && charge.status == PAID
    ensures var (after, outcome) := MarkPaid(db, PaidReport(id, charge));
            && (Succeeded(outcome) <==> IsUntaken(db, id, charge))
            && (if Succeeded(outcome) then ChargeShows(db, after, id, charge) else after == db)
  {
    PaymentTakesEffect(db, PaidReport(id, charge));
    assert InvoiceFits(db, id, db.invoices[id]);
    assert Refers(db, db.invoices[id]);
  }

  lemma DeclinedChargeTakesEffect(db: Db, cfg: Config, id: Id, charge: ChargeResult, now: int)
    requires Valid(db) && AwaitsItsCharge(db, id) && charge.Answered? && charge.status != PAID
    ensures var (after, outcome) := MarkFailed(db, cfg, FailedReport(id, charge), now);
            && (Succeeded(outcome) <==> IsUntaken(db, id, charge))
            && (if Succeeded(outcome) then ChargeShows(db, after, id, charge) else after == db)
  {
    FailureTakesEffect(db, cfg, FailedReport(id, charge), now);
    assert InvoiceFits(db, id, db.invoices[id]);
    assert Refers(db, db.invoices[id]);
  }

  /** When the batch has room, every Stripe overage invoice that awaits its charge is in it, and otherwise none that is
      left out is older than any in it. */
  lemma AwaitingAreSelected(db: Db, take: nat, id: Id)
    requires Valid(db)
    ensures var batch := Uncharged(db, take);
            && |batch| <= take && Distinct(batch)
            && (id in batch ==> AwaitsItsCharge(db, id) && db.invoices[id].provider == STRIPE)
            && (AwaitsItsCharge(db, id) && db.invoices[id].provider == STRIPE && id !in batch ==>
                  |batch| == take && forall other :: other in batch ==> other < id)
  {
    var keep := (k: Id) => IsUncharged(db, k) && db.invoices[k].provider == STRIPE;
    var older := (a: Id, b: Id) => a < b;
    FoundAreDue(keep, db.nextInvoiceId, older, take);
    assert keep(id) == (AwaitsItsCharge(db, id) && db.invoices[id].provider == STRIPE);
    if keep(id) && id !in Uncharged(db, take) {
      forall other | other in Uncharged(db, take)
        ensures other < id
      {
        FoundAreFirst(keep, db.nextInvoiceId, older, take, id, other);
      }
    }
  }

  /** A period whose settlement is positive leaves an invoice of that amount which awaits its charge at Stripe, so that
      a pass with room sends it to the provider. */
  lemma SettledOverageAwaitsItsCharge(db: Db, records: seq<UsageIndex.UsageRecord>, id: Id, now: int, take: nat)
    requires Sound(db) && Settles(db, id) && SettlementOf(db, records, id).amountCents > 0 && !HasOverageInvoice(db, id)
    ensures var after, row := MaterializedIfDue(db, records, id, now).0, db.invoices[id];
            exists n: Id ::
              && n !in db.invoices && AwaitsItsCharge(after, n) && after.invoices[n].provider == STRIPE
              && after.invoices[n].overageSourceInvoiceId == Some(id)
              && after.invoices[n].subscriptionId == row.subscriptionId
              && after.invoices[n].amountCents == SettlementOf(db, records, id).amountCents
              && after.invoices[n].periodStart == row.periodStart && after.invoices[n].periodEnd == row.periodEnd
              && (|Uncharged(after, take)| < take ==> n in Uncharged(after, take))
  {
    MaterializedIfDueWrites(db, records, id, now);
    SettlingIsSound(db, records, id, now);
    var after, n := MaterializedIfDue(db, records, id, now).0, db.nextInvoiceId;
    assert n in after.invoices;
    AwaitingAreSelected(after, take, n);
  }

  // ---------------------------------------------------------------- the worker

  class OverageWorker {
    const collection: BillingOverageCollection

    constructor (collection: BillingOverageCollection)
      ensures this.collection == collection
    {
      this.collection := collection;
    }

    function Tables(): Db
      reads this, collection, collection.tables
    {
      collection.tables.Tables()
    }

    ghost predicate Performs(step: (Db, Id) -> (Db, Verdict), id: Id, throws: bool, now: int, db: Db)
      reads collection.store
    {
      Sound(db) ==> step(db, id) == AfterSettling(db, collection.store.records, id, throws, now)
    }

    method Settle(id: Id, throws: bool, now: int, ghost step: (Db, Id) -> (Db, Verdict)) returns (verdict: Verdict)
      requires collection.Ready() && Performs(step, id, throws, now, Tables())
      modifies collection.tables
      ensures collection.Ready() && (Tables(), verdict) == step(old(Tables()), id)
    {
      if throws {
        return FAILED;
      }
      var processed := collection.MaterializeSourceInvoice(id, now);
      verdict := if processed then DONE else SKIPPED;
    }

    method SettleAll(batch: seq<Id>, throws: Id -> bool, now: int, ghost step: (Db, Id) -> (Db, Verdict))
      returns (materialized: nat, failed: nat)
      requires collection.Ready()
      requires forall i: int, db: Db :: 0 <= i < |batch| ==> Performs(step, batch[i], throws(batch[i]), now, db)
      modifies collection.tables
      ensures collection.Ready() && Tally(Tables(), materialized, failed) == AfterAll(step, old(Tables()), batch)
    {
      materialized, failed := 0, 0;
      for i := 0 to |batch|
        invariant collection.Ready()
        invariant Tally(Tables(), materialized, failed) == AfterAll(step, old(Tables()), batch[..i])
      {
        AllInTurn(step, old(Tables()), batch, i);
        var verdict := Settle(batch[i], throws(batch[i]), now, step);
        if verdict.DONE? {
          materialized := materialized + 1;
        } else if verdict.FAILED? {
          failed := failed + 1;
        }
      }
      assert batch[..|batch|] == batch;
    }

    method CollectOverageInvoice(id: Id, charge: ChargeResult, now: int) returns (verdict: Verdict)
      requires collection.Ready()
      modifies collection.tables
      ensures collection.Ready()
      ensures (Tables(), verdict) == AfterCharge(old(Tables()), collection.tables.config, id, charge, now)
      ensures ChargeIsRecorded(old(Tables()), Tables(), id, charge, verdict)
    {
      ChargingIsSound(Tables(), collection.tables.config, id, charge, now);
      ChargeTakesEffect(Tables(), collection.tables.config, id, charge, now);
      if !IsUncharged(Tables(), id) {
        return SKIPPED;
      }
      if charge.Threw? {
        return FAILED;
      }
      var outcome: Outcome;
      if charge.status == PAID {
        outcome := collection.tables.MarkInvoicePaid(PaidReport(id, charge));
      } else {
        outcome := collection.tables.MarkInvoiceFailed(FailedReport(id, charge), now);
      }
      verdict := if Succeeded(outcome) then DONE else FAILED;
    }

    ghost predicate Charges(step: (Db, Id) -> (Db, Verdict), id: Id, charge: ChargeResult, now: int, db: Db) {
      Valid(db) ==> step(db, id) == AfterCharge(db, collection.tables.config, id, charge, now)
    }

    method Collect(
      id: Id, charge: ChargeResult, now: int, ghost step: (Db, Id) -> (Db, Verdict)) returns (verdict: Verdict)
      requires collection.Ready() && Charges(step, id, charge, now, Tables())
      modifies collection.tables
      ensures collection.Ready() && (Tables(), verdict) == step(old(Tables()), id)
    {
      verdict := CollectOverageInvoice(id, charge, now);
    }

    method CollectAll(batch: seq<Id>, charges: Id -> ChargeResult, now: int, ghost step: (Db, Id) -> (Db, Verdict))
      returns (collected: nat, failed: nat)
      requires collection.Ready()
      requires forall i: int, db: Db :: 0 <= i < |batch| ==> Charges(step, batch[i], charges(batch[i]), now, db)
      modifies collection.tables
      ensures collection.Ready() && Tally(Tables(), collected, failed) == AfterAll(step, old(Tables()), batch)
    {
      collected, failed := 0, 0;
      for i := 0 to |batch|
        invariant collection.Ready()
        invariant Tally(Tables(), collected, failed) == AfterAll(step, old(Tables()), batch[..i])
      {
        AllInTurn(step, old(Tables()), batch, i);
        var verdict := Collect(batch[i], charges(batch[i]), now, step);
        if verdict.DONE? {
          collected := collected + 1;
        } else if verdict.FAILED? {
          failed := failed + 1;
        }
      }
      assert batch[..|batch|] == batch;
    }

    method ProcessDueOverageCollection(now: int, take: nat, throws: Id -> bool, charges: Id -> ChargeResult)
      returns (materialized: nat, collected: nat, failed: nat)
      requires collection.Ready()
      modifies collection.tables
      ensures collection.Ready()
      ensures var before := old(Tables());
              var settled :=
                  AfterAll(SettleStep(collection.store.records, throws, now), before, DueSources(before, now, take));
              var charged :=
                  AfterAll(ChargeStep(collection.tables.config, charges, now), settled.db,
                  Uncharged(settled.db, take));
              && Tables() == charged.db
              && materialized == settled.done && collected == charged.done && failed == settled.failed + charged.failed
    {
      var notSettled, notCollected;
      var due := DueSources(Tables(), now, take);
      materialized, notSettled := SettleAll(due, throws, now, SettleStep(collection.store.records, throws, now));
      var pending := Uncharged(Tables(), take);
      collected, notCollected := CollectAll(pending, charges, now, ChargeStep(collection.tables.config, charges, now));
      failed := notSettled + notCollected;
    }
  }

  // ---------------------------------------------------------------- every due period is settled

  function SettledRow(row: Invoice, throws: bool, now: int): Invoice {
    if throws then row else row.(overageProcessedAt := Some(now))
  }

  /** The step settles this invoice, unless it throws, and touches no other that was there. */
  ghost predicate SettlesOnly(
    step: (Db, Id) -> (Db, Verdict), id: Id, throws: bool, now: int, sound: Db -> bool, db: Db) {
    sound(db) && id in db.invoices && IsSettleable(db.invoices[id]) ==>
      var after := step(db, id);
      && sound(after.0) && after.1 == (if throws then FAILED else DONE)
      && RowsAfter(db, after.0, [id], _ => throws, now)
  }

  /** The rows of the batch that do not throw are settled, all others are as they were. */
  ghost predicate RowsAfter(db: Db, after: Db, batch: seq<Id>, throws: Id -> bool, now: int) {
    forall k :: k in db.invoices ==>
      k in after.invoices && after.invoices[k] == if k in batch then SettledRow(db.invoices[k], throws(k), now)
          else db.invoices[k]
  }

  lemma SettlingWritesOneRow(db: Db, records: seq<UsageIndex.UsageRecord>, id: Id, now: int)
    requires Sound(db) && id in db.invoices && IsSettleable(db.invoices[id])
    ensures RowsAfter(db, MaterializedIfDue(db, records, id, now).0, [id], _ => false, now)
  {
    MaterializedIfDueWrites(db, records, id, now);
  }

  lemma SettleStepOf(records: seq<UsageIndex.UsageRecord>, throws: Id -> bool, id: Id, now: int, db: Db)
    requires Sound(db) && Settles(db, id)
    ensures SettleStep(records, throws, now)(db, id)
         == if throws(id) then (db, FAILED) else (MaterializedIfDue(db, records, id, now).0, DONE)
  {
  }

  lemma SettleStepSettlesOnly(
    records: seq<UsageIndex.UsageRecord>, throws: Id -> bool, id: Id, now: int, db: Db)
    ensures SettlesOnly(SettleStep(records, throws, now), id, throws(id), now, d => Sound(d), db)
  {
    if Sound(db) && Settles(db, id) {
      SettleStepOf(records, throws, id, now, db);
      if !throws(id) {
        SettlingIsSound(db, records, id, now);
        SettlingWritesOneRow(db, records, id, now);
      }
    }
  }

  lemma LastIsSettled(
    step: (Db, Id) -> (Db, Verdict), db: Db, mid: Tally, init: seq<Id>, last: Id, throws: Id -> bool, now: int,
    sound: Db -> bool)
    requires RowsAfter(db, mid.db, init, throws, now) && sound(mid.db) && mid.done + mid.failed == |init|
    requires last !in init && last in db.invoices && IsSettleable(db.invoices[last])
    requires SettlesOnly(step, last, throws(last), now, sound, mid.db)
    ensures var t := Counted(mid, step(mid.db, last));
            sound(t.db) && t.done + t.failed == |init| + 1 && RowsAfter(db, t.db, init + [last], throws, now)
  {
    RowsInTurn(db, mid.db, step(mid.db, last).0, init, last, throws, now);
  }

  lemma RowsInTurn(db: Db, mid: Db, after: Db, init: seq<Id>, last: Id, throws: Id -> bool, now: int)
    requires RowsAfter(db, mid, init, throws, now) && RowsAfter(mid, after, [last], _ => throws(last), now)
        && last !in init
    ensures RowsAfter(db, after, init + [last], throws, now)
  {
  }

  lemma {:induction false} AllSettled(
    step: (Db, Id) -> (Db, Verdict), db: Db, batch: seq<Id>, throws: Id -> bool, now: int, sound: Db -> bool)
    requires sound(db) && Distinct(batch)
    requires forall i :: 0 <= i < |batch| ==> batch[i] in db.invoices && IsSettleable(db.invoices[batch[i]])
    requires forall i: int, d: Db :: 0 <= i < |batch| ==> SettlesOnly(step, batch[i], throws(batch[i]), now, sound, d)
    ensures var t := AfterAll(step, db, batch);
            sound(t.db) && t.done + t.failed == |batch| && RowsAfter(db, t.db, batch, throws, now)
  {
    if batch != [] {
      var n := |batch| - 1;
      var init, last := batch[..n], batch[n];
      forall i: int, d: Db | 0 <= i < n
        ensures SettlesOnly(step, init[i], throws(init[i]), now, sound, d)
      {
        assert SettlesOnly(step, batch[i], throws(batch[i]), now, sound, d);
      }
      AllSettled(step, db, init, throws, now, sound);
      var mid := AfterAll(step, db, init);
      assert SettlesOnly(step, last, throws(last), now, sound, mid.db);
      assert last !in init && last in db.invoices && IsSettleable(db.invoices[last]);
      LastIsSettled(step, db, mid, init, last, throws, now, sound);
      assert batch == init + [last];
    }
  }

  /** One pass settles every period it selects, except those whose transaction throws; these and all other
      invoices stay exactly as they were. When the batch is not full that is every period that is over. */
  lemma DuePeriodsAreSettled(
    db: Db, records: seq<UsageIndex.UsageRecord>, throws: Id -> bool, now: int, take: nat, id: Id)
    requires Sound(db)
    ensures var batch := DueSources(db, now, take);
            var t := AfterAll(SettleStep(records, throws, now), db, batch);
            && Sound(t.db) && t.done + t.failed == |batch| && RowsAfter(db, t.db, batch, throws, now)
            && (IsDueSource(db, id, now) && |batch| < take ==>
               id in batch && id in t.db.invoices && (IsDueSource(t.db, id, now) <==> throws(id)))
  {
    var batch := DueSources(db, now, take);
    DueSourcesAreDue(db, now, take);
    BatchIsSettled(db, records, throws, now, batch);
  }

  lemma DueSourcesAreDue(db: Db, now: int, take: nat)
    requires Sound(db)
    ensures var batch := DueSources(db, now, take);
            && Distinct(batch) && (forall id :: id in batch ==> IsDueSource(db, id, now))
            && (|batch| < take ==> forall id: Id :: IsDueSource(db, id, now) ==> id in batch)
  {
    var due := (k: Id) => IsDueSource(db, k, now);
    FoundAreDue(due, db.nextInvoiceId, SoonerEnd(db), take);
    assert forall id: Id :: due(id) == IsDueSource(db, id, now);
  }

  /** When the batch has room, every period that was paid for at Stripe, is over and was not settled is in it, and
      nothing else ever is. One that is left out of a full batch ended no earlier than any in it. */
  lemma EndedPeriodsAreSelected(db: Db, now: int, take: nat, id: Id)
    requires Sound(db)
    ensures var batch := DueSources(db, now, take);
            && |batch| <= take
            && (id in batch ==> IsPaidPeriod(db, id) && now >= db.invoices[id].periodEnd)
            && (IsPaidPeriod(db, id) && now >= db.invoices[id].periodEnd && id !in batch ==>
                  && |batch| == take
                  && forall other :: other in batch ==>
                       other in db.invoices && db.invoices[other].periodEnd <= db.invoices[id].periodEnd)
  {
    var batch := DueSources(db, now, take);
    DueSourcesAreDue(db, now, take);
    FoundAreDue((k: Id) => IsDueSource(db, k, now), db.nextInvoiceId, SoonerEnd(db), take);
    if IsDueSource(db, id, now) && id !in batch {
      forall other | other in batch
        ensures other in db.invoices && db.invoices[other].periodEnd <= db.invoices[id].periodEnd
      {
        EarliestPeriodsFirst(db, now, take, id, other);
      }
    }
  }

  lemma BatchIsSettled(db: Db, records: seq<UsageIndex.UsageRecord>, throws: Id -> bool, now: int, batch: seq<Id>)
    requires Sound(db) && Distinct(batch) && forall id :: id in batch ==> IsDueSource(db, id, now)
    ensures var t := AfterAll(SettleStep(records, throws, now), db, batch);
            Sound(t.db) && t.done + t.failed == |batch| && RowsAfter(db, t.db, batch, throws, now)
  {
    var step, sound := SettleStep(records, throws, now), (d: Db) => Sound(d);
    forall i | 0 <= i < |batch|
      ensures batch[i] in db.invoices && IsSettleable(db.invoices[batch[i]])
    {
      assert batch[i] in batch;
    }
    forall i: int, d: Db | 0 <= i < |batch|
      ensures SettlesOnly(step, batch[i], throws(batch[i]), now, sound, d)
    {
      SettleStepSettlesOnly(records, throws, batch[i], now, d);
    }
    AllSettled(step, db, batch, throws, now, sound);
  }

  // ---------------------------------------------------------------- every answer is recorded

  /** The step records the answer on the invoice, unless it is taken, and touches nothing else. */
  ghost predicate ChargesOnly(
    step: (Db, Id) -> (Db, Verdict), id: Id, charge: ChargeResult, sound: Db -> bool, db: Db) {
    sound(db) ==>
      var (after, verdict) := step(db, id);
      sound(after) && ChargeIsRecorded(db, after, id, charge, verdict)
  }

  /** No two answers name one external invoice, and none names one that is bound already. */
  ghost predicate AnswersFit(db: Db, batch: seq<Id>, charges: Id -> ChargeResult) {
    forall id :: id in batch && charges(id).Answered? ==>
      && IsUntaken(db, id, charges(id))
      && (forall other :: other in batch && other != id && charges(other).Answered? ==>
            !Clash(charges(other).externalInvoiceId, charges(id).externalInvoiceId))
  }

  /** The invoices of the batch show what was answered for them, all others are as they were. */
  ghost predicate AnswersShown(db: Db, after: Db, batch: seq<Id>, charges: Id -> ChargeResult) {
    && after.invoices.Keys == db.invoices.Keys && after.subscriptions == db.subscriptions
    && (forall k :: k in db.invoices ==>
          if k in batch && charges(k).Answered? then ShowsAnswer(db.invoices[k], after.invoices[k], charges(k))
          else after.invoices[k] == db.invoices[k])
  }

  function Answers(batch: seq<Id>, charges: Id -> ChargeResult): nat {
    if batch == [] then 0
    else Answers(batch[..|batch| - 1], charges) + if charges(batch[|batch| - 1]).Answered? then 1 else 0
  }

  lemma LastStillFits(db: Db, mid: Db, init: seq<Id>, last: Id, charges: Id -> ChargeResult)
    requires AnswersShown(db, mid, init, charges) && AnswersFit(db, init + [last], charges)
    requires last !in init && AwaitsItsCharge(db, last)
    ensures AwaitsItsCharge(mid, last) && (charges(last).Answered? ==> IsUntaken(mid, last, charges(last)))
  {
    if charges(last).Answered? {
      assert last in init + [last];
      forall k | k in mid.invoices && k != last
        ensures !Clash(mid.invoices[k].externalInvoiceId, charges(last).externalInvoiceId)
      {
        assert k in init ==> k in init + [last];
      }
    }
  }

  lemma AnswersInTurn(db: Db, mid: Db, after: Db, init: seq<Id>, last: Id, charges: Id -> ChargeResult)
    requires AnswersShown(db, mid, init, charges) && last !in init && last in db.invoices
    requires if charges(last).Answered? then ChargeShows(mid, after, last, charges(last)) else after == mid
    ensures AnswersShown(db, after, init + [last], charges)
  {
  }

  lemma {:induction false} AllCharged(
    step: (Db, Id) -> (Db, Verdict), db: Db, batch: seq<Id>, charges: Id -> ChargeResult, sound: Db -> bool)
    requires sound(db) && Distinct(batch) && AnswersFit(db, batch, charges)
    requires forall id :: id in batch ==> AwaitsItsCharge(db, id)
    requires forall i: int, d: Db :: 0 <= i < |batch| ==> ChargesOnly(step, batch[i], charges(batch[i]), sound, d)
    ensures var t := AfterAll(step, db, batch);
            && sound(t.db) && AnswersShown(db, t.db, batch, charges)
            && t.done == Answers(batch, charges) && t.failed == |batch| - t.done
  {
    if batch != [] {
      var n := |batch| - 1;
      var init, last := batch[..n], batch[n];
      assert batch == init + [last];
      forall i: int, d: Db | 0 <= i < n
        ensures ChargesOnly(step, init[i], charges(init[i]), sound, d)
      {
        assert ChargesOnly(step, batch[i], charges(batch[i]), sound, d);
      }
      AllCharged(step, db, init, charges, sound);
      var mid := AfterAll(step, db, init);
      assert ChargesOnly(step, last, charges(last), sound, mid.db);
      LastStillFits(db, mid.db, init, last, charges);
      AnswersInTurn(db, mid.db, step(mid.db, last).0, init, last, charges);
    }
  }

  /** One pass charges every invoice it selects: each shows what the provider answered for it, those it threw at and
      all others stay exactly as they were, provided the provider gives every charge an external invoice of its own. */
  lemma ChargesAreRecorded(db: Db, cfg: Config, charges: Id -> ChargeResult, now: int, take: nat)
    requires Sound(db) && AnswersFit(db, Uncharged(db, take), charges)
    ensures var batch := Uncharged(db, take);
            var t := AfterAll(ChargeStep(cfg, charges, now), db, batch);
            && Sound(t.db) && AnswersShown(db, t.db, batch, charges)
            && t.done == Answers(batch, charges) && t.failed == |batch| - t.done
  {
    var batch, step, sound := Uncharged(db, take), ChargeStep(cfg, charges, now), (d: Db) => Sound(d);
    forall id | id in batch
      ensures AwaitsItsCharge(db, id)
    {
      AwaitingAreSelected(db, take, id);
    }
    AwaitingAreSelected(db, take, 0);
    forall i: int, d: Db | 0 <= i < |batch|
      ensures ChargesOnly(step, batch[i], charges(batch[i]), sound, d)
    {
      if Sound(d) {
        ChargingIsSound(d, cfg, batch[i], charges(batch[i]), now);
        ChargeTakesEffect(d, cfg, batch[i], charges(batch[i]), now);
      }
    }
    AllCharged(step, db, batch, charges, sound);
  }

  // ---------------------------------------------------------------- a charge once recorded is not repeated

  predicate Reported(db: Db, id: Id) { id in db.invoices && db.invoices[id].status != DRAFT }

  ghost predicate KeepsReported(db: Db, after: Db) {
    forall id :: Reported(db, id) ==> Reported(after, id)
  }

  predicate NamesNoDraft(step: BillingSteps.Step) { step.ReportFailed? ==> step.failed.invoiceStatus != Some(DRAFT) }

  lemma PaidKeepsReported(db: Db, p: PaidParams)
    requires Valid(db)
    ensures KeepsReported(db, MarkPaid(db, p).0)
  {
  }

  lemma FailedKeepsReported(db: Db, cfg: Config, p: FailedParams, now: int)
    requires Valid(db) && p.invoiceStatus != Some(DRAFT)
    ensures KeepsReported(db, MarkFailed(db, cfg, p, now).0)
  {
  }

  lemma ResolvingKeepsReported(db: Db, p: SyncParams)
    requires Valid(db)
    ensures KeepsReported(db, ResolveInvoice(db, p).0) && Valid(ResolveInvoice(db, p).0)
  {
    ResolvedIsValid(db, p);
  }

  lemma SyncKeepsReported(db: Db, cfg: Config, p: SyncParams, now: int)
    requires Valid(db)
    ensures KeepsReported(db, SyncInvoice(db, cfg, p, now).0)
  {
    var (resolved, outcome, id) := ResolveInvoice(db, p);
    ResolvingKeepsReported(db, p);
    SyncResolvesThenForwards(db, cfg, p, now);
    if outcome.Done? {
      if p.status == PAID {
        PaidKeepsReported(resolved, SyncPaid(id, p));
      } else if p.status != DRAFT {
        FailedKeepsReported(resolved, cfg, SyncFailed(id, p), now);
      }
    }
  }

  lemma SettlingKeepsReported(db: Db, records: seq<UsageIndex.UsageRecord>, id: Id, now: int)
    requires Sound(db)
    ensures KeepsReported(db, MaterializedIfDue(db, records, id, now).0)
  {
    if id in db.invoices && IsSettleable(db.invoices[id]) {
      MaterializedIfDueWrites(db, records, id, now);
    }
  }

  lemma CheckoutKeepsReported(db: Db, id: Id, provider: Provider, session: Option<Id>, external: Option<Id>)
    requires Valid(db)
    ensures KeepsReported(db, RecordCheckout(db, id, provider, session, external).0)
  {
  }

  lemma SubscribingKeepsReported(db: Db, cfg: Config, step: BillingSteps.Step)
    requires Sound(db) && step.Subscribe?
    ensures KeepsReported(db, BillingSteps.Apply(db, cfg, step).0)
  {
  }

  lemma StepKeepsReported(db: Db, cfg: Config, step: BillingSteps.Step)
    requires Sound(db) && NamesNoDraft(step)
    ensures KeepsReported(db, BillingSteps.Apply(db, cfg, step).0)
  {
    match step
    case SyncExternalInvoice(p, now) => SyncKeepsReported(db, cfg, p, now);
    case ReportPaid(p) => PaidKeepsReported(db, p);
    case ReportFailed(p, now) => FailedKeepsReported(db, cfg, p, now);
    case SettlePeriod(id, records, at) => SettlingKeepsReported(db, records, id, at);
    case CompleteCheckout(id, provider, session, external) => CheckoutKeepsReported(db, id, provider, session,
        external);
    case CancelExternal(_) => SubscriptionStepsKeepInvoices(db, cfg, step);
    case SyncExternalSubscription(_, _) => SubscriptionStepsKeepInvoices(db, cfg, step);
    case Cancel(_, _) => SubscriptionStepsKeepInvoices(db, cfg, step);
    case Subscribe(_, _, _, _, _, _) => SubscribingKeepsReported(db, cfg, step);
  }

  lemma {:induction false} ReportedStaysReported(db: Db, cfg: Config, steps: seq<BillingSteps.Step>, id: Id)
    requires Sound(db) && Reported(db, id) && forall n :: 0 <= n < |steps| ==> NamesNoDraft(steps[n])
    ensures Reported(BillingSteps.Run(db, cfg, steps), id)
  {
    if steps != [] {
      var init := steps[..|steps| - 1];
      ReportedStaysReported(db, cfg, init, id);
      StepKeepsReported(BillingSteps.Run(db, cfg, init), cfg, steps[|steps| - 1]);
    }
  }

  lemma RecordedChargeIsReported(db: Db, cfg: Config, id: Id, charge: ChargeResult, now: int)
    requires Sound(db)
    ensures var after := AfterCharge(db, cfg, id, charge, now);
            after.1.DONE? ==> Reported(after.0, id)
  {
    if IsUncharged(db, id) && charge.Answered? {
      PaidIsNotPastDue(db, PaidReport(id, charge));
      VoidIsNotPastDue(db, cfg, FailedReport(id, charge), now);
    }
  }

  /** An overage invoice whose charge was recorded, whatever the provider answered, is never sent to the provider
      again: no run of billing operations makes it uncharged. */
  lemma RecordedChargeIsNotRepeated(
    db: Db, cfg: Config, id: Id, charge: ChargeResult, now: int, steps: seq<BillingSteps.Step>)
    requires Sound(db) && AfterCharge(db, cfg, id, charge, now).1.DONE? && forall n :: 0 <= n < |steps| ==>
        NamesNoDraft(steps[n])
    ensures var after := AfterCharge(db, cfg, id, charge, now).0;
            Sound(after) && !IsUncharged(BillingSteps.Run(after, cfg, steps), id)
  {
    ChargingIsSound(db, cfg, id, charge, now);
    RecordedChargeIsReported(db, cfg, id, charge, now);
    ReportedStaysReported(AfterCharge(db, cfg, id, charge, now).0, cfg, steps, id);
  }
}
