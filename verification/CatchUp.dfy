/** A subscription whose periods are overdue catches up, one period with every pass of the collection worker that
    gets to it, whatever else the passes settle, charge or fail at. */
module CatchUp {
  import opened Common
  import opened UtcCalendar
  import opened BillingTypes
  import opened BillingDb
  import opened Settlement
  import opened OverageCollection
  import opened PeriodChain
  import opened PeriodRuns
  import opened PaymentProvider
  import opened OverageBatch
  import opened Batches
  import opened StableSort
  import SettlementRuns
  import UsageIndex

  const SHORTEST: int := 28 * MS_PER_DAY
  const LONGEST: int := 31 * MS_PER_DAY

  // ---------------------------------------------------------------- what matters of a state

  /** The last period is over and not yet settled. */
  predicate Overdue(st: State, now: int) {
    st.chain != [] && Live(st) && Last(st) in st.db.invoices && st.db.invoices[Last(st)].periodEnd <= now
  }

  /** The end of the last period */
  function EndOf(st: State): int {
    if st.chain != [] && Last(st) in st.db.invoices then st.db.invoices[Last(st)].periodEnd else 0
  }

  predicate Renewing(st: State, s: Id) { s in st.db.subscriptions && Renews(st.db.subscriptions[s]) }

  datatype Reading = Reading(overdue: bool, renewing: bool, end: int)

  function ReadingOf(st: State, s: Id, now: int): Reading { Reading(Overdue(st, now), Renewing(st, s), EndOf(st)) }

  /** One period on, or the end of the chain if the subscription does not renew; nothing if it is up to date. */
  predicate Advances(a: Reading, b: Reading, now: int) {
    if !a.overdue then b == a
    else if !a.renewing then !b.overdue
    else b.renewing && b.overdue == (b.end <= now) && a.end + SHORTEST <= b.end <= a.end + LONGEST
  }

  /** The chain and its last period are as before. */
  ghost predicate KeepsLast(st: State, after: State, s: Id) {
    && after.chain == st.chain && after.settled == st.settled && st.chain != []
    && st.db.invoices.Keys <= after.db.invoices.Keys && Last(st) in st.db.invoices
    && EndOf(after) == EndOf(st) && (Renewing(after, s) <==> Renewing(st, s))
  }

  lemma KeptReading(st: State, after: State, s: Id, now: int)
    requires KeepsLast(st, after, s)
    ensures ReadingOf(after, s, now) == ReadingOf(st, s, now)
  {
  }

  lemma LastIsStored(st: State, s: Id, plan: Plan)
    requires ChainInv(st, s, plan)
    ensures st.chain != [] && Last(st) in st.db.invoices && KeepsLast(st, st, s)
  {
    assert IsLink(st.db, s, Last(st));
  }

  // ---------------------------------------------------------------- steps that are not about the last period

  lemma OtherWritesKeepLast(st: State, after: State, s: Id, id: Id, settled: Settled, nextEnd: int, at: int)
    requires Links(st.db, s, st.chain) && after.chain == st.chain && after.settled == st.settled
        && s in st.db.subscriptions
    requires id in st.db.invoices && st.db.invoices[id].subscriptionId in st.db.subscriptions
    requires st.db.invoices[id].subscriptionId != s && Writes(st.db, after.db, id, settled, nextEnd, at)
    ensures KeepsLast(st, after, s)
  {
    assert IsLink(st.db, s, Last(st));
  }

  lemma OtherSettlementKeepsLast(st: State, s: Id, plan: Plan, step: Step)
    requires ChainInv(st, s, plan) && step.Settle? && !SettlementRuns.SettlesOwn(st, s, step)
    ensures KeepsLast(st, Apply(st, s, step), s)
  {
    LastIsStored(st, s, plan);
    if Settles(st.db, step.invoiceId) {
      SettlingOtherWrites(st, s, plan, step);
      OtherWritesKeepLast(st, Apply(st, s, step), s, step.invoiceId, SettlementOf(st.db, step.records, step.invoiceId),
                          AddPlanPeriod(st.db.invoices[step.invoiceId].periodEnd), step.processedAt);
    }
  }

  lemma ChargeKeepsLast(st: State, s: Id, plan: Plan, step: Step)
    requires ChainInv(st, s, plan) && step.ChargeOverage?
    ensures KeepsLast(st, Apply(st, s, step), s)
  {
    LastIsStored(st, s, plan);
    ChargeWrites(st.db, step.config, step.overageId, step.charge, step.chargedAt);
    assert SameCharge(st.db.invoices[Last(st)], Apply(st, s, step).db.invoices[Last(st)]);
  }

  // ---------------------------------------------------------------- the step that is

  lemma OverdueIsSettleable(st: State, s: Id, plan: Plan, now: int)
    requires ChainInv(st, s, plan) && Overdue(st, now)
    ensures Settles(st.db, Last(st)) && st.db.invoices[Last(st)].subscriptionId == s
  {
    assert IsLink(st.db, s, Last(st));
  }

  /** The chain has ended, or its last invoice is one that was not there before. */
  ghost predicate LastIsNew(st: State, after: State) {
    && st.db.invoices.Keys <= after.db.invoices.Keys && after.chain != []
    && (!Live(after) || Last(after) !in st.db.invoices)
  }

  lemma SettlingAdvances(st: State, after: State, s: Id, settled: Settled, nextEnd: int, at: int, now: int)
    requires Links(st.db, s, st.chain) && SettlesLast(st, after, s, settled, nextEnd, at) && Overdue(st, now)
    requires EndOf(st) + SHORTEST <= nextEnd <= EndOf(st) + LONGEST
    ensures Advances(ReadingOf(st, s, now), ReadingOf(after, s, now), now) && LastIsNew(st, after)
  {
  }

  lemma OwnSettlementAdvances(st: State, s: Id, plan: Plan, records: seq<UsageIndex.UsageRecord>, now: int)
    requires ChainInv(st, s, plan) && Overdue(st, now)
    ensures var after := Apply(st, s, Settle(Last(st), records, now));
            Advances(ReadingOf(st, s, now), ReadingOf(after, s, now), now) && LastIsNew(st, after)
  {
    var step := Settle(Last(st), records, now);
    OverdueIsSettleable(st, s, plan, now);
    SettleKeepsInv(st, s, plan, step);
    PeriodLength(EndOf(st));
    SettlingAdvances(st, Apply(st, s, step), s, SettlementOf(st.db, records, Last(st)), AddPlanPeriod(EndOf(st)),
        now, now);
  }

  // ---------------------------------------------------------------- a pass of the worker

  /** One pass: what is recorded by then, which settlements throw, what the charges come to, how much it takes on. */
  datatype Pass = Pass(records: seq<UsageIndex.UsageRecord>, throws: Id -> bool, charges: Id -> ChargeResult, take: nat)

  function SettleSteps(batch: seq<Id>, pass: Pass, now: int): seq<Step> {
    if batch == [] then []
    else
      var last := batch[|batch| - 1];
      SettleSteps(batch[..|batch| - 1], pass, now) + if pass.throws(last) then [] else [Settle(last, pass.records, now)]
  }

  function ChargeSteps(batch: seq<Id>, cfg: Config, pass: Pass, now: int): seq<Step> {
    if batch == [] then []
    else
      var last := batch[|batch| - 1];
      ChargeSteps(batch[..|batch| - 1], cfg, pass, now) + [ChargeOverage(cfg, last, pass.charges(last), now)]
  }

  ghost function AfterSettlements(st: State, s: Id, plan: Plan, pass: Pass, now: int): (after: State)
    requires ChainInv(st, s, plan)
    ensures ChainInv(after, s, plan)
  {
    Run(st, s, plan, SettleSteps(DueSources(st.db, now, pass.take), pass, now))
  }

  ghost function AfterPass(st: State, s: Id, plan: Plan, cfg: Config, pass: Pass, now: int): (after: State)
    requires ChainInv(st, s, plan)
    ensures ChainInv(after, s, plan)
  {
    var settled := AfterSettlements(st, s, plan, pass, now);
    Run(settled, s, plan, ChargeSteps(Uncharged(settled.db, pass.take), cfg, pass, now))
  }

  lemma ApplySettle(st: State, s: Id, id: Id, records: seq<UsageIndex.UsageRecord>, now: int)
    requires Valid(st.db) && ValidPlans(st.db)
    ensures Apply(st, s, Settle(id, records, now)).db == MaterializedIfDue(st.db, records, id, now).0
  {
  }

  lemma {:induction false} SettleStepsAreTheLoop(st: State, s: Id, plan: Plan, batch: seq<Id>, pass: Pass, now: int)
    requires ChainInv(st, s, plan)
    ensures Run(st, s, plan, SettleSteps(batch, pass, now)).db
         == AfterAll(SettleStep(pass.records, pass.throws, now), st.db, batch).db
  {
    if batch != [] {
      var init, last := batch[..|batch| - 1], batch[|batch| - 1];
      SettleStepsAreTheLoop(st, s, plan, init, pass, now);
      var before := Run(st, s, plan, SettleSteps(init, pass, now));
      if pass.throws(last) {
        assert SettleSteps(batch, pass, now) == SettleSteps(init, pass, now);
      } else {
        RunSnoc(st, s, plan, SettleSteps(init, pass, now), Settle(last, pass.records, now));
        ApplySettle(before, s, last, pass.records, now);
      }
    }
  }

  lemma ApplyCharge(st: State, s: Id, cfg: Config, id: Id, pass: Pass, now: int)
    requires Valid(st.db) && ValidPlans(st.db)
    ensures Apply(st, s, ChargeOverage(cfg, id, pass.charges(id), now)).db
        == ChargeStep(cfg, pass.charges, now)(st.db, id).0
  {
  }

  lemma LastOfLoop(step: (Db, Id) -> (Db, Verdict), db: Db, batch: seq<Id>)
    requires batch != []
    ensures AfterAll(step, db, batch).db == step(AfterAll(step, db, batch[..|batch| - 1]).db, batch[|batch| - 1]).0
  {
  }

  lemma {:induction false} ChargeStepsAreTheLoop(
    st: State, s: Id, plan: Plan, batch: seq<Id>, cfg: Config, pass: Pass, now: int)
    requires ChainInv(st, s, plan)
    ensures Run(st, s, plan, ChargeSteps(batch, cfg, pass, now)).db
        == AfterAll(ChargeStep(cfg, pass.charges, now), st.db, batch).db
  {
    if batch != [] {
      var init, last := batch[..|batch| - 1], batch[|batch| - 1];
      ChargeStepsAreTheLoop(st, s, plan, init, cfg, pass, now);
      LastChargeOfLoop(st, Run(st, s, plan, ChargeSteps(init, cfg, pass, now)), s, batch, cfg, pass, now);
      RunSnoc(st, s, plan, ChargeSteps(init, cfg, pass, now), ChargeOverage(cfg, last, pass.charges(last), now));
    }
  }

  lemma LastChargeOfLoop(st: State, before: State, s: Id, batch: seq<Id>, cfg: Config, pass: Pass, now: int)
    requires Valid(before.db) && ValidPlans(before.db) && batch != []
    requires before.db == AfterAll(ChargeStep(cfg, pass.charges, now), st.db, batch[..|batch| - 1]).db
    ensures var last := batch[|batch| - 1];
            Apply(before, s, ChargeOverage(cfg, last, pass.charges(last), now)).db
            == AfterAll(ChargeStep(cfg, pass.charges, now), st.db, batch).db
  {
    ApplyCharge(before, s, cfg, batch[|batch| - 1], pass, now);
    LastOfLoop(ChargeStep(cfg, pass.charges, now), st.db, batch);
  }

  /** The tables after a pass are those that processDueOverageCollection leaves. */
  lemma PassIsTheWorkersPass(st: State, s: Id, plan: Plan, cfg: Config, pass: Pass, now: int)
    requires ChainInv(st, s, plan)
    ensures var settled :=
        AfterAll(SettleStep(pass.records, pass.throws, now), st.db, DueSources(st.db, now, pass.take)).db;
            AfterPass(st, s, plan, cfg, pass, now).db
            == AfterAll(ChargeStep(cfg, pass.charges, now), settled, Uncharged(settled, pass.take)).db
  {
    SettleStepsAreTheLoop(st, s, plan, DueSources(st.db, now, pass.take), pass, now);
    var settled := AfterSettlements(st, s, plan, pass, now);
    ChargeStepsAreTheLoop(settled, s, plan, Uncharged(settled.db, pass.take), cfg, pass, now);
  }

  // ---------------------------------------------------------------- what a pass does to the chain

  lemma {:induction false} ChargesKeepLast(
    st: State, s: Id, plan: Plan, batch: seq<Id>, cfg: Config, pass: Pass, now: int)
    requires ChainInv(st, s, plan)
    ensures KeepsLast(st, Run(st, s, plan, ChargeSteps(batch, cfg, pass, now)), s)
  {
    LastIsStored(st, s, plan);
    if batch != [] {
      var init, last := batch[..|batch| - 1], batch[|batch| - 1];
      var step := ChargeOverage(cfg, last, pass.charges(last), now);
      ChargesKeepLast(st, s, plan, init, cfg, pass, now);
      var before := Run(st, s, plan, ChargeSteps(init, cfg, pass, now));
      ChargeKeepsLast(before, s, plan, step);
      RunSnoc(st, s, plan, ChargeSteps(init, cfg, pass, now), step);
      KeepingLastComposes(st, before, Apply(before, s, step), s);
    }
  }

  lemma KeepingLastComposes(a: State, b: State, c: State, s: Id)
    requires KeepsLast(a, b, s) && KeepsLast(b, c, s)
    ensures KeepsLast(a, c, s)
  {
  }

  /** The settlements so far have got to the last period of the state before. */
  predicate GotToLast(st: State, batch: seq<Id>, pass: Pass)
    requires st.chain != []
  {
    Last(st) in batch && !pass.throws(Last(st))
  }

  ghost predicate Phase(st: State, after: State, s: Id, now: int, settled: bool) {
    if settled then Advances(ReadingOf(st, s, now), ReadingOf(after, s, now), now) && LastIsNew(st, after)
    else KeepsLast(st, after, s)
  }

  /** An invoice that was there before is not the one a settlement of this chain could now find. */
  lemma OldInvoiceIsNotOwn(st: State, before: State, s: Id, plan: Plan, step: Step)
    requires ChainInv(before, s, plan) && LastIsNew(st, before) && step.Settle? && step.invoiceId in st.db.invoices
    ensures !SettlementRuns.SettlesOwn(before, s, step)
  {
    if SettlementRuns.SettlesOwn(before, s, step) {
      OnlyLastIsUnsettled(before, s, plan, PlanPeriodAfter(), step.invoiceId);
    }
  }

  lemma OtherInvoiceIsNotOwn(before: State, s: Id, plan: Plan, step: Step)
    requires ChainInv(before, s, plan) && step.Settle? && before.chain != [] && step.invoiceId != Last(before)
    ensures !SettlementRuns.SettlesOwn(before, s, step)
  {
    if SettlementRuns.SettlesOwn(before, s, step) {
      OnlyLastIsUnsettled(before, s, plan, PlanPeriodAfter(), step.invoiceId);
    }
  }

  lemma NewStaysNew(st: State, before: State, after: State, s: Id, now: int)
    requires Phase(st, before, s, now, true) && KeepsLast(before, after, s)
    ensures Phase(st, after, s, now, true)
  {
    KeptReading(before, after, s, now);
  }

  lemma FirstAdvance(st: State, before: State, after: State, s: Id, now: int)
    requires KeepsLast(st, before, s) && Advances(ReadingOf(before, s, now), ReadingOf(after, s, now), now)
        && LastIsNew(before, after)
    ensures Phase(st, after, s, now, true)
  {
    KeptReading(st, before, s, now);
  }

  lemma SettlementInPhase(st: State, before: State, s: Id, plan: Plan, id: Id, pass: Pass, now: int, settled: bool)
    requires ChainInv(before, s, plan) && st.chain != [] && Phase(st, before, s, now, settled) && id in st.db.invoices
    requires id == Last(st) ==> Overdue(st, now) && !settled
    ensures Phase(st, Apply(before, s, Settle(id, pass.records, now)), s, now, settled || id == Last(st))
  {
    var step := Settle(id, pass.records, now);
    if settled {
      OldInvoiceIsNotOwn(st, before, s, plan, step);
      OtherSettlementKeepsLast(before, s, plan, step);
      NewStaysNew(st, before, Apply(before, s, step), s, now);
    } else if id == Last(st) {
      KeptReading(st, before, s, now);
      OwnSettlementAdvances(before, s, plan, pass.records, now);
      FirstAdvance(st, before, Apply(before, s, step), s, now);
    } else {
      OtherInvoiceIsNotOwn(before, s, plan, step);
      OtherSettlementKeepsLast(before, s, plan, step);
      KeepingLastComposes(st, before, Apply(before, s, step), s);
    }
  }

  predicate FromBefore(st: State, batch: seq<Id>, now: int)
    requires st.chain != []
  {
    Distinct(batch) && forall id :: id in batch ==> id in st.db.invoices && (id == Last(st) ==> Overdue(st, now))
  }

  lemma PrefixFromBefore(st: State, batch: seq<Id>, now: int)
    requires st.chain != [] && batch != [] && FromBefore(st, batch, now)
    ensures FromBefore(st, batch[..|batch| - 1], now)
    ensures batch[|batch| - 1] !in batch[..|batch| - 1]
  {
  }

  lemma LastGotTo(st: State, batch: seq<Id>, pass: Pass)
    requires st.chain != [] && batch != []
    ensures var init, last := batch[..|batch| - 1], batch[|batch| - 1];
            GotToLast(st, batch, pass) <==> GotToLast(st, init, pass) || (last == Last(st) && !pass.throws(last))
  {
    assert batch == batch[..|batch| - 1] + [batch[|batch| - 1]];
  }

  lemma {:induction false} SettlementsInPhase(st: State, s: Id, plan: Plan, batch: seq<Id>, pass: Pass, now: int)
    requires ChainInv(st, s, plan) && st.chain != [] && FromBefore(st, batch, now)
    ensures Phase(st, Run(st, s, plan, SettleSteps(batch, pass, now)), s, now, GotToLast(st, batch, pass))
  {
    if batch == [] {
      LastIsStored(st, s, plan);
    } else {
      var init, last := batch[..|batch| - 1], batch[|batch| - 1];
      PrefixFromBefore(st, batch, now);
      LastGotTo(st, batch, pass);
      SettlementsInPhase(st, s, plan, init, pass, now);
      if pass.throws(last) {
        assert SettleSteps(batch, pass, now) == SettleSteps(init, pass, now);
      } else {
        var before := Run(st, s, plan, SettleSteps(init, pass, now));
        SettlementInPhase(st, before, s, plan, last, pass, now, GotToLast(st, init, pass));
        RunSnoc(st, s, plan, SettleSteps(init, pass, now), Settle(last, pass.records, now));
      }
    }
  }

  /** The pass gets to the subscription: if its last period is over it is selected, and its settlement does not
      throw. */
  predicate GetsTo(st: State, pass: Pass, now: int) {
    Overdue(st, now) ==> Last(st) in DueSources(st.db, now, pass.take) && !pass.throws(Last(st))
  }

  /** It does whenever the batch is not full. */
  lemma RoomGetsTo(st: State, s: Id, plan: Plan, pass: Pass, now: int)
    requires ChainInv(st, s, plan) && st.chain != [] && |DueSources(st.db, now, pass.take)| < pass.take
        && !pass.throws(Last(st))
    ensures GetsTo(st, pass, now)
  {
    if Overdue(st, now) {
      OverdueIsSettleable(st, s, plan, now);
      DueSourcesAreDue(st.db, now, pass.take);
      assert IsDueSource(st.db, Last(st), now);
    }
  }

  lemma DueLastIsOverdue(st: State, s: Id, plan: Plan, now: int)
    requires ChainInv(st, s, plan) && st.chain != [] && IsDueSource(st.db, Last(st), now)
    ensures Overdue(st, now)
  {
    assert IsLink(st.db, s, Last(st));
    OnlyLastIsUnsettled(st, s, plan, PlanPeriodAfter(), Last(st));
  }

  /** A pass that gets to an overdue subscription ends its chain, if it does not renew, or moves its end one period
      on. */
  lemma PassAdvances(st: State, s: Id, plan: Plan, cfg: Config, pass: Pass, now: int)
    requires ChainInv(st, s, plan) && GetsTo(st, pass, now)
    ensures Advances(ReadingOf(st, s, now), ReadingOf(AfterPass(st, s, plan, cfg, pass, now), s, now), now)
  {
    var batch := DueSources(st.db, now, pass.take);
    LastIsStored(st, s, plan);
    DueSourcesAreDue(st.db, now, pass.take);
    if Last(st) in batch {
      DueLastIsOverdue(st, s, plan, now);
    }
    SettlementsInPhase(st, s, plan, batch, pass, now);
    var settled := AfterSettlements(st, s, plan, pass, now);
    if !GotToLast(st, batch, pass) {
      KeptReading(st, settled, s, now);
    }
    ChargesKeepLast(settled, s, plan, Uncharged(settled.db, pass.take), cfg, pass, now);
    KeptReading(settled, AfterPass(st, s, plan, cfg, pass, now), s, now);
  }

  // ---------------------------------------------------------------- passes

  ghost function AfterPasses(
    st: State, s: Id, plan: Plan, cfg: Config, passes: nat -> Pass, now: int, n: nat): (after: State)
    requires ChainInv(st, s, plan)
    ensures ChainInv(after, s, plan)
  {
    if n == 0 then st
    else AfterPass(AfterPasses(st, s, plan, cfg, passes, now, n - 1), s, plan, cfg, passes(n - 1), now)
  }

  ghost function ReadingAfter(st: State, s: Id, plan: Plan, cfg: Config, passes: nat -> Pass, now: int, n: nat): Reading
    requires ChainInv(st, s, plan)
  {
    ReadingOf(AfterPasses(st, s, plan, cfg, passes, now, n), s, now)
  }

  /** Every pass gets to the subscription. */
  ghost predicate AllGetTo(st: State, s: Id, plan: Plan, cfg: Config, passes: nat -> Pass, now: int)
    requires ChainInv(st, s, plan)
  {
    forall k: nat :: GetsTo(AfterPasses(st, s, plan, cfg, passes, now, k), passes(k), now)
  }

  lemma ReadingAdvances(st: State, s: Id, plan: Plan, cfg: Config, passes: nat -> Pass, now: int, k: nat)
    requires ChainInv(st, s, plan) && AllGetTo(st, s, plan, cfg, passes, now)
    ensures Advances(ReadingAfter(st, s, plan, cfg, passes, now, k),
                     ReadingAfter(st, s, plan, cfg, passes, now, k + 1), now)
  {
    PassAdvances(AfterPasses(st, s, plan, cfg, passes, now, k), s, plan, cfg, passes(k), now);
  }

  lemma FirstReading(st: State, s: Id, plan: Plan, cfg: Config, passes: nat -> Pass, now: int)
    requires ChainInv(st, s, plan)
    ensures ReadingAfter(st, s, plan, cfg, passes, now, 0) == Reading(Overdue(st, now), Renewing(st, s), EndOf(st))
  {
  }

  lemma {:induction false} PassesAdvance(read: nat -> Reading, now: int, n: nat)
    requires read(0).overdue && read(0).end <= now && forall k: nat :: Advances(read(k), read(k + 1), now)
    ensures read(n).overdue ==> read(0).end + n * SHORTEST <= read(n).end <= now
    ensures read(0).renewing && read(0).end + n * LONGEST <= now ==>
              read(n).overdue && read(n).renewing && read(n).end <= read(0).end + n * LONGEST
  {
    if n > 0 {
      PassesAdvance(read, now, n - 1);
      assert Advances(read(n - 1), read(n - 1 + 1), now);
    }
  }

  lemma ReadingsAdvance(st: State, s: Id, plan: Plan, cfg: Config, passes: nat -> Pass, now: int, n: nat)
    requires ChainInv(st, s, plan) && Overdue(st, now) && AllGetTo(st, s, plan, cfg, passes, now)
    ensures var read := ReadingAfter(st, s, plan, cfg, passes, now, n);
            && (read.overdue ==> EndOf(st) + n * SHORTEST <= now)
            && (Renewing(st, s) && EndOf(st) + n * LONGEST <= now ==> read.overdue)
  {
    var read := (k: nat) => ReadingAfter(st, s, plan, cfg, passes, now, k);
    forall k: nat
      ensures Advances(read(k), read(k + 1), now)
    {
      ReadingAdvances(st, s, plan, cfg, passes, now, k);
    }
    FirstReading(st, s, plan, cfg, passes, now);
    PassesAdvance(read, now, n);
  }

  /** A subscription is up to date once there have been enough passes for as many 28-day spans to exceed the time
      it was overdue; and, if it keeps renewing, it is not as long as that many 31-day spans fit into that time. */
  lemma CatchUpTerminates(st: State, s: Id, plan: Plan, cfg: Config, passes: nat -> Pass, now: int, n: nat)
    requires ChainInv(st, s, plan) && Overdue(st, now) && AllGetTo(st, s, plan, cfg, passes, now)
    ensures n * (28 * 86400000) > now - EndOf(st) ==> !Overdue(AfterPasses(st, s, plan, cfg, passes, now, n), now)
    ensures Renewing(st, s) && n * (31 * 86400000) <= now - EndOf(st) ==>
              Overdue(AfterPasses(st, s, plan, cfg, passes, now, n), now)
  {
    assert SHORTEST == 28 * 86400000 && LONGEST == 31 * 86400000;
    ReadingsAdvance(st, s, plan, cfg, passes, now, n);
  }
}
