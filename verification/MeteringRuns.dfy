/** Any number of authorize-and-consume transactions on one subscription, interleaved statement by
    statement at READ COMMITTED: look the subscription up, lock its row, sum and check the quota, sum
    and check the rate and insert, commit. The row may be rewritten whenever nobody holds its lock. */
module MeteringRuns {
  import opened Common
  import opened BillingTypes
  import opened UsageIndex
  import opened Metering

  type TxId = nat

  datatype Phase = Looked | Locked | QuotaChecked | Inserted

  /** A transaction keeps the window it read before it had the lock. */
  datatype Tx = Tx(request: Request, window: Window, phase: Phase)

  /** windows[i] is the window record i was checked against. */
  datatype State = State(
    id: Id,
    plan: Plan,
    row: Subscription,
    db: UsageDb,
    windows: seq<Window>,
    txs: map<TxId, Tx>,
    lock: Option<TxId>)

  datatype Action =
    | Begin(tx: TxId, request: Request)
    | Lock(tx: TxId)
    | CheckQuota(tx: TxId)
    | CheckRateAndInsert(tx: TxId)
    | Commit(tx: TxId, now: int)
    | Abort(tx: TxId)
    | RewriteRow(row: Subscription)

  predicate At(s: State, tx: TxId, phase: Phase) { tx in s.txs && s.txs[tx].phase == phase }

  predicate Enabled(s: State, a: Action) {
    match a
    case Begin(tx, request) => tx !in s.txs && request.requestCount >= 1 && Serves(s.row, request.occurredAt)
    case Lock(tx) => At(s, tx, Looked) && s.lock.None?
    case CheckQuota(tx) => At(s, tx, Locked)
    case CheckRateAndInsert(tx) => At(s, tx, QuotaChecked)
    case Commit(tx, _) => At(s, tx, Inserted)
    case Abort(tx) => tx in s.txs
    case RewriteRow(_) => s.lock.None?
  }

  function Ended(s: State, tx: TxId): State {
    s.(txs := s.txs - {tx}, lock := if s.lock == Some(tx) then None else s.lock)
  }

  function InPhase(s: State, tx: TxId, phase: Phase): State
    requires tx in s.txs
  {
    s.(txs := s.txs[tx := s.txs[tx].(phase := phase)])
  }

  predicate QuotaRefuses(s: State, t: Tx) {
    QuotaBlocks(s.plan, ScanSum(s.db.records, s.id, t.window.gte, t.window.lt), t.request.requestCount)
  }

  predicate RateRefuses(s: State, t: Tx) {
    RateBlocks(s.plan, RateUsage(s.db.records, s.id, t.request.occurredAt, t.window.gte), t.request.requestCount)
  }

  /** An action that is not enabled leaves the state as it is. */
  function Apply(s: State, a: Action): State {
    if !Enabled(s, a) then s
    else match a
      case Begin(tx, request) =>
        ServingMeansWindow(s.row, request.occurredAt);
        s.(txs := s.txs[tx := Tx(request, GetUsageWindow(s.row, request.occurredAt).value, Looked)])
      case Lock(tx) => InPhase(s, tx, Locked).(lock := Some(tx))
      case CheckQuota(tx) => if QuotaRefuses(s, s.txs[tx]) then Ended(s, tx) else InPhase(s, tx, QuotaChecked)
      case CheckRateAndInsert(tx) => if RateRefuses(s, s.txs[tx]) then Ended(s, tx) else InPhase(s, tx, Inserted)
      case Commit(tx, now) =>
        Ended(s.(db := Recorded(s.db, UsageOf(s.id, s.txs[tx].request), now), windows := s.windows
            + [s.txs[tx].window]), tx)
      case Abort(tx) => Ended(s, tx)
      case RewriteRow(row) => s.(row := row)
  }

  function Run(s: State, actions: seq<Action>): State {
    if actions == [] then s else Apply(Run(s, actions[..|actions| - 1]), actions[|actions| - 1])
  }

  function Initial(id: Id, plan: Plan, row: Subscription): State {
    State(id, plan, row, EMPTY_DB, [], map[], None)
  }

  function Reached(id: Id, plan: Plan, row: Subscription, actions: seq<Action>): State {
    Run(Initial(id, plan, row), actions)
  }

  // ---------------------------------------------------------------- serializability

  /** Record i lies in its window and passed both checks against exactly the records before it. */
  ghost predicate AdmittedAt(rs: seq<UsageRecord>, windows: seq<Window>, id: Id, plan: Plan, i: nat)
    requires i < |rs| == |windows|
  {
    && rs[i].subscriptionId == id
    && Contains(windows[i], rs[i].occurredAt)
    && !QuotaBlocks(plan, ScanSum(rs[..i], id, windows[i].gte, windows[i].lt), rs[i].requestCount)
    && !RateBlocks(plan, RateUsage(rs[..i], id, rs[i].occurredAt, windows[i].gte), rs[i].requestCount)
  }

  /** The log is one that checks run one at a time, in commit order, would have let in. */
  ghost predicate Admitted(rs: seq<UsageRecord>, windows: seq<Window>, id: Id, plan: Plan) {
    && |rs| == |windows|
    && forall i :: 0 <= i < |rs| ==> AdmittedAt(rs, windows, id, plan, i)
  }

  predicate HoldsLock(t: Tx) { !t.phase.Looked? }

  ghost predicate TxInv(s: State, tx: TxId)
    requires tx in s.txs
  {
    var t := s.txs[tx];
    && t.request.requestCount >= 1
    && Contains(t.window, t.request.occurredAt)
    && (HoldsLock(t) ==> s.lock == Some(tx))
    && (t.phase.QuotaChecked? || t.phase.Inserted? ==> !QuotaRefuses(s, t))
    && (t.phase.Inserted? ==> !RateRefuses(s, t))
  }

  ghost predicate Inv(s: State) {
    && Valid(s.db)
    && Admitted(s.db.records, s.windows, s.id, s.plan)
    && forall tx :: tx in s.txs ==> TxInv(s, tx)
  }

  lemma AdmittedExtends(rs: seq<UsageRecord>, windows: seq<Window>, id: Id, plan: Plan, r: UsageRecord, w: Window)
    requires Admitted(rs, windows, id, plan)
    requires r.subscriptionId == id && Contains(w, r.occurredAt)
    requires !QuotaBlocks(plan, ScanSum(rs, id, w.gte, w.lt), r.requestCount)
    requires !RateBlocks(plan, RateUsage(rs, id, r.occurredAt, w.gte), r.requestCount)
    ensures Admitted(rs + [r], windows + [w], id, plan)
  {
    forall i | 0 <= i < |rs| + 1
      ensures AdmittedAt(rs + [r], windows + [w], id, plan, i)
    {
      if i < |rs| {
        assert AdmittedAt(rs, windows, id, plan, i);
        assert (rs + [r])[..i] == rs[..i];
      } else {
        assert (rs + [r])[..i] == rs;
      }
    }
  }

  lemma AdmittedPrefix(rs: seq<UsageRecord>, windows: seq<Window>, id: Id, plan: Plan)
    requires Admitted(rs, windows, id, plan) && rs != []
    ensures Admitted(rs[..|rs| - 1], windows[..|rs| - 1], id, plan)
  {
    var n := |rs| - 1;
    forall i | 0 <= i < n
      ensures AdmittedAt(rs[..n], windows[..n], id, plan, i)
    {
      assert AdmittedAt(rs, windows, id, plan, i);
      assert rs[..n][..i] == rs[..i];
    }
  }

  lemma {:induction false} NarrowerWindowHoldsLess(rs: seq<UsageRecord>, w: Where, v: Where)
    requires PositiveCounts(rs)
    requires forall r :: r in rs && Matches(r, w) ==> Matches(r, v)
    ensures SumRaw(rs, w) <= SumRaw(rs, v)
  {
    if rs != [] {
      NarrowerWindowHoldsLess(rs[..|rs| - 1], w, v);
    }
  }

  lemma CommitKeepsInv(s: State, tx: TxId, now: int)
    requires Inv(s) && At(s, tx, Inserted)
    ensures Inv(Apply(s, Commit(tx, now)))
  {
    var t := s.txs[tx];
    var after := Apply(s, Commit(tx, now));
    assert TxInv(s, tx);
    RecordedIsValid(s.db, UsageOf(s.id, t.request), now);
    AdmittedExtends(s.db.records, s.windows, s.id, s.plan, NewRecord(UsageOf(s.id, t.request), Some(now), true),
        t.window);
    forall other | other in after.txs
      ensures TxInv(after, other)
    {
      assert TxInv(s, other);
      assert s.lock == Some(tx);
      assert !HoldsLock(s.txs[other]);
    }
  }

  lemma OtherActionKeepsInv(s: State, a: Action)
    requires Inv(s) && Enabled(s, a) && !a.Commit?
    ensures Inv(Apply(s, a))
  {
    var after := Apply(s, a);
    forall other | other in after.txs
      ensures TxInv(after, other)
    {
      if other in s.txs {
        assert TxInv(s, other);
      }
      if a.Begin? {
        ServingMeansWindow(s.row, a.request.occurredAt);
      }
    }
  }

  /** Whatever the interleaving, the committed records are those of some one-at-a-time execution. */
  lemma {:induction false} EveryRunIsSerial(id: Id, plan: Plan, row: Subscription, actions: seq<Action>)
    ensures Inv(Run(Initial(id, plan, row), actions))
    ensures Run(Initial(id, plan, row), actions).id == id && Run(Initial(id, plan, row), actions).plan == plan
  {
    if actions == [] {
    } else {
      EveryRunIsSerial(id, plan, row, actions[..|actions| - 1]);
      var s := Run(Initial(id, plan, row), actions[..|actions| - 1]);
      var a := actions[|actions| - 1];
      if Enabled(s, a) {
        if a.Commit? {
          CommitKeepsInv(s, a.tx, a.now);
        } else {
          OtherActionKeepsInv(s, a);
        }
      }
    }
  }

  // ---------------------------------------------------------------- where records come from

  /** Every accepted record lies inside the window it was checked against. */
  lemma RecordsLieInTheirWindows(id: Id, plan: Plan, row: Subscription, actions: seq<Action>)
    ensures var s := Run(Initial(id, plan, row), actions);
            && |s.windows| == |s.db.records|
            && forall i :: 0 <= i < |s.windows| ==> Contains(s.windows[i], s.db.records[i].occurredAt)
  {
    EveryRunIsSerial(id, plan, row, actions);
    var s := Run(Initial(id, plan, row), actions);
    forall i | 0 <= i < |s.windows|
      ensures Contains(s.windows[i], s.db.records[i].occurredAt)
    {
      assert AdmittedAt(s.db.records, s.windows, id, plan, i);
    }
  }

  /** What a committed transaction was for, and the window it was checked against. */
  datatype Read = Read(window: Window, occurredAt: int)

  /** The committed reads, in commit order. */
  function Reads(s: State): seq<Read>
    requires |s.windows| == |s.db.records|
  {
    seq(|s.windows|, i requires 0 <= i < |s.windows| => Read(s.windows[i], s.db.records[i].occurredAt))
  }

  function WindowsOf(rows: set<Subscription>): set<Window> {
    set r | r in rows && WindowOf(r).Some? :: WindowOf(r).value
  }

  /** The subscription's row only ever takes values from rows. */
  predicate RowsStayIn(rows: set<Subscription>, row: Subscription, actions: seq<Action>) {
    row in rows && forall i :: 0 <= i < |actions| && actions[i].RewriteRow? ==> actions[i].row in rows
  }

  ghost predicate WindowsComeFrom(s: State, rows: set<Subscription>) {
    && s.row in rows
    && (forall i :: 0 <= i < |s.windows| ==> s.windows[i] in WindowsOf(rows))
    && (forall tx :: tx in s.txs ==> s.txs[tx].window in WindowsOf(rows))
  }

  lemma ActionKeepsSource(s: State, a: Action, rows: set<Subscription>)
    requires WindowsComeFrom(s, rows) && (a.RewriteRow? ==> a.row in rows)
    ensures WindowsComeFrom(Apply(s, a), rows)
  {
    if a.Begin? && Enabled(s, a) {
      ServesItsWindow(s.row, a.request.occurredAt);
    }
  }

  /** Every window a transaction works with is the window of some row the subscription has had. */
  lemma {:induction false} EveryRunReadsItsRows(
    id: Id, plan: Plan, rows: set<Subscription>, row: Subscription, actions: seq<Action>)
    requires RowsStayIn(rows, row, actions)
    ensures WindowsComeFrom(Run(Initial(id, plan, row), actions), rows)
  {
    if actions != [] {
      EveryRunReadsItsRows(id, plan, rows, row, actions[..|actions| - 1]);
      ActionKeepsSource(Run(Initial(id, plan, row), actions[..|actions| - 1]), actions[|actions| - 1], rows);
    }
  }

  // ---------------------------------------------------------------- transactions that run alone

  lemma RunSnoc(s: State, actions: seq<Action>, a: Action)
    ensures Run(s, actions + [a]) == Apply(Run(s, actions), a)
  {
    assert (actions + [a])[..|actions|] == actions;
  }

  function Alone(tx: TxId, now: int): seq<Action> {
    [Lock(tx), CheckQuota(tx), CheckRateAndInsert(tx), Commit(tx, now)]
  }

  /** A transaction neither check refuses, with the lock free, runs to its commit. */
  lemma UnrefusedCommits(s: State, tx: TxId, now: int)
    requires At(s, tx, Looked) && s.lock.None?
    requires !QuotaRefuses(s, s.txs[tx]) && !RateRefuses(s, s.txs[tx])
    ensures Run(s, Alone(tx, now))
         == s.(db := Recorded(s.db, UsageOf(s.id, s.txs[tx].request), now),
               windows := s.windows + [s.txs[tx].window], txs := s.txs - {tx})
  {
    var t := s.txs[tx];
    var locked := s.(txs := s.txs[tx := t.(phase := Locked)], lock := Some(tx));
    var checked := s.(txs := s.txs[tx := t.(phase := QuotaChecked)], lock := Some(tx));
    var inserted := s.(txs := s.txs[tx := t.(phase := Inserted)], lock := Some(tx));
    assert Run(s, []) == s;
    RunSnoc(s, [], Lock(tx));
    assert [] + [Lock(tx)] == [Lock(tx)];
    assert Run(s, [Lock(tx)]) == locked;
    RunSnoc(s, [Lock(tx)], CheckQuota(tx));
    assert Apply(locked, CheckQuota(tx)) == checked;
    RunSnoc(s, [Lock(tx), CheckQuota(tx)], CheckRateAndInsert(tx));
    assert Apply(checked, CheckRateAndInsert(tx)) == inserted;
    RunSnoc(s, [Lock(tx), CheckQuota(tx), CheckRateAndInsert(tx)], Commit(tx, now));
    assert [Lock(tx)] + [CheckQuota(tx)] == [Lock(tx), CheckQuota(tx)];
    assert [Lock(tx), CheckQuota(tx)] + [CheckRateAndInsert(tx)] == [Lock(tx), CheckQuota(tx), CheckRateAndInsert(tx)];
    assert [Lock(tx), CheckQuota(tx), CheckRateAndInsert(tx)] + [Commit(tx, now)] == Alone(tx, now);
    assert Run(s, Alone(tx, now)) == Apply(inserted, Commit(tx, now));
    assert inserted.txs - {tx} == s.txs - {tx};
  }

  lemma {:induction false} RunConcat(s: State, first: seq<Action>, more: seq<Action>)
    ensures Run(s, first + more) == Run(Run(s, first), more)
    decreases |more|
  {
    if more == [] {
      assert first + more == first;
    } else {
      var init, a := more[..|more| - 1], more[|more| - 1];
      RunConcat(s, first, init);
      assert first + more == (first + init) + [a];
      RunSnoc(s, first + init, a);
    }
  }

  /** One request served whole, the row rewritten, another request served whole. */
  function TwoInTurn(first: Request, row: Subscription, second: Request): seq<Action> {
    [Begin(1, first)] + Alone(1, 0) + [RewriteRow(row), Begin(2, second)] + Alone(2, 0)
  }

  function Served(s: State, tx: TxId, request: Request): State {
    s.(db := Recorded(s.db, UsageOf(s.id, request), 0), windows := s.windows + [OrElse(WindowOf(s.row), Window(0, 0))])
  }

  predicate Passes(s: State, request: Request) {
    && request.requestCount >= 1 && Serves(s.row, request.occurredAt)
    && !QuotaRefuses(s, Tx(request, OrElse(WindowOf(s.row), Window(0, 0)), Looked))
    && !RateRefuses(s, Tx(request, OrElse(WindowOf(s.row), Window(0, 0)), Looked))
  }

  lemma PassingIsServed(s: State, tx: TxId, request: Request)
    requires s.lock.None? && s.txs == map[] && Passes(s, request)
    ensures Run(s, [Begin(tx, request)] + Alone(tx, 0)) == Served(s, tx, request)
  {
    ServesItsWindow(s.row, request.occurredAt);
    var begun := s.(txs := map[tx := Tx(request, WindowOf(s.row).value, Looked)]);
    assert Apply(s, Begin(tx, request)) == begun;
    RunSnoc(s, [], Begin(tx, request));
    assert [] + [Begin(tx, request)] == [Begin(tx, request)];
    UnrefusedCommits(begun, tx, 0);
    assert begun.txs - {tx} == map[];
    RunConcat(s, [Begin(tx, request)], Alone(tx, 0));
  }

  /** Requests that pass when they are served one after the other are both recorded. */
  lemma TwoInTurnAreServed(id: Id, plan: Plan, row: Subscription, other: Subscription, first: Request, second: Request)
    requires Passes(Initial(id, plan, row), first)
    requires Passes(Served(Initial(id, plan, row), 1, first).(row := other), second)
    ensures Run(Initial(id, plan, row), TwoInTurn(first, other, second))
         == Served(Served(Initial(id, plan, row), 1, first).(row := other), 2, second)
  {
    var s := Initial(id, plan, row);
    var one := Served(s, 1, first);
    var begin := [Begin(1, first)] + Alone(1, 0);
    PassingIsServed(s, 1, first);
    assert Apply(one, RewriteRow(other)) == one.(row := other);
    RunSnoc(s, begin, RewriteRow(other));
    PassingIsServed(one.(row := other), 2, second);
    RunConcat(s, begin + [RewriteRow(other)], [Begin(2, second)] + Alone(2, 0));
    assert begin + [RewriteRow(other)] + ([Begin(2, second)] + Alone(2, 0)) == TwoInTurn(first, other, second);
  }
}
