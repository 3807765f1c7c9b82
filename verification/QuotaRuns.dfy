/** When interleaved transactions keep a plan's quota: exactly when no row the subscription can have gives a
    window that overlaps the one in question without covering it. */
module QuotaRuns {
  import opened Common
  import opened BillingTypes
  import opened UsageIndex
  import opened Metering
  import opened MeteringRuns

  predicate Disjoint(v: Window, w: Window) { v.lt <= w.gte || w.lt <= v.gte }

  predicate Covers(v: Window, w: Window) { v.gte <= w.gte && w.lt <= v.lt }

  /** A request counted in v is either outside w or checked against all of w. */
  predicate Harmless(v: Window, w: Window) { Disjoint(v, w) || Covers(v, w) }

  predicate AllHarmless(rows: set<Subscription>, w: Window) {
    forall v :: v in WindowsOf(rows) ==> Harmless(v, w)
  }

  lemma CheckedWindowWithinQuota(rs: seq<UsageRecord>, id: Id, plan: Plan, r: UsageRecord, v: Window, w: Window)
    requires PositiveCounts(rs) && Covers(v, w) && !plan.allowOverage
    requires !QuotaBlocks(plan, ScanSum(rs, id, v.gte, v.lt), r.requestCount)
    ensures ScanSum(rs, id, w.gte, w.lt) + r.requestCount <= plan.quotaRequests
  {
    NarrowerWindowHoldsLess(rs, Where(id, None, w.gte, w.lt, AnyRow), Where(id, None, v.gte, v.lt, AnyRow));
  }

  lemma {:induction false} AdmittedWindowWithinQuota(
    rs: seq<UsageRecord>, windows: seq<Window>, id: Id, plan: Plan, w: Window)
    requires Admitted(rs, windows, id, plan) && PositiveCounts(rs)
    requires !plan.allowOverage && plan.quotaRequests >= 0
    requires forall i :: 0 <= i < |windows| ==> Harmless(windows[i], w)
    ensures ScanSum(rs, id, w.gte, w.lt) <= plan.quotaRequests
    decreases |rs|
  {
    if rs != [] {
      var n := |rs| - 1;
      assert AdmittedAt(rs, windows, id, plan, n);
      AdmittedPrefix(rs, windows, id, plan);
      if Contains(w, rs[n].occurredAt) {
        CheckedWindowWithinQuota(rs[..n], id, plan, rs[n], windows[n], w);
      } else {
        AdmittedWindowWithinQuota(rs[..n], windows[..n], id, plan, w);
      }
    }
  }

  /** If every row gives a harmless window, no reachable state holds more than the quota in w. */
  lemma QuotaIsNeverOverrun(
    id: Id, plan: Plan, rows: set<Subscription>, row: Subscription, actions: seq<Action>, w: Window)
    requires !plan.allowOverage && plan.quotaRequests >= 0
    requires RowsStayIn(rows, row, actions) && AllHarmless(rows, w)
    ensures ScanSum(Reached(id, plan, row, actions).db.records, id, w.gte, w.lt) <= plan.quotaRequests
  {
    EveryRunIsSerial(id, plan, row, actions);
    EveryRunReadsItsRows(id, plan, rows, row, actions);
    var s := Reached(id, plan, row, actions);
    AdmittedWindowWithinQuota(s.db.records, s.windows, id, plan, w);
  }

  // ---------------------------------------------------------------- every other row overruns it

  /** A time in w that v does not see, and one that both see. */
  function OnlyIn(w: Window, v: Window): int { if w.gte < v.gte then w.gte else w.lt - 1 }

  function InBoth(w: Window, v: Window): int { Max(w.gte, v.gte) }

  /** The rate limit, if there is one, lets the whole quota and one more request through at once. */
  predicate RateLeavesRoom(plan: Plan) { plan.rateLimitRpm.None? || plan.rateLimitRpm.value > plan.quotaRequests }

  function Overrunning(plan: Plan, w: Window, row: Subscription): seq<Action> {
    var v := OrElse(WindowOf(row), w);
    TwoInTurn(Request("/", plan.quotaRequests, OnlyIn(w, v)), row, Request("/", 1, InBoth(w, v)))
  }

  /** The quota is used up where w counts it and v does not; one more request in both is then checked against v. */
  lemma HarmfulRowOverrunsQuota(id: Id, plan: Plan, row: Subscription, other: Subscription, w: Window, v: Window)
    requires !plan.allowOverage && plan.quotaRequests >= 1 && RateLeavesRoom(plan)
    requires WindowOf(row) == Some(w) && WindowOf(other) == Some(v) && !Harmless(v, w)
    ensures ScanSum(Reached(id, plan, row, Overrunning(plan, w, other)).db.records, id, w.gte, w.lt)
         == plan.quotaRequests + 1
  {
    var first := Request("/", plan.quotaRequests, OnlyIn(w, v));
    var second := Request("/", 1, InBoth(w, v));
    var s := Initial(id, plan, row);
    var r1, r2 := NewRecord(UsageOf(id, first), Some(0), true), NewRecord(UsageOf(id, second), Some(0), true);
    ServesItsWindow(row, first.occurredAt);
    ServesItsWindow(other, second.occurredAt);
    assert s.db.records == [];
    var one := Served(s, 1, first).(row := other);
    assert one.db.records == [] + [r1];
    SumOfAppend([], r1, Where(id, None, v.gte, v.lt, AnyRow));
    SumOfAppend([], r1, RateWhere(id, second.occurredAt, v.gte));
    TwoInTurnAreServed(id, plan, row, other, first, second);
    SumOfAppend([], r1, Where(id, None, w.gte, w.lt, AnyRow));
    SumOfAppend([] + [r1], r2, Where(id, None, w.gte, w.lt, AnyRow));
  }

  function RateWhere(id: Id, occurredAt: int, periodStart: int): Where {
    Where(id, None, RateWindowStart(occurredAt, periodStart), occurredAt + 1, AnyRow)
  }

  /** A usage window keeps its quota over every run if and only if every window the subscription's rows can
      give is disjoint from it or covers it. */
  lemma QuotaIsKeptExactlyByHarmlessRows(id: Id, plan: Plan, rows: set<Subscription>, w: Window)
    requires !plan.allowOverage && plan.quotaRequests >= 1 && RateLeavesRoom(plan) && w in WindowsOf(rows)
    ensures (forall row, actions :: RowsStayIn(rows, row, actions) ==>
               ScanSum(Reached(id, plan, row, actions).db.records, id, w.gte, w.lt) <= plan.quotaRequests)
       <==> AllHarmless(rows, w)
  {
    if AllHarmless(rows, w) {
      forall row, actions | RowsStayIn(rows, row, actions)
        ensures ScanSum(Reached(id, plan, row, actions).db.records, id, w.gte, w.lt) <= plan.quotaRequests
      {
        QuotaIsNeverOverrun(id, plan, rows, row, actions, w);
      }
    } else {
      var v :| v in WindowsOf(rows) && !Harmless(v, w);
      var row :| row in rows && WindowOf(row) == Some(w);
      var other :| other in rows && WindowOf(other) == Some(v);
      HarmfulRowOverrunsQuota(id, plan, row, other, w, v);
      assert RowsStayIn(rows, row, Overrunning(plan, w, other));
    }
  }
  // ---------------------------------------------------------------- a row read before the lock

  const ONE_REQUEST: Plan := Plan(0, 1, None, false, None, None)

  const ACTIVE_ROW: Subscription := Subscription(ONE_REQUEST, STRIPE, None, ACTIVE, Some(0), Some(10), None, false, 0)

  const GRACE_ROW: Subscription := ACTIVE_ROW.(status := SUB_PAST_DUE, gracePeriodEndsAt := Some(20))

  const STALE_READ: seq<Action> :=
    [Begin(1, Request("/a", 1, 5)), RewriteRow(GRACE_ROW), Begin(2, Request("/a", 1, 15))]

  lemma StaleReadState()
    ensures MeteringRuns.Run(Initial(7, ONE_REQUEST, ACTIVE_ROW), STALE_READ)
         == MeteringRuns.State(7, ONE_REQUEST, GRACE_ROW, EMPTY_DB, [],
                  map[1 := Tx(Request("/a", 1, 5), Window(0, 10), Looked),
                      2 := Tx(Request("/a", 1, 15), Window(0, 20), Looked)],
                  None)
  {
    var s := Initial(7, ONE_REQUEST, ACTIVE_ROW);
    assert STALE_READ[..2] == [STALE_READ[0]] + [STALE_READ[1]];
    assert STALE_READ == STALE_READ[..2] + [STALE_READ[2]];
    RunSnoc(s, [], STALE_READ[0]);
    assert [] + [STALE_READ[0]] == [STALE_READ[0]];
    RunSnoc(s, [STALE_READ[0]], STALE_READ[1]);
    RunSnoc(s, STALE_READ[..2], STALE_READ[2]);
  }

  /** The window is read before the lock and not again after it: one transaction that read the row while
      it was ACTIVE and one that read its grace window can together overrun the quota of the grace window. */
  lemma StaleWindowOverrunsQuota()
    ensures exists actions ::
              ScanSum(MeteringRuns.Run(Initial(7, ONE_REQUEST, ACTIVE_ROW), actions).db.records, 7, 0,
                  20) > ONE_REQUEST.quotaRequests
  {
    var s := Initial(7, ONE_REQUEST, ACTIVE_ROW);
    StaleReadState();
    var read := MeteringRuns.Run(s, STALE_READ);
    assert ScanSum([], 7, 0, 20) == 0 && ScanSum([], 7, 0, 10) == 0;
    UnrefusedCommits(read, 2, 100);
    var one := MeteringRuns.Run(read, Alone(2, 100));
    var late := NewRecord(UsageOf(7, Request("/a", 1, 15)), Some(100), true);
    assert one.db.records == [late];
    assert [] + [late] == [late];
    SumOfAppend([], late, Where(7, None, 0, 10, AnyRow));
    UnrefusedCommits(one, 1, 100);
    var two := MeteringRuns.Run(one, Alone(1, 100));
    var early := NewRecord(UsageOf(7, Request("/a", 1, 5)), Some(100), true);
    assert two.db.records == [late] + [early];
    SumOfAppend([], late, Where(7, None, 0, 20, AnyRow));
    SumOfAppend([late], early, Where(7, None, 0, 20, AnyRow));
    RunConcat(s, STALE_READ, Alone(2, 100));
    RunConcat(s, STALE_READ + Alone(2, 100), Alone(1, 100));
    assert MeteringRuns.Run(s, STALE_READ + Alone(2, 100) + Alone(1, 100)) == two;
  }
}
