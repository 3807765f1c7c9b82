/** When interleaved transactions keep the requests-per-minute limit in every closed 60 seconds: exactly when
    no request is hidden from the check of one that commits after it within a minute. */
module RateRuns {
  import opened Common
  import opened BillingTypes
  import opened UsageIndex
  import opened Metering
  import opened MeteringRuns

  /** The check of the later read does not see the earlier one, although they are within a minute: it is
      dated after it, or before the start of its period. */
  predicate Hidden(earlier: Read, later: Read) {
    && -60000 <= earlier.occurredAt - later.occurredAt <= 60000
    && (later.occurredAt < earlier.occurredAt || earlier.occurredAt < later.window.gte)
  }

  predicate NothingHidden(rs: seq<Read>) {
    forall i, j :: 0 <= i < j < |rs| ==> !Hidden(rs[i], rs[j])
  }

  function ReadAt(rs: seq<UsageRecord>, windows: seq<Window>, i: nat): Read
    requires i < |rs| == |windows|
  {
    Read(windows[i], rs[i].occurredAt)
  }

  /** Every earlier record within a minute is in the rate window of the last. */
  lemma LastSeesItsMinute(rs: seq<UsageRecord>, windows: seq<Window>, id: Id, plan: Plan, x: int)
    requires rs != [] && Admitted(rs, windows, id, plan) && PositiveCounts(rs)
    requires forall i, j :: 0 <= i < j < |rs| ==> !Hidden(ReadAt(rs, windows, i), ReadAt(rs, windows, j))
    requires x <= rs[|rs| - 1].occurredAt <= x + 60000
    ensures var n, t := |rs| - 1, rs[|rs| - 1].occurredAt;
            ScanSum(rs[..n], id, x, x + 60001) <= RateUsage(rs[..n], id, t, windows[n].gte)
  {
    var n, t := |rs| - 1, rs[|rs| - 1].occurredAt;
    var minute := Where(id, None, x, x + 60001, AnyRow);
    var seen := Where(id, None, RateWindowStart(t, windows[n].gte), t + 1, AnyRow);
    forall r | r in rs[..n] && Matches(r, minute)
      ensures Matches(r, seen)
    {
      var i :| 0 <= i < n && rs[i] == r;
      assert !Hidden(ReadAt(rs, windows, i), ReadAt(rs, windows, n));
    }
    NarrowerWindowHoldsLess(rs[..n], minute, seen);
  }

  lemma {:induction false} AdmittedMinuteWithinRate(
    rs: seq<UsageRecord>, windows: seq<Window>, id: Id, plan: Plan, x: int)
    requires Admitted(rs, windows, id, plan) && PositiveCounts(rs)
    requires forall i, j :: 0 <= i < j < |rs| ==> !Hidden(ReadAt(rs, windows, i), ReadAt(rs, windows, j))
    requires plan.rateLimitRpm.Some? && plan.rateLimitRpm.value >= 0
    ensures ScanSum(rs, id, x, x + 60001) <= plan.rateLimitRpm.value
    decreases |rs|
  {
    if rs != [] {
      var n := |rs| - 1;
      assert AdmittedAt(rs, windows, id, plan, n);
      if x <= rs[n].occurredAt <= x + 60000 {
        LastSeesItsMinute(rs, windows, id, plan, x);
      } else {
        AdmittedPrefix(rs, windows, id, plan);
        forall i, j | 0 <= i < j < n
          ensures !Hidden(ReadAt(rs[..n], windows[..n], i), ReadAt(rs[..n], windows[..n], j))
        {
          assert !Hidden(ReadAt(rs, windows, i), ReadAt(rs, windows, j));
        }
        AdmittedMinuteWithinRate(rs[..n], windows[..n], id, plan, x);
      }
    }
  }

  function MinuteUsage(s: State, x: int): int { ScanSum(s.db.records, s.id, x, x + 60001) }

  /** If no committed request was hidden from a later one, no closed 60 seconds anywhere, not only those ending
      at a request, hold more than the plan's requests per minute. */
  lemma RateIsNeverOverrun(id: Id, plan: Plan, row: Subscription, actions: seq<Action>, x: int)
    requires plan.rateLimitRpm.Some? && plan.rateLimitRpm.value >= 0
    ensures var s := Reached(id, plan, row, actions);
            && |s.windows| == |s.db.records|
            && (NothingHidden(Reads(s)) ==> ScanSum(s.db.records, id, x, x + 60001) <= plan.rateLimitRpm.value)
  {
    EveryRunIsSerial(id, plan, row, actions);
    var s := Reached(id, plan, row, actions);
    if NothingHidden(Reads(s)) {
      forall i, j | 0 <= i < j < |s.windows|
        ensures !Hidden(ReadAt(s.db.records, s.windows, i), ReadAt(s.db.records, s.windows, j))
      {
        assert !Hidden(Reads(s)[i], Reads(s)[j]);
      }
      AdmittedMinuteWithinRate(s.db.records, s.windows, id, plan, x);
    }
  }

  /** Requests that commit in the order they occurred, within one usage period, hide nothing. */
  lemma InOrderHidesNothing(rs: seq<Read>, start: int)
    requires forall i, j :: 0 <= i < j < |rs| ==> rs[i].occurredAt <= rs[j].occurredAt
    requires forall i :: 0 <= i < |rs| ==> rs[i].window.gte == start <= rs[i].occurredAt
    ensures NothingHidden(rs)
  {
  }

  // ---------------------------------------------------------------- every hidden request overruns it

  /** A subscription in this period */
  function RowFor(w: Window, plan: Plan): Subscription {
    Subscription(plan, STRIPE, None, ACTIVE, Some(w.gte), Some(w.lt), None, false, 0)
  }

  function Overrunning(plan: Plan, a: Read, b: Read, limit: int): seq<Action> {
    TwoInTurn(Request("/", limit, a.occurredAt), RowFor(b.window, plan), Request("/", limit, b.occurredAt))
  }

  predicate QuotaLeavesRoom(plan: Plan, n: int) { plan.allowOverage || plan.quotaRequests >= n }

  function RateWhere(id: Id, b: Read): Where {
    Where(id, None, RateWindowStart(b.occurredAt, b.window.gte), b.occurredAt + 1, AnyRow)
  }

  lemma FirstPasses(id: Id, plan: Plan, a: Read)
    requires plan.rateLimitRpm.Some? && plan.rateLimitRpm.value >= 1
        && QuotaLeavesRoom(plan, 2 * plan.rateLimitRpm.value)
    requires Contains(a.window, a.occurredAt)
    ensures Passes(Initial(id, plan, RowFor(a.window, plan)), Request("/", plan.rateLimitRpm.value, a.occurredAt))
  {
    ServesItsWindow(RowFor(a.window, plan), a.occurredAt);
    assert Initial(id, plan, RowFor(a.window, plan)).db.records == [];
  }

  lemma SecondPasses(s: State, a: Read, b: Read, limit: int)
    requires s.plan.rateLimitRpm == Some(limit) && limit >= 1 && QuotaLeavesRoom(s.plan, 2 * limit)
    requires s.row == RowFor(b.window, s.plan) && Contains(b.window, b.occurredAt) && Hidden(a, b)
    requires s.db.records == [] + [NewRecord(UsageOf(s.id, Request("/", limit, a.occurredAt)), Some(0), true)]
    ensures Passes(s, Request("/", limit, b.occurredAt))
  {
    var r := NewRecord(UsageOf(s.id, Request("/", limit, a.occurredAt)), Some(0), true);
    ServesItsWindow(s.row, b.occurredAt);
    SumOfAppend([], r, Where(s.id, None, b.window.gte, b.window.lt, AnyRow));
    SumOfAppend([], r, RateWhere(s.id, b));
  }

  /** A full minute's worth of hidden requests, then another that does not see them: twice the limit. */
  lemma HiddenRequestDoublesRate(id: Id, plan: Plan, a: Read, b: Read)
    requires plan.rateLimitRpm.Some? && plan.rateLimitRpm.value >= 1
        && QuotaLeavesRoom(plan, 2 * plan.rateLimitRpm.value)
    requires Contains(a.window, a.occurredAt) && Contains(b.window, b.occurredAt) && Hidden(a, b)
    ensures var limit := plan.rateLimitRpm.value;
            var s := Reached(id, plan, RowFor(a.window, plan), Overrunning(plan, a, b, limit));
            && |s.windows| == |s.db.records| && Reads(s) == [a, b]
            && MinuteUsage(s, Min(a.occurredAt, b.occurredAt)) == 2 * limit
  {
    var limit, row, other := plan.rateLimitRpm.value, RowFor(a.window, plan), RowFor(b.window, plan);
    var first, second := Request("/", limit, a.occurredAt), Request("/", limit, b.occurredAt);
    var r1, r2 := NewRecord(UsageOf(id, first), Some(0), true), NewRecord(UsageOf(id, second), Some(0), true);
    var minute := Where(id, None, Min(a.occurredAt, b.occurredAt),
                        Min(a.occurredAt, b.occurredAt) + 60001, AnyRow);
    FirstPasses(id, plan, a);
    var one := Served(Initial(id, plan, row), 1, first).(row := other);
    assert one.db.records == [] + [r1];
    SecondPasses(one, a, b, limit);
    TwoInTurnAreServed(id, plan, row, other, first, second);
    ServesItsWindow(row, a.occurredAt);
    ServesItsWindow(other, b.occurredAt);
    SumOfAppend([], r1, minute);
    SumOfAppend([] + [r1], r2, minute);
    assert Served(one, 2, second).db.records == [r1, r2];
    assert Served(one, 2, second).windows == [a.window, b.window];
  }

  // ---------------------------------------------------------------- the exact condition

  /** xs is ys with some elements left out. */
  ghost predicate Subsequence<T>(xs: seq<T>, ys: seq<T>) {
    xs == [] || (ys != [] && (Subsequence(xs, ys[..|ys| - 1])
                              || (xs[|xs| - 1] == ys[|ys| - 1] && Subsequence(xs[..|xs| - 1], ys[..|ys| - 1]))))
  }

  lemma {:induction false} SubsequenceElements<T>(xs: seq<T>, ys: seq<T>, x: T)
    requires Subsequence(xs, ys) && x in xs
    ensures x in ys
    decreases |ys|
  {
    if Subsequence(xs, ys[..|ys| - 1]) {
      SubsequenceElements(xs, ys[..|ys| - 1], x);
    } else if x != xs[|xs| - 1] {
      assert xs == xs[..|xs| - 1] + [xs[|xs| - 1]];
      SubsequenceElements(xs[..|xs| - 1], ys[..|ys| - 1], x);
    }
  }

  lemma {:induction false} SubsequenceHidesNothing(xs: seq<Read>, ys: seq<Read>)
    requires Subsequence(xs, ys) && NothingHidden(ys)
    ensures NothingHidden(xs)
    decreases |ys|
  {
    if xs != [] {
      var init := ys[..|ys| - 1];
      if Subsequence(xs, init) {
        SubsequenceHidesNothing(xs, init);
      } else {
        var n := |xs| - 1;
        SubsequenceHidesNothing(xs[..n], init);
        forall i, j | 0 <= i < j < |xs|
          ensures !Hidden(xs[i], xs[j])
        {
          if j < n {
            assert !Hidden(xs[..n][i], xs[..n][j]);
          } else {
            assert xs[i] in xs[..n];
            SubsequenceElements(xs[..n], init, xs[i]);
            var k :| 0 <= k < |init| && init[k] == xs[i];
            assert !Hidden(ys[k], ys[|ys| - 1]);
          }
        }
      }
    }
  }

  lemma {:induction false} PairIsSubsequence<T>(ys: seq<T>, i: nat, j: nat)
    requires i < j < |ys|
    ensures Subsequence([ys[i], ys[j]], ys)
    decreases |ys|
  {
    var n := |ys| - 1;
    if j < n {
      PairIsSubsequence(ys[..n], i, j);
    } else {
      assert [ys[i], ys[j]][..1] == [ys[i]];
      OneIsSubsequence(ys[..n], i);
    }
  }

  lemma {:induction false} OneIsSubsequence<T>(ys: seq<T>, i: nat)
    requires i < |ys|
    ensures Subsequence([ys[i]], ys)
    decreases |ys|
  {
    if i < |ys| - 1 {
      OneIsSubsequence(ys[..|ys| - 1], i);
    } else {
      assert [ys[i]][..0] == [];
    }
  }

  /** The run commits some of these arrivals, in their order. */
  ghost predicate Commits(s: State, arrivals: seq<Read>) {
    |s.windows| == |s.db.records| && Subsequence(Reads(s), arrivals)
  }

  /** Of arrivals whose requests commit in a given order, in whatever numbers and however many are refused or
      abort, no closed 60 seconds hold more than the limit if and only if no arrival is hidden from a later one. */
  lemma RateIsKeptExactlyWhenNothingHidden(id: Id, plan: Plan, arrivals: seq<Read>)
    requires plan.rateLimitRpm.Some? && plan.rateLimitRpm.value >= 1
        && QuotaLeavesRoom(plan, 2 * plan.rateLimitRpm.value)
    requires forall i :: 0 <= i < |arrivals| ==> Contains(arrivals[i].window, arrivals[i].occurredAt)
    ensures (forall row, actions, x :: Commits(Reached(id, plan, row, actions), arrivals) ==>
               MinuteUsage(Reached(id, plan, row, actions), x) <= plan.rateLimitRpm.value)
       <==> NothingHidden(arrivals)
  {
    if NothingHidden(arrivals) {
      forall row, actions, x | Commits(Reached(id, plan, row, actions), arrivals)
        ensures MinuteUsage(Reached(id, plan, row, actions), x) <= plan.rateLimitRpm.value
      {
        SubsequenceHidesNothing(Reads(Reached(id, plan, row, actions)), arrivals);
        RateIsNeverOverrun(id, plan, row, actions, x);
        EveryRunIsSerial(id, plan, row, actions);
      }
    } else {
      var i, j :| 0 <= i < j < |arrivals| && Hidden(arrivals[i], arrivals[j]);
      var a, b := arrivals[i], arrivals[j];
      HiddenRequestDoublesRate(id, plan, a, b);
      PairIsSubsequence(arrivals, i, j);
      var row, actions := RowFor(a.window, plan), Overrunning(plan, a, b, plan.rateLimitRpm.value);
      assert Commits(Reached(id, plan, row, actions), arrivals);
      assert MinuteUsage(Reached(id, plan, row, actions), Min(a.occurredAt, b.occurredAt)) > plan.rateLimitRpm.value;
    }
  }

  // ---------------------------------------------------------------- the two ways to be hidden

  /** A request dated up to a minute before one that has already committed: twice the limit passes. */
  lemma LateRequestOverrunsRate(id: Id, plan: Plan, w: Window, late: int, counted: int)
    requires plan.rateLimitRpm.Some? && plan.rateLimitRpm.value >= 1
        && QuotaLeavesRoom(plan, 2 * plan.rateLimitRpm.value)
    requires Contains(w, late) && Contains(w, counted) && late < counted <= late + 60000
    ensures exists actions ::
              MinuteUsage(Reached(id, plan, RowFor(w, plan), actions), late) == 2 * plan.rateLimitRpm.value
  {
    HiddenRequestDoublesRate(id, plan, Read(w, counted), Read(w, late));
  }

  /** The rate window is cut off at the start of the period, so a renewal lets the limit through on each side
      of it within a minute, even in the order the requests occurred. */
  lemma RenewalDoublesRate(id: Id, plan: Plan, ending: Window, renewed: Window, before: int, after: int)
    requires plan.rateLimitRpm.Some? && plan.rateLimitRpm.value >= 1
        && QuotaLeavesRoom(plan, 2 * plan.rateLimitRpm.value)
    requires Contains(ending, before) && Contains(renewed, after) && before < renewed.gte
    requires before < after <= before + 60000
    ensures exists actions ::
              MinuteUsage(Reached(id, plan, RowFor(ending, plan), actions), before) == 2 * plan.rateLimitRpm.value
  {
    HiddenRequestDoublesRate(id, plan, Read(ending, before), Read(renewed, after));
  }
}
