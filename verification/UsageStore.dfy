/** The usage store and its window queries (usage-aggregation.service.ts). A window is answered in up to
    three parts: raw rows before the first whole UTC day, the daily tables over the whole days (with the
    raw rows no table counts), and raw rows after the last whole day. */
module UsageStore {
  import opened Common
  import opened CounterTable
  import opened StableSort
  import opened UtcCalendar
  import opened UsageIndex
  import opened EndpointRanking

  datatype Outcome = Created | DuplicateSourceJob

  const DEFAULT_ENDPOINT_LIMIT: nat := 5

  function FullDaysStart(periodStart: int): int {
    if IsUtcDayBoundary(periodStart) then periodStart else DayStart(periodStart) + MS_PER_DAY
  }

  /** The part of an endpoint's usage in a window that the breakdown cannot see: rows of its whole
      days that the daily table counts and the endpoint table does not. */
  function MissedUsage(db: UsageDb, s: Id, endpoint: Option<string>, from: int, until: int): int {
    SumRaw(db.records, Where(s, endpoint, FullDaysStart(from), DayStart(until), OnlyEndpointMissed))
  }

  function BreakdownTotal(db: UsageDb, s: Id, from: int, until: int): string -> int {
    (e: string) => ScanEndpoint(db.records, s, e, from, until) - MissedUsage(db, s, Some(e), from, until)
  }

  function ScanTotal(db: UsageDb, s: Id, from: int, until: int): string -> int {
    (e: string) => ScanEndpoint(db.records, s, e, from, until)
  }

  method SplitAtDays(periodStart: int, periodEnd: int)
    returns (fullDaysStart: int, fullDaysEnd: int, startPartialEnd: int, endPartialStart: int)
    requires periodStart < periodEnd
    ensures fullDaysStart == FullDaysStart(periodStart) && fullDaysEnd == DayStart(periodEnd)
    ensures IsUtcDayBoundary(fullDaysStart) && IsUtcDayBoundary(fullDaysEnd)
    ensures periodStart <= fullDaysStart && fullDaysEnd <= periodEnd
    ensures startPartialEnd == Min(fullDaysStart, periodEnd)
    ensures endPartialStart == Max(fullDaysEnd, startPartialEnd)
  {
    if IsUtcDayBoundary(periodStart) {
      fullDaysStart := periodStart;
    } else {
      NextDayStartIsOneDayOn(periodStart);
      fullDaysStart := NextDayStart(periodStart);
    }
    fullDaysEnd := DayStart(periodEnd);
    startPartialEnd := if fullDaysStart < periodEnd then fullDaysStart else periodEnd;
    endPartialStart := if fullDaysEnd > startPartialEnd then fullDaysEnd else startPartialEnd;
  }

  /** usageRecord.groupBy endpoint */
  function GroupRaw(rs: seq<UsageRecord>, w: Where): seq<Item> {
    if rs == [] then []
    else
      var r := rs[|rs| - 1];
      var groups := GroupRaw(rs[..|rs| - 1], w);
      if Matches(r, w) then Upsert(groups, r.endpoint, r.requestCount) else groups
  }

  /** usageEndpointDailyAggregate.groupBy endpoint */
  function GroupEndpointDaily(rows: seq<Row<EndpointDayKey>>, s: Id, from: int, until: int): seq<Item> {
    if rows == [] then []
    else
      var groups := GroupEndpointDaily(rows[1..], s, from, until);
      if EndpointDaysOf(s, None, from, until)(rows[0].key)
      then Upsert(groups, rows[0].key.endpoint, rows[0].requestCount)
      else groups
  }

  function Is(endpoint: string): string -> bool { (e: string) => e == endpoint }

  /** A JS Map from endpoint to count: unique keys, positive counts. */
  ghost predicate IsUsageMap(items: seq<Item>) { UniqueKeys(items) && Positive(items) }

  lemma {:induction false} GroupRawSums(rs: seq<UsageRecord>, w: Where)
    requires PositiveCounts(rs) && w.endpoint.None?
    ensures IsUsageMap(GroupRaw(rs, w))
    ensures forall e :: SumWhere(GroupRaw(rs, w), Is(e)) == SumRaw(rs, w.(endpoint := Some(e)))
  {
    if rs != [] {
      var r := rs[|rs| - 1];
      var groups := GroupRaw(rs[..|rs| - 1], w);
      GroupRawSums(rs[..|rs| - 1], w);
      UpsertKeepsTable(groups, r.endpoint, r.requestCount);
      forall e
        ensures SumWhere(GroupRaw(rs, w), Is(e)) == SumRaw(rs, w.(endpoint := Some(e)))
      {
        UpsertAddsToSum(groups, r.endpoint, r.requestCount, Is(e));
        assert SumWhere(groups, Is(e)) == SumRaw(rs[..|rs| - 1], w.(endpoint := Some(e)));
      }
    }
  }

  lemma {:induction false} GroupEndpointDailySums(rows: seq<Row<EndpointDayKey>>, s: Id, from: int, until: int)
    requires Positive(rows)
    ensures IsUsageMap(GroupEndpointDaily(rows, s, from, until))
    ensures forall e :: SumWhere(GroupEndpointDaily(rows, s, from, until), Is(e))
                     == SumWhere(rows, EndpointDaysOf(s, Some(e), from, until))
  {
    if rows != [] {
      var groups := GroupEndpointDaily(rows[1..], s, from, until);
      GroupEndpointDailySums(rows[1..], s, from, until);
      UpsertKeepsTable(groups, rows[0].key.endpoint, rows[0].requestCount);
      forall e
        ensures SumWhere(GroupEndpointDaily(rows, s, from, until), Is(e))
             == SumWhere(rows, EndpointDaysOf(s, Some(e), from, until))
      {
        UpsertAddsToSum(groups, rows[0].key.endpoint, rows[0].requestCount, Is(e));
        assert SumWhere(groups, Is(e)) == SumWhere(rows[1..], EndpointDaysOf(s, Some(e), from, until));
      }
    }
  }

  /** addEndpointUsage */
  method AddEndpointUsage(target: seq<Item>, rows: seq<Item>) returns (result: seq<Item>)
    requires IsUsageMap(target) && Positive(rows)
    ensures IsUsageMap(result)
    ensures forall e :: SumWhere(result, Is(e)) == SumWhere(target, Is(e)) + SumWhere(rows, Is(e))
  {
    result := target;
    var i := 0;
    while i < |rows|
      invariant 0 <= i <= |rows|
      invariant IsUsageMap(result)
      invariant forall e :: SumWhere(result, Is(e)) + SumWhere(rows[i..], Is(e))
                         == SumWhere(target, Is(e)) + SumWhere(rows, Is(e))
    {
      ghost var before := result;
      UpsertKeepsTable(result, rows[i].key, rows[i].requestCount);
      result := Upsert(result, rows[i].key, rows[i].requestCount);
      forall e
        ensures SumWhere(result, Is(e)) + SumWhere(rows[i + 1..], Is(e))
             == SumWhere(target, Is(e)) + SumWhere(rows, Is(e))
      {
        UpsertAddsToSum(before, rows[i].key, rows[i].requestCount, Is(e));
        assert SumWhere(before, Is(e)) + SumWhere(rows[i..], Is(e)) == SumWhere(target, Is(e)) + SumWhere(rows, Is(e));
        assert rows[i..][1..] == rows[i + 1..];
      }
      i := i + 1;
    }
  }

  class UsageStore {
    var records: seq<UsageRecord>
    var daily: seq<Row<DayKey>>
    var endpointDaily: seq<Row<EndpointDayKey>>

    function Db(): UsageDb
      reads this
    {
      UsageDb(records, daily, endpointDaily)
    }

    constructor (db: UsageDb)
      ensures Db() == db
    {
      records, daily, endpointDaily := db.records, db.daily, db.endpointDaily;
    }

    /** The record, its daily count and its endpoint count are written together or not at all. */
    method RecordUsageInTransaction(input: UsageInput, now: int) returns (outcome: Outcome)
      requires Valid(Db()) && input.requestCount >= 1
      modifies this
      ensures outcome.Created? <==> Admits(old(Db()), input)
      ensures Db() == if outcome.Created? then Recorded(old(Db()), input, now) else old(Db())
      ensures Valid(Db())
      ensures forall s, e, from, until :: ScanEndpoint(records, s, e, from, until)
                == ScanEndpoint(old(records), s, e, from, until)
                   + if outcome.Created? && s == input.subscriptionId && e == input.endpoint
                        && from <= input.occurredAt < until
                     then input.requestCount else 0
      ensures input.sourceJobId.Some? ==> JobRecorded(records, input.sourceJobId.value)
    {
      if input.sourceJobId.Some? && JobRecorded(records, input.sourceJobId.value) {
        return DuplicateSourceJob;
      }
      RecordedIsValid(Db(), input, now);
      RecordedIsCounted(Db(), input, now);
      var bucketDate := DayStart(input.occurredAt);
      records := records + [NewRecord(input, Some(now), true)];
      daily := Upsert(daily, DayKey(input.subscriptionId, bucketDate), input.requestCount);
      endpointDaily :=
          Upsert(endpointDaily, EndpointDayKey(input.subscriptionId, bucketDate, input.endpoint), input.requestCount);
      outcome := Created;
    }

    /** The index answers every window, aligned or not, inverted or not, as the plain scan would. */
    method SumUsageForWindow(subscriptionId: Id, periodStart: int, periodEnd: int) returns (total: int)
      requires Valid(Db())
      ensures total == ScanSum(records, subscriptionId, periodStart, periodEnd)
    {
      ghost var w := Where(subscriptionId, None, periodStart, periodEnd, AnyRow);
      if periodStart >= periodEnd {
        NoMatchSumsToZero(records, w);
        return 0;
      }
      var fullDaysStart, fullDaysEnd, startPartialEnd, endPartialStart := SplitAtDays(periodStart, periodEnd);
      total := 0;
      if periodStart < startPartialEnd {
        total := total + SumRaw(records, Where(subscriptionId, None, periodStart, startPartialEnd, AnyRow));
      } else {
        NoMatchSumsToZero(records, w.(until := startPartialEnd));
      }
      SplitWindow(records, w, startPartialEnd);
      assert total == SumRaw(records, w.(until := startPartialEnd));
      if fullDaysStart < fullDaysEnd {
        ghost var days := w.(from := fullDaysStart, until := fullDaysEnd);
        total := total + SumDaily(Db(), subscriptionId, fullDaysStart, fullDaysEnd);
        total := total + SumRaw(records, Where(subscriptionId, None, fullDaysStart, fullDaysEnd, OnlyUnaggregated));
        SplitRows(records, days);
        SplitWindow(records, w.(from := fullDaysStart), fullDaysEnd);
      }
      if endPartialStart < periodEnd {
        total := total + SumRaw(records, Where(subscriptionId, None, endPartialStart, periodEnd, AnyRow));
      } else {
        NoMatchSumsToZero(records, w.(from := endPartialStart));
      }
    }

    /** Adds the raw rows of [from, until), when there is such a range. */
    method AddRawRange(
      usage: seq<Item>, subscriptionId: Id, from: int, until: int, rows: RowFilter) returns (result: seq<Item>)
      requires Valid(Db()) && IsUsageMap(usage)
      ensures IsUsageMap(result)
      ensures forall e :: SumWhere(result, Is(e))
                       == SumWhere(usage, Is(e)) + SumRaw(records, Where(subscriptionId, Some(e), from, until, rows))
    {
      var where := Where(subscriptionId, None, from, until, rows);
      result := usage;
      if from < until {
        GroupRawSums(records, where);
        result := AddEndpointUsage(usage, GroupRaw(records, where));
      } else {
        forall e
          ensures SumRaw(records, Where(subscriptionId, Some(e), from, until, rows)) == 0
        {
          NoMatchSumsToZero(records, Where(subscriptionId, Some(e), from, until, rows));
        }
      }
    }

    /** Adds the endpoint table's rows of the whole days [from, until). */
    method AddFullDays(usage: seq<Item>, subscriptionId: Id, from: int, until: int) returns (result: seq<Item>)
      requires Valid(Db()) && IsUsageMap(usage)
      requires IsUtcDayBoundary(from) && IsUtcDayBoundary(until)
      ensures IsUsageMap(result)
      ensures forall e :: SumWhere(result, Is(e))
                       == SumWhere(usage, Is(e))
                           + SumRaw(records, Where(subscriptionId, Some(e), from, until, OnlyEndpointCounted))
    {
      GroupEndpointDailySums(endpointDaily, subscriptionId, from, until);
      result := AddEndpointUsage(usage, GroupEndpointDaily(endpointDaily, subscriptionId, from, until));
      forall e
        ensures SumWhere(endpointDaily, EndpointDaysOf(subscriptionId, Some(e), from, until))
             == SumRaw(records, Where(subscriptionId, Some(e), from, until, OnlyEndpointCounted))
      {
        assert SumEndpointDaily(Db(), subscriptionId, Some(e), from, until)
            == SumRaw(records, Where(subscriptionId, Some(e), from, until, OnlyEndpointCounted));
      }
    }

    /** Fills the endpoint map of a window, part by part. */
    method CollectEndpointUsage(subscriptionId: Id, periodStart: int, periodEnd: int) returns (usage: seq<Item>)
      requires Valid(Db()) && periodStart < periodEnd
      ensures IsUsageMap(usage)
      ensures forall e :: SumWhere(usage, Is(e)) == BreakdownTotal(Db(), subscriptionId, periodStart, periodEnd)(e)
    {
      var fullDaysStart, fullDaysEnd, startPartialEnd, endPartialStart := SplitAtDays(periodStart, periodEnd);
      usage := AddRawRange([], subscriptionId, periodStart, startPartialEnd, AnyRow);
      if fullDaysStart < fullDaysEnd {
        usage := AddFullDays(usage, subscriptionId, fullDaysStart, fullDaysEnd);
        usage := AddRawRange(usage, subscriptionId, fullDaysStart, fullDaysEnd, OnlyUnaggregated);
      }
      usage := AddRawRange(usage, subscriptionId, endPartialStart, periodEnd, AnyRow);
      forall e
        ensures SumWhere(usage, Is(e)) == BreakdownTotal(Db(), subscriptionId, periodStart, periodEnd)(e)
      {
        BreakdownParts(Db(), subscriptionId, periodStart, periodEnd, e);
      }
    }

    /** The first limit endpoints of the window, five unless told otherwise. */
    method ListEndpointUsageForWindow(subscriptionId: Id, periodStart: int, periodEnd: int, limit: Option<nat>,
                                      collate: string -> real)
      returns (items: seq<Item>)
      requires Valid(Db())
      ensures IsTop(items, BreakdownTotal(Db(), subscriptionId, periodStart, periodEnd),
                    if limit.Some? then limit.value else 5, collate)
    {
      ghost var total := BreakdownTotal(Db(), subscriptionId, periodStart, periodEnd);
      var k := OrElse(limit, DEFAULT_ENDPOINT_LIMIT);
      if periodStart >= periodEnd {
        InvertedBreakdownIsEmpty(Db(), subscriptionId, periodStart, periodEnd);
        return [];
      }
      var usage := CollectEndpointUsage(subscriptionId, periodStart, periodEnd);
      EntriesAreTotals(usage, total);
      SortedPrefixIsTop(usage, total, k, collate);
      var sorted := Sort(usage, Ranking(collate));
      items := sorted[..if |sorted| < k then |sorted| else k];
    }
  }

  /** The parts a breakdown adds up, endpoint by endpoint. */
  lemma BreakdownParts(db: UsageDb, s: Id, a: int, b: int, e: string)
    requires a < b
    ensures var startPartialEnd := Min(FullDaysStart(a), b);
            var endPartialStart := Max(DayStart(b), startPartialEnd);
            BreakdownTotal(db, s, a, b)(e)
            == SumRaw(db.records, Where(s, Some(e), a, startPartialEnd, AnyRow))
               + (if FullDaysStart(a) < DayStart(b)
                  then SumRaw(db.records, Where(s, Some(e), FullDaysStart(a), DayStart(b), OnlyEndpointCounted))
                       + SumRaw(db.records, Where(s, Some(e), FullDaysStart(a), DayStart(b), OnlyUnaggregated))
                  else 0)
               + SumRaw(db.records, Where(s, Some(e), endPartialStart, b, AnyRow))
  {
    var w := Where(s, Some(e), a, b, AnyRow);
    var fullDaysStart, fullDaysEnd := FullDaysStart(a), DayStart(b);
    var startPartialEnd := Min(fullDaysStart, b);
    SplitWindow(db.records, w, startPartialEnd);
    if fullDaysStart < fullDaysEnd {
      SplitWindow(db.records, w.(from := startPartialEnd), fullDaysEnd);
      SplitRows(db.records, w.(from := startPartialEnd, until := fullDaysEnd));
    } else {
      NoMatchSumsToZero(db.records, Where(s, Some(e), fullDaysStart, fullDaysEnd, OnlyEndpointMissed));
    }
  }

  lemma InvertedBreakdownIsEmpty(db: UsageDb, s: Id, a: int, b: int)
    requires a >= b
    ensures forall e :: BreakdownTotal(db, s, a, b)(e) == 0
  {
    forall e
      ensures BreakdownTotal(db, s, a, b)(e) == 0
    {
      NoMatchSumsToZero(db.records, Where(s, Some(e), a, b, AnyRow));
      NoMatchSumsToZero(db.records, Where(s, Some(e), FullDaysStart(a), DayStart(b), OnlyEndpointMissed));
    }
  }

  lemma EntriesAreTotals(usage: seq<Item>, total: string -> int)
    requires IsUsageMap(usage)
    requires forall e :: SumWhere(usage, Is(e)) == total(e)
    ensures forall item :: item in usage ==> item.requestCount == total(item.key)
    ensures forall e :: total(e) >= 1 ==> HasKey(usage, e)
  {
    forall item | item in usage
      ensures item.requestCount == total(item.key)
    {
      var i :| 0 <= i < |usage| && usage[i] == item;
      RowIsItsSum(usage, i, Is(item.key));
    }
    forall e | total(e) >= 1
      ensures HasKey(usage, e)
    {
      SumOfPositive(usage, Is(e));
    }
  }

  // ---------------------------------------------------------------- what the breakdown promises

  /** What the breakdown cannot see is what the endpoint table lacks of the daily table over the whole days. */
  lemma MissedUsageIsTableDifference(db: UsageDb, s: Id, a: int, b: int)
    requires Valid(db)
    ensures MissedUsage(db, s, None, a, b)
         == SumDaily(db, s, FullDaysStart(a), DayStart(b)) - SumEndpointDaily(db, s, None, FullDaysStart(a),
             DayStart(b))
  {
    SplitRows(db.records, Where(s, None, FullDaysStart(a), DayStart(b), AnyRow));
  }

  /** No row is missed exactly when every endpoint's total is the scan. */
  lemma ExactWhenNothingMissed(db: UsageDb, s: Id, a: int, b: int)
    requires Valid(db)
    ensures (forall e :: BreakdownTotal(db, s, a, b)(e) == ScanTotal(db, s, a, b)(e))
       <==> forall r :: r in db.records ==>
              !Matches(r, Where(s, None, FullDaysStart(a), DayStart(b), OnlyEndpointMissed))
  {
    var days := Where(s, None, FullDaysStart(a), DayStart(b), OnlyEndpointMissed);
    if forall r :: r in db.records ==> !Matches(r, days) {
      forall e
        ensures BreakdownTotal(db, s, a, b)(e) == ScanTotal(db, s, a, b)(e)
      {
        NoMatchSumsToZero(db.records, days.(endpoint := Some(e)));
      }
    } else {
      var r :| r in db.records && Matches(r, days);
      PositiveSum(db.records, days.(endpoint := Some(r.endpoint)));
      assert Matches(r, days.(endpoint := Some(r.endpoint)));
      assert MissedUsage(db, s, Some(r.endpoint), a, b) > 0;
      assert BreakdownTotal(db, s, a, b)(r.endpoint) != ScanTotal(db, s, a, b)(r.endpoint);
    }
  }

  /** The breakdown is the exact per-endpoint scan if and only if the two daily tables hold the same total
      for the window's whole days, which a caller can query. */
  lemma BreakdownIsScanExactlyWhenTablesAgree(db: UsageDb, s: Id, a: int, b: int)
    requires Valid(db)
    ensures (forall e :: BreakdownTotal(db, s, a, b)(e) == ScanTotal(db, s, a, b)(e))
       <==> SumDaily(db, s, FullDaysStart(a), DayStart(b))
              == SumEndpointDaily(db, s, None, FullDaysStart(a), DayStart(b))
  {
    ExactWhenNothingMissed(db, s, a, b);
    PositiveSum(db.records, Where(s, None, FullDaysStart(a), DayStart(b), OnlyEndpointMissed));
    MissedUsageIsTableDifference(db, s, a, b);
  }

  const MIGRATED_INPUT: UsageInput := UsageInput(1, 0, "/a", 3, None)

  const MIGRATED_DB: UsageDb :=
    UsageDb([NewRecord(MIGRATED_INPUT, Some(MS_PER_DAY), false)], [Row(DayKey(1, 0), 3)], [])

  lemma MigratedStoreIsReachable()
    ensures Run(EMPTY_DB, [LegacyInsert(MIGRATED_INPUT), BackfillDailyTable(MS_PER_DAY)]) == MIGRATED_DB
  {
    var insert, backfill := LegacyInsert(MIGRATED_INPUT), BackfillDailyTable(MS_PER_DAY);
    var legacy := UsageDb([NewRecord(MIGRATED_INPUT, None, false)], [], []);
    assert [insert, backfill][..1] == [insert] && [insert][..0] == [];
    assert Run(EMPTY_DB, [insert]) == Apply(EMPTY_DB, insert) == legacy;
    assert legacy.records[..0] == [];
    assert MarkAggregated(legacy.records, MS_PER_DAY) == MIGRATED_DB.records;
    assert Backfilled(legacy.records) == MIGRATED_DB.daily;
  }

  /** A reachable store whose breakdown misses usage its daily table and the plain scan both have. */
  lemma MigratedUsageIsMissing()
    ensures exists steps :: Run(EMPTY_DB, steps) == MIGRATED_DB
    ensures ScanTotal(MIGRATED_DB, 1, 0, MS_PER_DAY)("/a") == 3
    ensures SumDaily(MIGRATED_DB, 1, 0, MS_PER_DAY) == 3
    ensures BreakdownTotal(MIGRATED_DB, 1, 0, MS_PER_DAY)("/a") == 0
  {
    MigratedStoreIsReachable();
    var rs := MIGRATED_DB.records;
    assert |rs| == 1 && rs[..|rs| - 1] == [];
    var scan := Where(1, Some("/a"), 0, MS_PER_DAY, AnyRow);
    assert Matches(rs[0], scan);
    assert SumRaw(rs, scan) == SumRaw([], scan) + 3;
    var missed := scan.(rows := OnlyEndpointMissed);
    assert FullDaysStart(0) == 0 && DayStart(MS_PER_DAY) == MS_PER_DAY;
    assert Matches(rs[0], missed);
    assert SumRaw(rs, missed) == SumRaw([], missed) + 3;
  }

  // ---------------------------------------------------------------- sums over windows and endpoints

  /** Window sums are additive over adjacent windows, inverted windows counting nothing. */
  lemma AdjacentWindowsAdd(rs: seq<UsageRecord>, s: Id, a: int, m: int, b: int)
    requires a <= m <= b
    ensures ScanSum(rs, s, a, b) == ScanSum(rs, s, a, m) + ScanSum(rs, s, m, b)
  {
    SplitWindow(rs, Where(s, None, a, b, AnyRow), m);
  }

  function SumOfTotals(items: seq<Item>, total: string -> int): int {
    if items == [] then 0 else total(items[0].key) + SumOfTotals(items[1..], total)
  }

  function SumOfCounts(items: seq<Item>): int {
    if items == [] then 0 else items[0].requestCount + SumOfCounts(items[1..])
  }

  lemma {:induction false} CountsAreTotals(items: seq<Item>, total: string -> int)
    requires forall i :: 0 <= i < |items| ==> items[i].requestCount == total(items[i].key)
    ensures SumOfCounts(items) == SumOfTotals(items, total)
  {
    if items != [] {
      CountsAreTotals(items[1..], total);
    }
  }

  function PerEndpoint(rs: seq<UsageRecord>, w: Where): string -> int {
    (e: string) => SumRaw(rs, w.(endpoint := Some(e)))
  }

  /** The matching usage of endpoints that a list leaves out. */
  function LeftOut(items: seq<Item>, rs: seq<UsageRecord>, w: Where): int {
    if rs == [] then 0
    else
      var r := rs[|rs| - 1];
      LeftOut(items, rs[..|rs| - 1], w) + if Matches(r, w) && !HasKey(items, r.endpoint) then r.requestCount else 0
  }

  lemma {:induction false} TotalsOfAppend(items: seq<Item>, rs: seq<UsageRecord>, r: UsageRecord, w: Where)
    requires UniqueKeys(items) && w.endpoint.None?
    ensures SumOfTotals(items, PerEndpoint(rs + [r], w))
         == SumOfTotals(items, PerEndpoint(rs, w)) + if Matches(r, w) && HasKey(items, r.endpoint)
             then r.requestCount else 0
  {
    if items != [] {
      var e := items[0].key;
      SumOfAppend(rs, r, w.(endpoint := Some(e)));
      TotalsOfAppend(items[1..], rs, r, w);
      KeysOfCons(items[0], items[1..]);
      assert [items[0]] + items[1..] == items;
      if HasKey(items[1..], e) {
        var i :| 0 <= i < |items[1..]| && items[1..][i].key == e;
        assert items[i + 1].key == e;
      }
    }
  }

  lemma {:induction false} TotalsOfNothing(items: seq<Item>, w: Where)
    ensures SumOfTotals(items, PerEndpoint([], w)) == 0
  {
    if items != [] {
      TotalsOfNothing(items[1..], w);
    }
  }

  /** The endpoints' totals make up the window's total, up to the endpoints a list leaves out. */
  lemma {:induction false} EndpointTotalsAddUp(items: seq<Item>, rs: seq<UsageRecord>, w: Where)
    requires UniqueKeys(items) && w.endpoint.None?
    ensures SumOfTotals(items, PerEndpoint(rs, w)) + LeftOut(items, rs, w) == SumRaw(rs, w)
  {
    if rs == [] {
      TotalsOfNothing(items, w);
    } else {
      var init, r := rs[..|rs| - 1], rs[|rs| - 1];
      assert init + [r] == rs;
      EndpointTotalsAddUp(items, init, w);
      TotalsOfAppend(items, init, r, w);
    }
  }

  lemma {:induction false} SameLeftOut(items: seq<Item>, rs: seq<UsageRecord>, w: Where, v: Where)
    requires forall r :: r in rs && !HasKey(items, r.endpoint) ==> (Matches(r, w) <==> Matches(r, v))
    ensures LeftOut(items, rs, w) == LeftOut(items, rs, v)
  {
    if rs != [] {
      SameLeftOut(items, rs[..|rs| - 1], w, v);
    }
  }

  lemma {:induction false} TotalsSubtract(items: seq<Item>, f: string -> int, g: string -> int, h: string -> int)
    requires forall e :: f(e) == g(e) - h(e)
    ensures SumOfTotals(items, f) == SumOfTotals(items, g) - SumOfTotals(items, h)
  {
    if items != [] {
      TotalsSubtract(items[1..], f, g, h);
    }
  }

  /** A row the breakdown does not miss shows up in its endpoint's total. */
  lemma SeenRowCounts(db: UsageDb, s: Id, a: int, b: int, r: UsageRecord)
    requires Valid(db) && r in db.records
    requires Matches(r, Where(s, None, a, b, AnyRow))
    requires !Matches(r, Where(s, None, FullDaysStart(a), DayStart(b), OnlyEndpointMissed))
    ensures BreakdownTotal(db, s, a, b)(r.endpoint) >= 1
  {
    var e := r.endpoint;
    var first := Min(FullDaysStart(a), b);
    var last := Max(DayStart(b), first);
    BreakdownParts(db, s, a, b, e);
    PositiveSum(db.records, Where(s, Some(e), a, first, AnyRow));
    PositiveSum(db.records, Where(s, Some(e), last, b, AnyRow));
    PositiveSum(db.records, Where(s, Some(e), FullDaysStart(a), DayStart(b), OnlyEndpointCounted));
    PositiveSum(db.records, Where(s, Some(e), FullDaysStart(a), DayStart(b), OnlyUnaggregated));
    if r.occurredAt < first {
      assert Matches(r, Where(s, Some(e), a, first, AnyRow));
    } else if r.occurredAt >= last {
      assert Matches(r, Where(s, Some(e), last, b, AnyRow));
    } else if r.aggregatedAt.None? {
      assert Matches(r, Where(s, Some(e), FullDaysStart(a), DayStart(b), OnlyUnaggregated));
    } else {
      assert Matches(r, Where(s, Some(e), FullDaysStart(a), DayStart(b), OnlyEndpointCounted));
    }
  }

  /** An unsliced breakdown adds up to the window sum, less exactly the usage it misses. */
  lemma UnslicedBreakdownAddsUp(db: UsageDb, items: seq<Item>, s: Id, a: int, b: int, k: nat, collate: string -> real)
    requires Valid(db) && a < b
    requires IsTop(items, BreakdownTotal(db, s, a, b), k, collate) && |items| < k
    ensures SumOfCounts(items) == ScanSum(db.records, s, a, b) - MissedUsage(db, s, None, a, b)
  {
    var w := Where(s, None, a, b, AnyRow);
    var missed := Where(s, None, FullDaysStart(a), DayStart(b), OnlyEndpointMissed);
    forall r | r in db.records && !HasKey(items, r.endpoint)
      ensures Matches(r, w) <==> Matches(r, missed)
    {
      if Matches(r, w) && !Matches(r, missed) {
        SeenRowCounts(db, s, a, b, r);
      }
    }
    SameLeftOut(items, db.records, w, missed);
    EndpointTotalsAddUp(items, db.records, w);
    EndpointTotalsAddUp(items, db.records, missed);
    TotalsSubtract(items, BreakdownTotal(db, s, a, b), PerEndpoint(db.records, w), PerEndpoint(db.records, missed));
    CountsAreTotals(items, BreakdownTotal(db, s, a, b));
  }

  /** Per subscription and day, the endpoint table sums to the daily table less the usage it misses. */
  lemma EndpointTableSumsToDailyTable(db: UsageDb, s: Id, day: int)
    requires Valid(db) && IsUtcDayBoundary(day)
    ensures SumEndpointDaily(db, s, None, day, day + MS_PER_DAY) + MissedUsage(db, s, None, day, day + MS_PER_DAY)
         == SumDaily(db, s, day, day + MS_PER_DAY)
  {
    var w := Where(s, None, day, day + MS_PER_DAY, AnyRow);
    assert DayStart(day + MS_PER_DAY) == day + MS_PER_DAY;
    SplitRows(db.records, w);
    assert SumEndpointDaily(db, s, None, day, day + MS_PER_DAY) == SumRaw(db.records, w.(rows := OnlyEndpointCounted));
    assert SumDaily(db, s, day, day + MS_PER_DAY) == SumRaw(db.records, w.(rows := OnlyAggregated));
  }
}
