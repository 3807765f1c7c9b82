/** Usage records, the two daily tables that pre-aggregate them, and the window queries answered
    from both. Tables are sequences of rows; identifiers are opaque numbers. */
module UsageIndex {
  import opened Common
  import opened CounterTable
  import opened UtcCalendar

  type Id = nat

  /** endpointCounted is not a column: it remembers whether the transaction that counted the row in
      the daily table counted it in the endpoint table too. */
  datatype UsageRecord = UsageRecord(
    subscriptionId: Id,
    occurredAt: int,
    endpoint: string,
    requestCount: int,
    sourceJobId: Option<Id>,
    aggregatedAt: Option<int>,
    endpointCounted: bool)

  datatype DayKey = DayKey(subscriptionId: Id, bucketDate: int)

  datatype EndpointDayKey = EndpointDayKey(subscriptionId: Id, bucketDate: int, endpoint: string)

  /** aggregatedAt filters; aggregated rows divide into those the endpoint table counts and those it misses. */
  datatype RowFilter = AnyRow | OnlyUnaggregated | OnlyAggregated | OnlyEndpointCounted | OnlyEndpointMissed

  /** The where clauses the queries use; endpoint None means every endpoint. */
  datatype Where = Where(subscriptionId: Id, endpoint: Option<string>, from: int, until: int, rows: RowFilter)

  datatype UsageDb = UsageDb(
    records: seq<UsageRecord>,
    daily: seq<Row<DayKey>>,
    endpointDaily: seq<Row<EndpointDayKey>>)

  datatype UsageInput = UsageInput(
    subscriptionId: Id,
    occurredAt: int,
    endpoint: string,
    requestCount: int,
    sourceJobId: Option<Id>)

  // ---------------------------------------------------------------- queries

  predicate PassesFilter(r: UsageRecord, rows: RowFilter) {
    match rows
    case AnyRow => true
    case OnlyUnaggregated => r.aggregatedAt.None?
    case OnlyAggregated => r.aggregatedAt.Some?
    case OnlyEndpointCounted => r.aggregatedAt.Some? && r.endpointCounted
    case OnlyEndpointMissed => r.aggregatedAt.Some? && !r.endpointCounted
  }

  predicate Matches(r: UsageRecord, w: Where) {
    && r.subscriptionId == w.subscriptionId
    && (w.endpoint.Some? ==> r.endpoint == w.endpoint.value)
    && w.from <= r.occurredAt < w.until
    && PassesFilter(r, w.rows)
  }

  function SumRaw(rs: seq<UsageRecord>, w: Where): int {
    if rs == [] then 0
    else SumRaw(rs[..|rs| - 1], w) + if Matches(rs[|rs| - 1], w) then rs[|rs| - 1].requestCount else 0
  }

  /** The plain scan every window query has to agree with. */
  function ScanSum(rs: seq<UsageRecord>, subscriptionId: Id, from: int, until: int): int {
    SumRaw(rs, Where(subscriptionId, None, from, until, AnyRow))
  }

  function ScanEndpoint(rs: seq<UsageRecord>, subscriptionId: Id, endpoint: string, from: int, until: int): int {
    SumRaw(rs, Where(subscriptionId, Some(endpoint), from, until, AnyRow))
  }

  function DaysOf(subscriptionId: Id, from: int, until: int): DayKey -> bool {
    (k: DayKey) => k.subscriptionId == subscriptionId && from <= k.bucketDate < until
  }

  function EndpointDaysOf(subscriptionId: Id, endpoint: Option<string>, from: int, until: int): EndpointDayKey -> bool {
    (k: EndpointDayKey) =>
      && k.subscriptionId == subscriptionId
      && (endpoint.Some? ==> k.endpoint == endpoint.value)
      && from <= k.bucketDate < until
  }

  function SumDaily(db: UsageDb, subscriptionId: Id, from: int, until: int): int {
    SumWhere(db.daily, DaysOf(subscriptionId, from, until))
  }

  function SumEndpointDaily(db: UsageDb, subscriptionId: Id, endpoint: Option<string>, from: int, until: int): int {
    SumWhere(db.endpointDaily, EndpointDaysOf(subscriptionId, endpoint, from, until))
  }

  lemma {:induction false} SplitWindow(rs: seq<UsageRecord>, w: Where, at: int)
    requires w.from <= at <= w.until
    ensures SumRaw(rs, w) == SumRaw(rs, w.(until := at)) + SumRaw(rs, w.(from := at))
  {
    if rs != [] {
      SplitWindow(rs[..|rs| - 1], w, at);
    }
  }

  lemma {:induction false} SplitRows(rs: seq<UsageRecord>, w: Where)
    ensures SumRaw(rs, w.(rows := AnyRow))
         == SumRaw(rs, w.(rows := OnlyAggregated)) + SumRaw(rs, w.(rows := OnlyUnaggregated))
    ensures SumRaw(rs, w.(rows := OnlyAggregated))
         == SumRaw(rs, w.(rows := OnlyEndpointCounted)) + SumRaw(rs, w.(rows := OnlyEndpointMissed))
  {
    if rs != [] {
      SplitRows(rs[..|rs| - 1], w);
    }
  }

  lemma {:induction false} NoMatchSumsToZero(rs: seq<UsageRecord>, w: Where)
    requires forall r :: r in rs ==> !Matches(r, w)
    ensures SumRaw(rs, w) == 0
  {
    if rs != [] {
      NoMatchSumsToZero(rs[..|rs| - 1], w);
    }
  }

  lemma {:induction false} PositiveSum(rs: seq<UsageRecord>, w: Where)
    requires forall r :: r in rs ==> r.requestCount >= 1
    ensures SumRaw(rs, w) >= 0
    ensures SumRaw(rs, w) == 0 <==> forall r :: r in rs ==> !Matches(r, w)
  {
    if rs != [] {
      var init := rs[..|rs| - 1];
      PositiveSum(init, w);
      assert forall r :: r in rs <==> r in init || r == rs[|rs| - 1];
    }
  }

  lemma SumOfAppend(rs: seq<UsageRecord>, r: UsageRecord, w: Where)
    ensures SumRaw(rs + [r], w) == SumRaw(rs, w) + if Matches(r, w) then r.requestCount else 0
  {
    assert (rs + [r])[..|rs|] == rs;
  }

  /** A row falls in a span of whole days exactly when its day's bucket does. */
  lemma AlignedBucket(t: int, from: int, until: int)
    requires IsUtcDayBoundary(from) && IsUtcDayBoundary(until)
    ensures from <= DayStart(t) < until <==> from <= t < until
  {
  }

  // ---------------------------------------------------------------- reachable stores

  predicate SameJob(a: UsageRecord, b: UsageRecord) {
    a.sourceJobId.Some? && a.sourceJobId == b.sourceJobId
  }

  predicate JobRecorded(rs: seq<UsageRecord>, job: Id) {
    exists i :: 0 <= i < |rs| && rs[i].sourceJobId == Some(job)
  }

  ghost predicate DailyAgrees(db: UsageDb) {
    forall s, from, until :: IsUtcDayBoundary(from) && IsUtcDayBoundary(until) ==>
      SumDaily(db, s, from, until) == SumRaw(db.records, Where(s, None, from, until, OnlyAggregated))
  }

  ghost predicate EndpointDailyAgrees(db: UsageDb) {
    forall s, e, from, until :: IsUtcDayBoundary(from) && IsUtcDayBoundary(until) ==>
      SumEndpointDaily(db, s, e, from, until) == SumRaw(db.records, Where(s, e, from, until, OnlyEndpointCounted))
  }

  ghost predicate PositiveCounts(rs: seq<UsageRecord>) {
    forall r :: r in rs ==> r.requestCount >= 1
  }

  ghost predicate JobsRecordedOnce(rs: seq<UsageRecord>) {
    forall i, j :: 0 <= i < j < |rs| ==> !SameJob(rs[i], rs[j])
  }

  /** What every reachable store satisfies. */
  ghost predicate Valid(db: UsageDb) {
    && PositiveCounts(db.records)
    && JobsRecordedOnce(db.records)
    && UniqueKeys(db.daily) && Positive(db.daily)
    && UniqueKeys(db.endpointDaily) && Positive(db.endpointDaily)
    && DailyAgrees(db)
    && EndpointDailyAgrees(db)
  }

  function NewRecord(input: UsageInput, aggregatedAt: Option<int>, endpointCounted: bool): UsageRecord {
    UsageRecord(input.subscriptionId, input.occurredAt, input.endpoint, input.requestCount, input.sourceJobId,
                aggregatedAt, endpointCounted)
  }

  function DailyUpserted(daily: seq<Row<DayKey>>, input: UsageInput): seq<Row<DayKey>> {
    Upsert(daily, DayKey(input.subscriptionId, DayStart(input.occurredAt)), input.requestCount)
  }

  function EndpointUpserted(rows: seq<Row<EndpointDayKey>>, input: UsageInput): seq<Row<EndpointDayKey>> {
    Upsert(rows, EndpointDayKey(input.subscriptionId, DayStart(input.occurredAt), input.endpoint), input.requestCount)
  }

  /** The store after recordUsageInTransaction commits. */
  function Recorded(db: UsageDb, input: UsageInput, now: int): UsageDb {
    UsageDb(db.records + [NewRecord(input, Some(now), true)],
            DailyUpserted(db.daily, input),
            EndpointUpserted(db.endpointDaily, input))
  }

  /** Recording adds exactly the given count, for its subscription and endpoint, to the windows its time lies in, and
      marks exactly its job as recorded. */
  lemma RecordedIsCounted(db: UsageDb, input: UsageInput, now: int)
    ensures var after := Recorded(db, input, now).records;
            && (forall s, e, from, until :: ScanEndpoint(after, s, e, from, until)
                  == ScanEndpoint(db.records, s, e, from, until)
                     + if s == input.subscriptionId && e == input.endpoint && from <= input.occurredAt < until
                       then input.requestCount else 0)
            && (forall s, from, until :: ScanSum(after, s, from, until)
                  == ScanSum(db.records, s, from, until)
                     + if s == input.subscriptionId && from <= input.occurredAt < until then input.requestCount else 0)
            && (forall job: Id ::
                  JobRecorded(after, job) <==> JobRecorded(db.records, job) || input.sourceJobId == Some(job))
  {
    var r := NewRecord(input, Some(now), true);
    forall s, e, from, until
      ensures ScanEndpoint(db.records + [r], s, e, from, until) == ScanEndpoint(db.records, s, e, from, until)
                 + if s == input.subscriptionId && e == input.endpoint && from <= input.occurredAt < until
                   then input.requestCount else 0
    {
      SumOfAppend(db.records, r, Where(s, Some(e), from, until, AnyRow));
    }
    forall s, from, until
      ensures ScanSum(db.records + [r], s, from, until) == ScanSum(db.records, s, from, until)
                 + if s == input.subscriptionId && from <= input.occurredAt < until then input.requestCount else 0
    {
      SumOfAppend(db.records, r, Where(s, None, from, until, AnyRow));
    }
    forall job: Id
      ensures JobRecorded(db.records + [r], job) <==> JobRecorded(db.records, job) || input.sourceJobId == Some(job)
    {
      if JobRecorded(db.records, job) {
        var i :| 0 <= i < |db.records| && db.records[i].sourceJobId == Some(job);
        assert (db.records + [r])[i].sourceJobId == Some(job);
      }
      if input.sourceJobId == Some(job) {
        assert (db.records + [r])[|db.records|].sourceJobId == Some(job);
      }
    }
  }

  /** The unique index on sourceJobId lets a record in only if no record has its job. */
  predicate Admits(db: UsageDb, input: UsageInput) {
    input.sourceJobId.Some? ==> !JobRecorded(db.records, input.sourceJobId.value)
  }

  /** What can happen to the store: recording usage as this release does, and what came before it.
      Earlier releases wrote rows no table counted, then rows only the daily table counted; the migration
      that created the daily table counted existing rows into it, the one that created the endpoint table did not. */
  datatype Step =
    | RecordUsage(input: UsageInput, now: int)
    | LegacyInsert(input: UsageInput)
    | DailyOnlyInsert(input: UsageInput, now: int)
    | BackfillDailyTable(now: int)

  const EMPTY_DB: UsageDb := UsageDb([], [], [])

  /** INSERT INTO UsageDailyAggregate SELECT ... SUM(requestCount) ... GROUP BY subscription and day */
  function Backfilled(rs: seq<UsageRecord>): seq<Row<DayKey>> {
    if rs == [] then []
    else
      var r := rs[|rs| - 1];
      Upsert(Backfilled(rs[..|rs| - 1]), DayKey(r.subscriptionId, DayStart(r.occurredAt)), r.requestCount)
  }

  /** UPDATE UsageRecord SET aggregatedAt = CURRENT_TIMESTAMP WHERE aggregatedAt IS NULL, on rows all of which are
      NULL */
  function MarkAggregated(rs: seq<UsageRecord>, now: int): seq<UsageRecord> {
    if rs == [] then []
    else MarkAggregated(rs[..|rs| - 1], now) + [rs[|rs| - 1].(aggregatedAt := Some(now), endpointCounted := false)]
  }

  predicate Enabled(db: UsageDb, step: Step) {
    match step
    case RecordUsage(input, _) => input.requestCount >= 1 && Admits(db, input)
    case LegacyInsert(input) => input.requestCount >= 1 && Admits(db, input)
    case DailyOnlyInsert(input, _) => input.requestCount >= 1 && Admits(db, input)
    case BackfillDailyTable(_) =>
      db.daily == [] && db.endpointDaily == [] && forall r :: r in db.records ==> r.aggregatedAt.None?
  }

  /** A step that is not enabled leaves the store as it is. */
  function Apply(db: UsageDb, step: Step): UsageDb {
    if !Enabled(db, step) then db
    else match step
      case RecordUsage(input, now) => Recorded(db, input, now)
      case LegacyInsert(input) => db.(records := db.records + [NewRecord(input, None, false)])
      case DailyOnlyInsert(input, now) =>
        db.(records := db.records + [NewRecord(input, Some(now), false)], daily := DailyUpserted(db.daily, input))
      case BackfillDailyTable(now) =>
        UsageDb(MarkAggregated(db.records, now), Backfilled(db.records), [])
  }

  function Run(db: UsageDb, steps: seq<Step>): UsageDb {
    if steps == [] then db else Apply(Run(db, steps[..|steps| - 1]), steps[|steps| - 1])
  }

  lemma DailyUpsertAdds(daily: seq<Row<DayKey>>, input: UsageInput, s: Id, from: int, until: int)
    requires IsUtcDayBoundary(from) && IsUtcDayBoundary(until)
    ensures SumWhere(DailyUpserted(daily, input), DaysOf(s, from, until))
         == SumWhere(daily, DaysOf(s, from, until))
            + if input.subscriptionId == s && from <= input.occurredAt < until then input.requestCount else 0
  {
    AlignedBucket(input.occurredAt, from, until);
    UpsertAddsToSum(daily, DayKey(input.subscriptionId, DayStart(input.occurredAt)), input.requestCount,
                    DaysOf(s, from, until));
  }

  lemma EndpointUpsertAdds(
    rows: seq<Row<EndpointDayKey>>, input: UsageInput, s: Id, e: Option<string>, from: int, until: int)
    requires IsUtcDayBoundary(from) && IsUtcDayBoundary(until)
    ensures SumWhere(EndpointUpserted(rows, input), EndpointDaysOf(s, e, from, until))
         == SumWhere(rows, EndpointDaysOf(s, e, from, until))
            + if input.subscriptionId == s && (e.Some? ==> input.endpoint == e.value)
                && from <= input.occurredAt < until
              then input.requestCount else 0
  {
    AlignedBucket(input.occurredAt, from, until);
    UpsertAddsToSum(rows, EndpointDayKey(input.subscriptionId, DayStart(input.occurredAt), input.endpoint),
                    input.requestCount, EndpointDaysOf(s, e, from, until));
  }

  lemma AppendKeepsRecords(db: UsageDb, input: UsageInput, at: Option<int>, counted: bool)
    requires PositiveCounts(db.records) && JobsRecordedOnce(db.records)
    requires input.requestCount >= 1 && Admits(db, input)
    ensures PositiveCounts(db.records + [NewRecord(input, at, counted)])
    ensures JobsRecordedOnce(db.records + [NewRecord(input, at, counted)])
  {
  }

  /** An aggregated row and its daily count arrive together. */
  lemma DailyInsertAgrees(db: UsageDb, after: UsageDb, input: UsageInput, now: int, counted: bool)
    requires DailyAgrees(db)
    requires after.records == db.records + [NewRecord(input, Some(now), counted)]
    requires after.daily == DailyUpserted(db.daily, input)
    ensures DailyAgrees(after)
  {
    forall s, from, until | IsUtcDayBoundary(from) && IsUtcDayBoundary(until)
      ensures SumDaily(after, s, from, until) == SumRaw(after.records, Where(s, None, from, until, OnlyAggregated))
    {
      DailyUpsertAdds(db.daily, input, s, from, until);
      SumOfAppend(db.records, NewRecord(input, Some(now), counted), Where(s, None, from, until, OnlyAggregated));
      assert SumDaily(db, s, from, until) == SumRaw(db.records, Where(s, None, from, until, OnlyAggregated));
    }
  }

  lemma EndpointInsertAgrees(db: UsageDb, input: UsageInput, now: int)
    requires EndpointDailyAgrees(db)
    ensures EndpointDailyAgrees(Recorded(db, input, now))
  {
    var after := Recorded(db, input, now);
    forall s, e, from, until | IsUtcDayBoundary(from) && IsUtcDayBoundary(until)
      ensures SumEndpointDaily(after, s, e, from, until)
          == SumRaw(after.records, Where(s, e, from, until, OnlyEndpointCounted))
    {
      EndpointUpsertAdds(db.endpointDaily, input, s, e, from, until);
      SumOfAppend(db.records, NewRecord(input, Some(now), true), Where(s, e, from, until, OnlyEndpointCounted));
      assert SumEndpointDaily(db, s, e, from, until)
          == SumRaw(db.records, Where(s, e, from, until, OnlyEndpointCounted));
    }
  }

  /** Rows the endpoint table does not count leave it in agreement. */
  lemma UncountedInsertAgrees(db: UsageDb, after: UsageDb, input: UsageInput, at: Option<int>)
    requires EndpointDailyAgrees(db)
    requires after.records == db.records + [NewRecord(input, at, false)] && after.endpointDaily == db.endpointDaily
    ensures EndpointDailyAgrees(after)
  {
    forall s, e, from, until | IsUtcDayBoundary(from) && IsUtcDayBoundary(until)
      ensures SumEndpointDaily(after, s, e, from, until)
          == SumRaw(after.records, Where(s, e, from, until, OnlyEndpointCounted))
    {
      SumOfAppend(db.records, NewRecord(input, at, false), Where(s, e, from, until, OnlyEndpointCounted));
      assert SumEndpointDaily(db, s, e, from, until)
          == SumRaw(db.records, Where(s, e, from, until, OnlyEndpointCounted));
    }
  }

  lemma RecordedIsValid(db: UsageDb, input: UsageInput, now: int)
    requires Valid(db) && input.requestCount >= 1 && Admits(db, input)
    ensures Valid(Recorded(db, input, now))
  {
    AppendKeepsRecords(db, input, Some(now), true);
    UpsertKeepsTable(db.daily, DayKey(input.subscriptionId, DayStart(input.occurredAt)), input.requestCount);
    UpsertKeepsTable(db.endpointDaily, EndpointDayKey(input.subscriptionId, DayStart(input.occurredAt), input.endpoint),
                     input.requestCount);
    DailyInsertAgrees(db, Recorded(db, input, now), input, now, true);
    EndpointInsertAgrees(db, input, now);
  }

  lemma LegacyInsertIsValid(db: UsageDb, input: UsageInput)
    requires Valid(db) && input.requestCount >= 1 && Admits(db, input)
    ensures Valid(Apply(db, LegacyInsert(input)))
  {
    var after := Apply(db, LegacyInsert(input));
    AppendKeepsRecords(db, input, None, false);
    forall s, from, until | IsUtcDayBoundary(from) && IsUtcDayBoundary(until)
      ensures SumDaily(after, s, from, until) == SumRaw(after.records, Where(s, None, from, until, OnlyAggregated))
    {
      SumOfAppend(db.records, NewRecord(input, None, false), Where(s, None, from, until, OnlyAggregated));
      assert SumDaily(db, s, from, until) == SumRaw(db.records, Where(s, None, from, until, OnlyAggregated));
    }
    UncountedInsertAgrees(db, after, input, None);
  }

  lemma DailyOnlyInsertIsValid(db: UsageDb, input: UsageInput, now: int)
    requires Valid(db) && input.requestCount >= 1 && Admits(db, input)
    ensures Valid(Apply(db, DailyOnlyInsert(input, now)))
  {
    var after := Apply(db, DailyOnlyInsert(input, now));
    AppendKeepsRecords(db, input, Some(now), false);
    UpsertKeepsTable(db.daily, DayKey(input.subscriptionId, DayStart(input.occurredAt)), input.requestCount);
    DailyInsertAgrees(db, after, input, now, false);
    UncountedInsertAgrees(db, after, input, Some(now));
  }

  lemma {:induction false} BackfillCountsEveryRow(rs: seq<UsageRecord>, s: Id, from: int, until: int)
    requires IsUtcDayBoundary(from) && IsUtcDayBoundary(until)
    ensures SumWhere(Backfilled(rs), DaysOf(s, from, until)) == ScanSum(rs, s, from, until)
  {
    if rs != [] {
      var r := rs[|rs| - 1];
      BackfillCountsEveryRow(rs[..|rs| - 1], s, from, until);
      AlignedBucket(r.occurredAt, from, until);
      UpsertAddsToSum(Backfilled(rs[..|rs| - 1]), DayKey(r.subscriptionId, DayStart(r.occurredAt)), r.requestCount,
                      DaysOf(s, from, until));
    }
  }

  lemma {:induction false} BackfillIsTable(rs: seq<UsageRecord>)
    requires PositiveCounts(rs)
    ensures UniqueKeys(Backfilled(rs)) && Positive(Backfilled(rs))
  {
    if rs != [] {
      var r := rs[|rs| - 1];
      BackfillIsTable(rs[..|rs| - 1]);
      UpsertKeepsTable(Backfilled(rs[..|rs| - 1]), DayKey(r.subscriptionId, DayStart(r.occurredAt)), r.requestCount);
    }
  }

  lemma {:induction false} MarkedRows(rs: seq<UsageRecord>, now: int)
    ensures var marked := MarkAggregated(rs, now);
            && |marked| == |rs|
            && (forall i :: 0 <= i < |rs| ==> marked[i] == rs[i].(aggregatedAt := Some(now), endpointCounted := false))
  {
    if rs != [] {
      MarkedRows(rs[..|rs| - 1], now);
    }
  }

  lemma {:induction false} MarkedSums(rs: seq<UsageRecord>, now: int, w: Where)
    ensures SumRaw(MarkAggregated(rs, now), w.(rows := OnlyAggregated)) == SumRaw(rs, w.(rows := AnyRow))
    ensures SumRaw(MarkAggregated(rs, now), w.(rows := OnlyEndpointCounted)) == 0
  {
    if rs != [] {
      MarkedSums(rs[..|rs| - 1], now, w);
      var last := rs[|rs| - 1].(aggregatedAt := Some(now), endpointCounted := false);
      SumOfAppend(MarkAggregated(rs[..|rs| - 1], now), last, w.(rows := OnlyAggregated));
      SumOfAppend(MarkAggregated(rs[..|rs| - 1], now), last, w.(rows := OnlyEndpointCounted));
    }
  }

  lemma BackfillIsValid(db: UsageDb, now: int)
    requires Valid(db) && Enabled(db, BackfillDailyTable(now))
    ensures Valid(Apply(db, BackfillDailyTable(now)))
  {
    var after := Apply(db, BackfillDailyTable(now));
    MarkedRows(db.records, now);
    BackfillIsTable(db.records);
    forall s, from, until | IsUtcDayBoundary(from) && IsUtcDayBoundary(until)
      ensures SumDaily(after, s, from, until) == SumRaw(after.records, Where(s, None, from, until, OnlyAggregated))
    {
      BackfillCountsEveryRow(db.records, s, from, until);
      MarkedSums(db.records, now, Where(s, None, from, until, AnyRow));
    }
    forall s, e, from, until | IsUtcDayBoundary(from) && IsUtcDayBoundary(until)
      ensures SumEndpointDaily(after, s, e, from, until)
          == SumRaw(after.records, Where(s, e, from, until, OnlyEndpointCounted))
    {
      MarkedSums(db.records, now, Where(s, e, from, until, AnyRow));
    }
    assert PositiveCounts(after.records);
    assert JobsRecordedOnce(after.records) by {
      forall i, j | 0 <= i < j < |after.records|
        ensures !SameJob(after.records[i], after.records[j])
      {
        assert !SameJob(db.records[i], db.records[j]);
      }
    }
  }

  /** Both tables agree with the records after every history, migrations included. */
  lemma {:induction false} EveryReachableStoreIsValid(steps: seq<Step>)
    ensures Valid(Run(EMPTY_DB, steps))
  {
    if steps == [] {
    } else {
      EveryReachableStoreIsValid(steps[..|steps| - 1]);
      var db := Run(EMPTY_DB, steps[..|steps| - 1]);
      var step := steps[|steps| - 1];
      if Enabled(db, step) {
        match step
        case RecordUsage(input, now) => RecordedIsValid(db, input, now);
        case LegacyInsert(input) => LegacyInsertIsValid(db, input);
        case DailyOnlyInsert(input, now) => DailyOnlyInsertIsValid(db, input, now);
        case BackfillDailyTable(now) => BackfillIsValid(db, now);
      }
    }
  }
}
