/** Any number of workers on the ingest queue, interleaved: leases may lapse mid-batch, several workers
    may have fetched the same job, transactions may fail, commit and report failure, or lose to the
    unique index, and a late failure mark may overwrite PROCESSED. */
module IngestRuns {
  import opened Common
  import opened CounterTable
  import opened UtcCalendar
  import opened UsageIndex
  import opened UsageStore
  import opened IngestQueue

  type TaskId = nat

  datatype Phase = HasJob | SawDuplicate | SawError(error: string)

  /** One worker's handling of one job it fetched. */
  datatype Task = Task(job: QueueJob, phase: Phase)

  datatype State = State(db: UsageDb, jobs: seq<Job>, tasks: map<TaskId, Task>)

  datatype Action =
    | EnqueueJob(usage: UsageInput, now: int)
    | RecordDirectly(usage: UsageInput, now: int)
    | Fetch(task: TaskId, job: Id, now: int)
    | CommitTransaction(task: TaskId, now: int, reportedError: Option<string>)
    | HitDuplicate(task: TaskId)
    | FailTransaction(task: TaskId, error: string)
    | WriteProcessed(task: TaskId, now: int)
    | WriteFailed(task: TaskId, now: int)
    | Crash(task: TaskId)

  predicate Enabled(s: State, a: Action) {
    match a
    case EnqueueJob(usage, _) => usage.requestCount >= 1
    case RecordDirectly(usage, _) => usage.requestCount >= 1 && usage.sourceJobId.None?
    case Fetch(task, job, now) => task !in s.tasks && job < |s.jobs| && Due(s.jobs[job], now)
    case CommitTransaction(task, _, _) =>
      task in s.tasks && s.tasks[task].phase.HasJob? && s.tasks[task].job.id < |s.jobs|
          && !JobRecorded(s.db.records, s.tasks[task].job.id)
    case HitDuplicate(task) => task in s.tasks && s.tasks[task].phase.HasJob?
        && JobRecorded(s.db.records, s.tasks[task].job.id)
    case FailTransaction(task, _) => task in s.tasks && s.tasks[task].phase.HasJob?
    case WriteProcessed(task, _) => task in s.tasks && s.tasks[task].phase.SawDuplicate?
        && s.tasks[task].job.id < |s.jobs|
    case WriteFailed(task, _) => task in s.tasks && s.tasks[task].phase.SawError? && s.tasks[task].job.id < |s.jobs|
    case Crash(task) => task in s.tasks
  }

  function Moved(s: State, task: TaskId, phase: Phase): State
    requires task in s.tasks
  {
    s.(tasks := s.tasks[task := s.tasks[task].(phase := phase)])
  }

  /** An action that is not enabled leaves the state as it is. */
  function Apply(s: State, a: Action): State {
    if !Enabled(s, a) then s
    else match a
      case EnqueueJob(usage, now) => s.(jobs := s.jobs + [NewJob(usage, now)])
      case RecordDirectly(usage, now) => s.(db := Recorded(s.db, usage, now))
      case Fetch(task, job, _) => s.(tasks := s.tasks[task := Task(Fetched(s.jobs, job), HasJob)])
      case CommitTransaction(task, now, reportedError) =>
        var job := s.tasks[task].job;
        var committed :=
            s.(db := Recorded(s.db, job.usage, now), jobs := s.jobs[job.id := MarkedProcessed(s.jobs[job.id], now)]);
        if reportedError.Some? then Moved(committed, task, SawError(reportedError.value))
        else committed.(tasks := s.tasks - {task})
      case HitDuplicate(task) => Moved(s, task, SawDuplicate)
      case FailTransaction(task, error) => Moved(s, task, SawError(error))
      case WriteProcessed(task, now) =>
        var id := s.tasks[task].job.id;
        s.(jobs := s.jobs[id := MarkedProcessed(s.jobs[id], now)], tasks := s.tasks - {task})
      case WriteFailed(task, now) =>
        var t := s.tasks[task];
        s.(jobs := s.jobs[t.job.id := MarkedFailed(s.jobs[t.job.id], t.job.attempts + 1, t.phase.error, now)],
           tasks := s.tasks - {task})
      case Crash(task) => s.(tasks := s.tasks - {task})
  }

  function Run(s: State, actions: seq<Action>): State {
    if actions == [] then s else Apply(Run(s, actions[..|actions| - 1]), actions[|actions| - 1])
  }

  const INITIAL: State := State(EMPTY_DB, [], map[])

  // ---------------------------------------------------------------- the invariant

  predicate IsRecordOf(r: UsageRecord, usage: UsageInput) {
    && r.subscriptionId == usage.subscriptionId && r.occurredAt == usage.occurredAt
    && r.endpoint == usage.endpoint && r.requestCount == usage.requestCount
    && r.sourceJobId == usage.sourceJobId && r.aggregatedAt.Some?
  }

  ghost predicate RecordsComeFromJobs(rs: seq<UsageRecord>, jobs: seq<Job>) {
    forall i :: 0 <= i < |rs| && rs[i].sourceJobId.Some? ==>
      rs[i].sourceJobId.value < |jobs| && IsRecordOf(rs[i], JobUsage(jobs, rs[i].sourceJobId.value))
  }

  ghost predicate Inv(s: State) {
    && Valid(s.db)
    && PositiveJobs(s.jobs)
    && (forall r :: r in s.db.records ==> r.aggregatedAt.Some?)
    && RecordsComeFromJobs(s.db.records, s.jobs)
    && (forall id: Id :: id < |s.jobs| && s.jobs[id].status.PROCESSED? ==> JobRecorded(s.db.records, id))
    && (forall t :: t in s.tasks ==>
          && s.tasks[t].job.id < |s.jobs| && s.tasks[t].job.usage == JobUsage(s.jobs, s.tasks[t].job.id)
          && (s.tasks[t].phase.SawDuplicate? ==> JobRecorded(s.db.records, s.tasks[t].job.id)))
  }

  lemma RecordingKeepsJobsRecorded(rs: seq<UsageRecord>, r: UsageRecord, id: Id)
    ensures JobRecorded(rs + [r], id) <==> JobRecorded(rs, id) || r.sourceJobId == Some(id)
  {
    if JobRecorded(rs, id) {
      var i :| 0 <= i < |rs| && rs[i].sourceJobId == Some(id);
      assert (rs + [r])[i].sourceJobId == Some(id);
    }
    if r.sourceJobId == Some(id) {
      assert (rs + [r])[|rs|].sourceJobId == Some(id);
    }
  }

  /** The usage of every job stays what it was enqueued with. */
  ghost predicate SameUsage(jobs: seq<Job>, after: seq<Job>) {
    |jobs| <= |after| && forall id: Id :: id < |jobs| ==> JobUsage(after, id) == JobUsage(jobs, id)
  }

  /** What a worker still holds is as it fetched it, and no new duplicate is claimed. */
  ghost predicate TasksKept(s: State, after: State) {
    forall t :: t in after.tasks && t in s.tasks ==>
      after.tasks[t].job == s.tasks[t].job && (after.tasks[t].phase.SawDuplicate? ==> s.tasks[t].phase.SawDuplicate?)
  }

  lemma CommitKeepsRecords(s: State, after: State, job: QueueJob, now: int)
    requires Inv(s) && job.id < |s.jobs| && job.usage == JobUsage(s.jobs, job.id) && SameUsage(s.jobs, after.jobs)
    requires after.db.records == s.db.records + [NewRecord(job.usage, Some(now), true)]
    ensures (forall r :: r in after.db.records ==> r.aggregatedAt.Some?)
    ensures RecordsComeFromJobs(after.db.records, after.jobs)
    ensures forall id: Id :: JobRecorded(after.db.records, id) <==> JobRecorded(s.db.records, id) || id == job.id
  {
    forall id: Id
      ensures JobRecorded(after.db.records, id) <==> JobRecorded(s.db.records, id) || id == job.id
    {
      RecordingKeepsJobsRecorded(s.db.records, NewRecord(job.usage, Some(now), true), id);
    }
  }

  lemma CommitKeepsInv(s: State, a: Action)
    requires Inv(s) && Enabled(s, a) && a.CommitTransaction?
    ensures Inv(Apply(s, a))
  {
    var job := s.tasks[a.task].job;
    var after := Apply(s, a);
    RecordedIsValid(s.db, job.usage, a.now);
    assert SameUsage(s.jobs, after.jobs);
    CommitKeepsRecords(s, after, job, a.now);
    assert TasksKept(s, after);
  }

  lemma DirectRecordKeepsInv(s: State, a: Action)
    requires Inv(s) && Enabled(s, a) && a.RecordDirectly?
    ensures Inv(Apply(s, a))
  {
    var after := Apply(s, a);
    RecordedIsValid(s.db, a.usage, a.now);
    forall id: Id
      ensures JobRecorded(after.db.records, id) <==> JobRecorded(s.db.records, id)
    {
      RecordingKeepsJobsRecorded(s.db.records, NewRecord(a.usage, Some(a.now), true), id);
    }
  }

  lemma UnrecordedKeepsInv(s: State, after: State)
    requires Inv(s) && after.db == s.db && SameUsage(s.jobs, after.jobs) && PositiveJobs(after.jobs)
    requires forall id: Id :: id < |after.jobs| && after.jobs[id].status.PROCESSED? ==> JobRecorded(s.db.records, id)
    requires forall t :: t in after.tasks ==>
               && after.tasks[t].job.id < |s.jobs|
                  && after.tasks[t].job.usage == JobUsage(s.jobs, after.tasks[t].job.id)
               && (after.tasks[t].phase.SawDuplicate? ==> JobRecorded(s.db.records, after.tasks[t].job.id))
    ensures Inv(after)
  {
  }

  /** Actions that write no usage: a job is marked PROCESSED only by a worker that saw its record. */
  lemma OtherActionKeepsInv(s: State, a: Action)
    requires Inv(s) && Enabled(s, a) && !a.CommitTransaction? && !a.RecordDirectly?
    ensures Inv(Apply(s, a))
  {
    var after := Apply(s, a);
    assert after.db == s.db;
    assert SameUsage(s.jobs, after.jobs);
    UnrecordedKeepsInv(s, after);
  }

  lemma {:induction false} EveryRunKeepsInv(actions: seq<Action>)
    ensures Inv(Run(INITIAL, actions))
  {
    if actions == [] {
    } else {
      EveryRunKeepsInv(actions[..|actions| - 1]);
      var s := Run(INITIAL, actions[..|actions| - 1]);
      var a := actions[|actions| - 1];
      if Enabled(s, a) {
        if a.CommitTransaction? {
          CommitKeepsInv(s, a);
        } else if a.RecordDirectly? {
          DirectRecordKeepsInv(s, a);
        } else {
          OtherActionKeepsInv(s, a);
        }
      }
    }
  }

  // ---------------------------------------------------------------- exactly once

  function RecordCount(rs: seq<UsageRecord>, job: Id): nat {
    if rs == [] then 0
    else RecordCount(rs[..|rs| - 1], job) + if rs[|rs| - 1].sourceJobId == Some(job) then 1 else 0
  }

  lemma {:induction false} RecordCountIsPresence(rs: seq<UsageRecord>, job: Id)
    requires JobsRecordedOnce(rs)
    ensures RecordCount(rs, job) == if JobRecorded(rs, job) then 1 else 0
  {
    if rs != [] {
      var init, last := rs[..|rs| - 1], rs[|rs| - 1];
      RecordCountIsPresence(init, job);
      assert init + [last] == rs;
      RecordingKeepsJobsRecorded(init, last, job);
      if JobRecorded(init, job) {
        var i :| 0 <= i < |init| && init[i].sourceJobId == Some(job);
        assert !SameJob(rs[i], rs[|rs| - 1]);
      }
    }
  }

  /** However workers interleave and fail, a job has at most one usage record, and a job marked
      PROCESSED has exactly one, with the job's own usage. */
  lemma EachJobIsCountedOnce(actions: seq<Action>, job: Id)
    ensures var s := Run(INITIAL, actions);
            && RecordCount(s.db.records, job) <= 1
            && (job < |s.jobs| && s.jobs[job].status.PROCESSED? ==> RecordCount(s.db.records, job) == 1)
            && (forall r :: r in s.db.records && r.sourceJobId == Some(job) ==>
                  job < |s.jobs| && IsRecordOf(r, JobUsage(s.jobs, job)))
  {
    EveryRunKeepsInv(actions);
    RecordCountIsPresence(Run(INITIAL, actions).db.records, job);
  }

  // ---------------------------------------------------------------- conservation

  predicate InWindow(subscriptionId: Id, occurredAt: int, s: Id, from: int, until: int) {
    subscriptionId == s && from <= occurredAt < until
  }

  /** Usage for s in a window that a run's enqueue actions ask to be counted. */
  function AskedByJobs(actions: seq<Action>, s: Id, from: int, until: int): int {
    if actions == [] then 0
    else
      var a := actions[|actions| - 1];
      AskedByJobs(actions[..|actions| - 1], s, from, until)
      + if a.EnqueueJob? && a.usage.requestCount >= 1
          && InWindow(a.usage.subscriptionId, a.usage.occurredAt, s, from, until)
        then a.usage.requestCount else 0
  }

  /** Usage for s in a window that a run's recordings past the queue ask to be counted. */
  function AskedDirectly(actions: seq<Action>, s: Id, from: int, until: int): int {
    if actions == [] then 0
    else
      var a := actions[|actions| - 1];
      AskedDirectly(actions[..|actions| - 1], s, from, until)
      + if a.RecordDirectly? && a.usage.requestCount >= 1 && a.usage.sourceJobId.None?
          && InWindow(a.usage.subscriptionId, a.usage.occurredAt, s, from, until)
        then a.usage.requestCount else 0
  }

  /** Usage enqueued for s in a window by the first n jobs. */
  function Enqueued(jobs: seq<Job>, n: nat, s: Id, from: int, until: int): int
    requires n <= |jobs|
  {
    if n == 0 then 0
    else Enqueued(jobs, n - 1, s, from, until)
         + if InWindow(jobs[n - 1].subscriptionId, jobs[n - 1].occurredAt, s, from, until)
             then jobs[n - 1].requestCount else 0
  }

  /** The part of it whose jobs have no record yet. */
  function Waiting(jobs: seq<Job>, n: nat, rs: seq<UsageRecord>, s: Id, from: int, until: int): int
    requires n <= |jobs|
  {
    if n == 0 then 0
    else Waiting(jobs, n - 1, rs, s, from, until)
         + if InWindow(jobs[n - 1].subscriptionId, jobs[n - 1].occurredAt, s, from, until) && !JobRecorded(rs, n - 1)
           then jobs[n - 1].requestCount else 0
  }

  /** Recorded usage that came from jobs. */
  function RecordedFromJobs(rs: seq<UsageRecord>, s: Id, from: int, until: int): int {
    if rs == [] then 0
    else
      var r := rs[|rs| - 1];
      RecordedFromJobs(rs[..|rs| - 1], s, from, until)
      + if r.sourceJobId.Some? && InWindow(r.subscriptionId, r.occurredAt, s, from, until) then r.requestCount else 0
  }

  lemma {:induction false} NothingRecordedAllWaits(jobs: seq<Job>, n: nat, s: Id, from: int, until: int)
    requires n <= |jobs|
    ensures Waiting(jobs, n, [], s, from, until) == Enqueued(jobs, n, s, from, until)
  {
    if n > 0 {
      NothingRecordedAllWaits(jobs, n - 1, s, from, until);
    }
  }

  /** Recording a waiting job's usage takes exactly that usage off what waits. */
  lemma {:induction false} RecordingReducesWaiting(
    jobs: seq<Job>, n: nat, rs: seq<UsageRecord>, r: UsageRecord, s: Id, from: int, until: int)
    requires n <= |jobs|
    requires r.sourceJobId.Some? ==>
               && r.sourceJobId.value < |jobs| && IsRecordOf(r, JobUsage(jobs, r.sourceJobId.value))
               && !JobRecorded(rs, r.sourceJobId.value)
    ensures Waiting(jobs, n, rs + [r], s, from, until)
         == Waiting(jobs, n, rs, s, from, until)
            - if r.sourceJobId.Some? && r.sourceJobId.value < n
                && InWindow(r.subscriptionId, r.occurredAt, s, from, until)
              then r.requestCount else 0
  {
    if n > 0 {
      RecordingReducesWaiting(jobs, n - 1, rs, r, s, from, until);
      RecordingKeepsJobsRecorded(rs, r, n - 1);
    }
  }

  lemma {:induction false} RecordedAndWaitingAddUp(jobs: seq<Job>, rs: seq<UsageRecord>, s: Id, from: int, until: int)
    requires RecordsComeFromJobs(rs, jobs) && JobsRecordedOnce(rs)
    ensures RecordedFromJobs(rs, s, from, until) + Waiting(jobs, |jobs|, rs, s, from, until)
         == Enqueued(jobs, |jobs|, s, from, until)
    decreases |rs|
  {
    if rs == [] {
      NothingRecordedAllWaits(jobs, |jobs|, s, from, until);
    } else {
      var init, r := rs[..|rs| - 1], rs[|rs| - 1];
      assert init + [r] == rs;
      RecordedAndWaitingAddUp(jobs, init, s, from, until);
      if r.sourceJobId.Some? && JobRecorded(init, r.sourceJobId.value) {
        var i :| 0 <= i < |init| && init[i].sourceJobId == r.sourceJobId;
        assert SameJob(rs[i], rs[|rs| - 1]);
      }
      RecordingReducesWaiting(jobs, |jobs|, init, r, s, from, until);
    }
  }

  lemma {:induction false} SameUsageSameEnqueued(
    jobs: seq<Job>, after: seq<Job>, n: nat, s: Id, from: int, until: int)
    requires n <= |jobs| && SameUsage(jobs, after)
    ensures Enqueued(after, n, s, from, until) == Enqueued(jobs, n, s, from, until)
  {
    if n > 0 {
      SameUsageSameEnqueued(jobs, after, n - 1, s, from, until);
      assert JobUsage(after, n - 1) == JobUsage(jobs, n - 1);
    }
  }

  lemma StepKeepsUsage(s: State, a: Action)
    requires Inv(s)
    ensures SameUsage(s.jobs, Apply(s, a).jobs)
    ensures if a.EnqueueJob? && a.usage.requestCount >= 1
            then |Apply(s, a).jobs| == |s.jobs| + 1
                 && JobUsage(Apply(s, a).jobs, |s.jobs|) == a.usage.(sourceJobId := Some(|s.jobs|))
            else |Apply(s, a).jobs| == |s.jobs|
  {
  }

  /** The job table holds the usage that was enqueued. */
  lemma {:induction false} JobsHoldWhatWasAsked(actions: seq<Action>, s: Id, from: int, until: int)
    ensures var q := Run(INITIAL, actions);
            Enqueued(q.jobs, |q.jobs|, s, from, until) == AskedByJobs(actions, s, from, until)
  {
    if actions != [] {
      var init, a := actions[..|actions| - 1], actions[|actions| - 1];
      var before := Run(INITIAL, init);
      JobsHoldWhatWasAsked(init, s, from, until);
      EveryRunKeepsInv(init);
      StepKeepsUsage(before, a);
      SameUsageSameEnqueued(before.jobs, Apply(before, a).jobs, |before.jobs|, s, from, until);
    }
  }

  /** Recorded usage that came past the queue. */
  function RecordedDirectly(rs: seq<UsageRecord>, s: Id, from: int, until: int): int {
    if rs == [] then 0
    else
      var r := rs[|rs| - 1];
      RecordedDirectly(rs[..|rs| - 1], s, from, until)
      + if r.sourceJobId.None? && InWindow(r.subscriptionId, r.occurredAt, s, from, until) then r.requestCount else 0
  }

  lemma StepRecords(s: State, a: Action)
    requires Inv(s)
    ensures var rs := Apply(s, a).db.records;
            if a.RecordDirectly? && a.usage.requestCount >= 1 && a.usage.sourceJobId.None?
            then rs == s.db.records + [NewRecord(a.usage, Some(a.now), true)]
            else rs == s.db.records
                 || (a.CommitTransaction? && a.task in s.tasks && s.tasks[a.task].job.usage.sourceJobId.Some?
                     && rs == s.db.records + [NewRecord(s.tasks[a.task].job.usage, Some(a.now), true)])
  {
  }

  lemma {:induction false} DirectUsageIsRecorded(actions: seq<Action>, s: Id, from: int, until: int)
    ensures RecordedDirectly(Run(INITIAL, actions).db.records, s, from, until) == AskedDirectly(actions, s, from, until)
  {
    if actions != [] {
      var init, a := actions[..|actions| - 1], actions[|actions| - 1];
      DirectUsageIsRecorded(init, s, from, until);
      EveryRunKeepsInv(init);
      var before := Run(INITIAL, init);
      var rs := before.db.records;
      StepRecords(before, a);
      forall r: UsageRecord
        ensures RecordedDirectly(rs + [r], s, from, until) == RecordedDirectly(rs, s, from, until)
                  + if r.sourceJobId.None? && InWindow(r.subscriptionId, r.occurredAt, s, from, until)
                    then r.requestCount else 0
      {
        assert (rs + [r])[..|rs|] == rs;
      }
    }
  }

  lemma {:induction false} BothWaysMakeUpScan(rs: seq<UsageRecord>, s: Id, from: int, until: int)
    requires forall r :: r in rs ==> r.aggregatedAt.Some?
    ensures RecordedFromJobs(rs, s, from, until) + RecordedDirectly(rs, s, from, until) == ScanSum(rs, s, from, until)
    ensures ScanSum(rs, s, from, until) == SumRaw(rs, Where(s, None, from, until, OnlyAggregated))
  {
    if rs != [] {
      BothWaysMakeUpScan(rs[..|rs| - 1], s, from, until);
    }
  }

  /** In every reachable state and every window, usage recorded from jobs plus usage of jobs without
      a record is exactly the usage that the run's enqueue actions asked for; with the usage recorded past the queue it
      is all that a scan of the records finds. */
  lemma NoJobUsageIsLostOrDoubled(actions: seq<Action>, s: Id, from: int, until: int)
    ensures var q := Run(INITIAL, actions);
            var waiting := Waiting(q.jobs, |q.jobs|, q.db.records, s, from, until);
            && RecordedFromJobs(q.db.records, s, from, until) + waiting == AskedByJobs(actions, s, from, until)
            && ScanSum(q.db.records, s, from, until) + waiting
               == AskedByJobs(actions, s, from, until) + AskedDirectly(actions, s, from, until)
  {
    EveryRunKeepsInv(actions);
    var q := Run(INITIAL, actions);
    RecordedAndWaitingAddUp(q.jobs, q.db.records, s, from, until);
    JobsHoldWhatWasAsked(actions, s, from, until);
    DirectUsageIsRecorded(actions, s, from, until);
    BothWaysMakeUpScan(q.db.records, s, from, until);
  }

  /** Once every job has been processed, nothing of what was enqueued waits. */
  lemma {:induction false} NothingWaitsWhenAllProcessed(s: State, n: nat, id: Id, from: int, until: int)
    requires Inv(s) && n <= |s.jobs| && forall job :: 0 <= job < n ==> s.jobs[job].status.PROCESSED?
    ensures Waiting(s.jobs, n, s.db.records, id, from, until) == 0
  {
    if n > 0 {
      NothingWaitsWhenAllProcessed(s, n - 1, id, from, until);
    }
  }

  /** The daily table over any whole days holds the usage that was asked for less what still waits, which is nothing
      once every job is PROCESSED: no usage is counted twice. */
  lemma DailyTableCountsEachJobOnce(actions: seq<Action>, s: Id, from: int, until: int)
    requires IsUtcDayBoundary(from) && IsUtcDayBoundary(until)
    ensures var q := Run(INITIAL, actions);
            var asked := AskedByJobs(actions, s, from, until) + AskedDirectly(actions, s, from, until);
            && SumDaily(q.db, s, from, until) == asked - Waiting(q.jobs, |q.jobs|, q.db.records, s, from, until)
            && ((forall id :: 0 <= id < |q.jobs| ==> q.jobs[id].status.PROCESSED?) ==>
                  SumDaily(q.db, s, from, until) == asked)
  {
    EveryRunKeepsInv(actions);
    NoJobUsageIsLostOrDoubled(actions, s, from, until);
    var q := Run(INITIAL, actions);
    BothWaysMakeUpScan(q.db.records, s, from, until);
    if forall id :: 0 <= id < |q.jobs| ==> q.jobs[id].status.PROCESSED? {
      NothingWaitsWhenAllProcessed(q, |q.jobs|, s, from, until);
    }
  }

  // ---------------------------------------------------------------- one worker

  /** The actions of a worker that handles one fetched job undisturbed. */
  function HandlingOf(s: State, task: TaskId, attempt: Attempt): seq<Action>
    requires task in s.tasks
  {
    var now := attempt.now;
    match attempt.answer
    case Fails(error) => [FailTransaction(task, error), WriteFailed(task, now)]
    case Succeeds =>
      if JobRecorded(s.db.records, s.tasks[task].job.id) then [HitDuplicate(task), WriteProcessed(task, now)]
      else [CommitTransaction(task, now, None)]
    case CommitsButReportsFailure(error) =>
      if JobRecorded(s.db.records, s.tasks[task].job.id) then [HitDuplicate(task), WriteProcessed(task, now)]
      else [CommitTransaction(task, now, Some(error)), WriteFailed(task, now)]
  }

  lemma RunOfTwo(s: State, a: Action, b: Action)
    ensures Run(s, [a]) == Apply(s, a) && Run(s, [a, b]) == Apply(Apply(s, a), b)
  {
    assert [a][..0] == [] && [a, b][..1] == [a];
  }

  lemma FailedHandling(s: State, task: TaskId, error: string, now: int)
    requires Inv(s) && task in s.tasks && s.tasks[task].phase.HasJob?
    ensures var job := s.tasks[task].job;
            Apply(Apply(s, FailTransaction(task, error)), WriteFailed(task, now))
            == State(s.db, s.jobs[job.id := MarkedFailed(s.jobs[job.id], job.attempts + 1, error, now)],
                     s.tasks - {task})
  {
    assert s.tasks[task := s.tasks[task].(phase := SawError(error))] - {task} == s.tasks - {task};
  }

  lemma DuplicateHandling(s: State, task: TaskId, now: int)
    requires Inv(s) && task in s.tasks && s.tasks[task].phase.HasJob? && JobRecorded(s.db.records, s.tasks[task].job.id)
    ensures var id := s.tasks[task].job.id;
            Apply(Apply(s, HitDuplicate(task)), WriteProcessed(task, now))
            == State(s.db, s.jobs[id := MarkedProcessed(s.jobs[id], now)], s.tasks - {task})
  {
    assert s.tasks[task := s.tasks[task].(phase := SawDuplicate)] - {task} == s.tasks - {task};
  }

  lemma AmbiguousHandling(s: State, task: TaskId, error: string, now: int)
    requires Inv(s) && task in s.tasks && s.tasks[task].phase.HasJob?
    requires !JobRecorded(s.db.records, s.tasks[task].job.id)
    ensures var job := s.tasks[task].job;
            Apply(Apply(s, CommitTransaction(task, now, Some(error))), WriteFailed(task, now))
            == State(Recorded(s.db, job.usage, now),
                     s.jobs[job.id := MarkedFailed(MarkedProcessed(s.jobs[job.id], now), job.attempts + 1, error, now)],
                     s.tasks - {task})
  {
    assert s.tasks[task := s.tasks[task].(phase := SawError(error))] - {task} == s.tasks - {task};
    var id := s.tasks[task].job.id;
    var marked := MarkedProcessed(s.jobs[id], now);
    var failed := MarkedFailed(marked, s.tasks[task].job.attempts + 1, error, now);
    assert s.jobs[id := marked][id := failed] == s.jobs[id := failed];
  }

  /** A worker's handling of one job is a run of these actions, so what is proved of every run holds of it. */
  lemma WorkerHandlesByActions(s: State, task: TaskId, attempt: Attempt)
    requires Inv(s) && task in s.tasks && s.tasks[task].phase.HasJob?
    ensures var (jobs, db, _) := AfterProcessJob(s.jobs, s.db, s.tasks[task].job, attempt);
            Run(s, HandlingOf(s, task, attempt)) == State(db, jobs, s.tasks - {task})
  {
    var actions := HandlingOf(s, task, attempt);
    RunOfTwo(s, actions[0], actions[|actions| - 1]);
    if attempt.answer.Fails? {
      FailedHandling(s, task, attempt.answer.error, attempt.now);
    } else if JobRecorded(s.db.records, s.tasks[task].job.id) {
      DuplicateHandling(s, task, attempt.now);
    } else if attempt.answer.CommitsButReportsFailure? {
      AmbiguousHandling(s, task, attempt.answer.error, attempt.now);
    }
  }

  // ---------------------------------------------------------------- recovery

  /** Whatever happened to a job before, one clean processing of it leaves it PROCESSED and recorded. */
  lemma CleanProcessingFinishesJob(jobs: seq<Job>, db: UsageDb, job: QueueJob, attempt: Attempt)
    requires job.id < |jobs| && job.usage.sourceJobId == Some(job.id)
    requires attempt.answer.Succeeds?
    ensures var (afterJobs, afterDb, ok) := AfterProcessJob(jobs, db, job, attempt);
            && ok && afterJobs[job.id].status.PROCESSED? && JobRecorded(afterDb.records, job.id)
            && (JobRecorded(db.records, job.id) ==> afterDb == db)
  {
    RecordingKeepsJobsRecorded(db.records, NewRecord(job.usage, Some(attempt.now), true), job.id);
  }

  /** A job whose commit was reported as a failure is FAILED although its usage is recorded; its retry
      finds the record, adds nothing and only corrects the status. */
  lemma AmbiguousCommitIsCorrected(jobs: seq<Job>, db: UsageDb, job: QueueJob, error: string, t1: int, t2: int)
    requires job.id < |jobs| && job.usage.sourceJobId == Some(job.id) && !JobRecorded(db.records, job.id)
    ensures var first := AfterProcessJob(jobs, db, job, Attempt(CommitsButReportsFailure(error), t1));
            var second := AfterProcessJob(first.0, first.1, job, Attempt(Succeeds, t2));
            && first.0[job.id].status.FAILED? && JobRecorded(first.1.records, job.id)
            && first.0[job.id].availableAt >= t1 + 30000
            && second.0[job.id].status.PROCESSED? && second.1 == first.1
  {
    RecordingKeepsJobsRecorded(db.records, NewRecord(job.usage, Some(t1), true), job.id);
  }
}
