/** The usage ingest queue and its worker (usage-ingest-worker.service.ts, usage.service.ts). A job's id
    is its index in the job table. */
module IngestQueue {
  import opened Common
  import opened StableSort
  import opened UtcCalendar
  import opened UsageIndex
  import opened UsageStore

  const MAX_RETRY_DELAY_SECONDS: int := 300
  const MIN_RETRY_DELAY_SECONDS: int := 30

  datatype JobStatus = PENDING | FAILED | PROCESSED

  datatype Job = Job(
    subscriptionId: Id,
    occurredAt: int,
    endpoint: string,
    requestCount: int,
    status: JobStatus,
    attempts: int,
    availableAt: int,
    createdAt: int,
    processedAt: Option<int>,
    lastError: Option<string>)

  function JobUsage(jobs: seq<Job>, id: Id): UsageInput
    requires id < |jobs|
  {
    UsageInput(jobs[id].subscriptionId, jobs[id].occurredAt, jobs[id].endpoint, jobs[id].requestCount, Some(id))
  }

  function NewJob(input: UsageInput, now: int): Job {
    Job(input.subscriptionId, input.occurredAt, input.endpoint, input.requestCount, PENDING, 0, now, now, None, None)
  }

  /** getRetryDelayMilliseconds: 30 seconds a try, within 30 seconds and 5 minutes. */
  function RetryDelayMs(attempts: int): (ms: int)
    ensures 30000 <= ms <= 300000
  {
    Min(MAX_RETRY_DELAY_SECONDS, Max(MIN_RETRY_DELAY_SECONDS, attempts * MIN_RETRY_DELAY_SECONDS)) * 1000
  }

  function MarkedProcessed(job: Job, now: int): Job {
    job.(status := PROCESSED, processedAt := Some(now), lastError := None)
  }

  function MarkedFailed(job: Job, attempts: int, error: string, now: int): Job {
    job.(status := FAILED, attempts := attempts, availableAt := now + RetryDelayMs(attempts),
        lastError := Some(Shortened(error)))
  }

  predicate Due(job: Job, now: int) { !job.status.PROCESSED? && job.availableAt <= now }

  /** 30 seconds a try from the first try to the tenth, and only then. */
  lemma DelayGrowsForTenTries(attempts: int)
    ensures 1 <= attempts <= 10 <==> RetryDelayMs(attempts) == attempts * 30000
    ensures attempts >= 10 <==> RetryDelayMs(attempts) == 300000
  {
  }

  /** What one handling of a job comes to: its usage is counted once, however often it is handled, unless its
      transaction fails; it is done with once the worker knows that, and otherwise due again 30 seconds an attempt
      later, at most 5 minutes. No other job changes. */
  ghost predicate IsHandled(
    jobs: seq<Job>, db: UsageDb, job: QueueJob, attempt: Attempt, after: seq<Job>, afterDb: UsageDb, ok: bool)
    requires job.id < |jobs|
  {
    var counted := !attempt.answer.Fails? && !JobRecorded(db.records, job.id);
    && |after| == |jobs|
    && (forall id :: 0 <= id < |jobs| && id != job.id ==> after[id] == jobs[id])
    && JobUsage(after, job.id) == JobUsage(jobs, job.id)
    && (ok <==> attempt.answer.Succeeds? || (JobRecorded(db.records, job.id) && !attempt.answer.Fails?))
    && (ok ==> IsDoneWith(after[job.id], jobs[job.id].attempts, attempt.now))
    && (!ok ==> IsPutOff(after[job.id], job.attempts + 1, attempt.answer.error, attempt.now))
    && (!counted ==> afterDb == db)
    && (counted ==> JobRecorded(afterDb.records, job.id))
    && (counted ==>
          forall s, e, from, until :: ScanEndpoint(afterDb.records, s, e, from, until)
               == ScanEndpoint(db.records, s, e, from, until)
                  + if s == job.usage.subscriptionId && e == job.usage.endpoint && from <= job.usage.occurredAt < until
                    then job.usage.requestCount else 0)
  }

  ghost predicate IsDoneWith(job: Job, attempts: int, now: int) {
    && job.status.PROCESSED? && job.processedAt == Some(now) && job.lastError.None? && job.attempts == attempts
    && forall t :: !Due(job, t)
  }

  ghost predicate IsPutOff(job: Job, attempts: int, error: string, now: int) {
    && job.status.FAILED? && job.attempts == attempts && job.lastError == Some(Shortened(error))
    && forall t :: Due(job, t) <==> t >= now + Max(30000, Min(300000, 30000 * attempts))
  }

  lemma JobIsHandled(jobs: seq<Job>, db: UsageDb, job: QueueJob, attempt: Attempt)
    requires job.id < |jobs| && job.usage.sourceJobId == Some(job.id)
    ensures var (after, afterDb, ok) := AfterProcessJob(jobs, db, job, attempt);
            IsHandled(jobs, db, job, attempt, after, afterDb, ok)
  {
    RecordedIsCounted(db, job.usage, attempt.now);
  }

  /** The job table after a job was fetched and its transaction failed, once for each of the failures. */
  function AfterFailures(jobs: seq<Job>, db: UsageDb, id: Id, failures: seq<Attempt>): (after: seq<Job>)
    requires id < |jobs|
    ensures |after| == |jobs|
  {
    if failures == [] then jobs
    else
      var before := AfterFailures(jobs, db, id, failures[..|failures| - 1]);
      AfterProcessJob(before, db, Fetched(before, id), failures[|failures| - 1]).0
  }

  /** A newly enqueued job that failed n times in a row is due again 30 seconds a failure after the last one, at most
      5 minutes. */
  lemma {:induction false} EachFailureDelaysLonger(
    jobs: seq<Job>, db: UsageDb, input: UsageInput, enqueuedAt: int, failures: seq<Attempt>, t: int)
    requires forall i :: 0 <= i < |failures| ==> failures[i].answer.Fails?
    ensures var job := AfterFailures(jobs + [NewJob(input, enqueuedAt)], db, |jobs|, failures)[|jobs|];
            var n := |failures|;
            && job.attempts == n
            && (n == 0 ==> (Due(job, t) <==> t >= enqueuedAt))
            && (n > 0 ==> (Due(job, t) <==> t >= failures[n - 1].now + Min(300000, 30000 * n)))
  {
    if failures != [] {
      EachFailureDelaysLonger(jobs, db, input, enqueuedAt, failures[..|failures| - 1], t);
    }
  }

  /** The columns a worker fetches. */
  datatype QueueJob = QueueJob(id: Id, usage: UsageInput, attempts: int, availableAt: int, createdAt: int)

  function Fetched(jobs: seq<Job>, id: Id): QueueJob
    requires id < |jobs|
  {
    QueueJob(id, JobUsage(jobs, id), jobs[id].attempts, jobs[id].availableAt, jobs[id].createdAt)
  }

  ghost predicate FetchedFrom(batch: seq<QueueJob>, jobs: seq<Job>) {
    forall q :: q in batch ==> q.id < |jobs| && q == Fetched(jobs, q.id)
  }

  /** The due jobs among the first n. */
  function DueJobs(jobs: seq<Job>, now: int, n: nat): (due: seq<QueueJob>)
    requires n <= |jobs|
    ensures forall q :: q in due <==> q.id < n && Due(jobs[q.id], now) && q == Fetched(jobs, q.id)
    ensures Distinct(due)
  {
    if n == 0 then []
    else if Due(jobs[n - 1], now) then DueJobs(jobs, now, n - 1) + [Fetched(jobs, n - 1)]
    else DueJobs(jobs, now, n - 1)
  }

  /** availableAt asc, createdAt asc */
  function DueOrder(): (QueueJob, QueueJob) -> bool {
    (a: QueueJob, b: QueueJob) =>
      a.availableAt < b.availableAt || (a.availableAt == b.availableAt && a.createdAt < b.createdAt)
  }

  function Batch(jobs: seq<Job>, now: int, k: nat): seq<QueueJob> {
    SortedFirst(DueJobs(jobs, now, |jobs|), DueOrder(), k)
  }

  /** How the database answers one job's transaction: it commits, it fails and leaves nothing, or it
      commits and the caller is told it failed. */
  datatype TxAnswer = Succeeds | Fails(error: string) | CommitsButReportsFailure(error: string)

  datatype Attempt = Attempt(answer: TxAnswer, now: int)

  /** The job table and the store after one processJob, and whether it returned without throwing. */
  function AfterProcessJob(jobs: seq<Job>, db: UsageDb, job: QueueJob, attempt: Attempt): (seq<Job>, UsageDb, bool)
    requires job.id < |jobs|
  {
    var now := attempt.now;
    var id := job.id;
    if attempt.answer.Fails? then
      (jobs[id := MarkedFailed(jobs[id], job.attempts + 1, attempt.answer.error, now)], db, false)
    else if JobRecorded(db.records, id) then
      (jobs[id := MarkedProcessed(jobs[id], now)], db, true)
    else if attempt.answer.Succeeds? then
      (jobs[id := MarkedProcessed(jobs[id], now)], Recorded(db, job.usage, now), true)
    else
      (jobs[id := MarkedFailed(MarkedProcessed(jobs[id], now), job.attempts + 1, attempt.answer.error, now)],
       Recorded(db, job.usage, now), false)
  }

  ghost predicate PositiveJobs(jobs: seq<Job>) { forall id :: 0 <= id < |jobs| ==> jobs[id].requestCount >= 1 }

  class UsageIngestWorker {
    const store: UsageStore
    const enabled: bool
    const batchSize: nat
    var jobs: seq<Job>

    constructor (store: UsageStore, enabled: bool, batchSize: nat)
      ensures this.store == store && this.enabled == enabled && this.batchSize == batchSize && jobs == []
    {
      this.store, this.enabled, this.batchSize, jobs := store, enabled, batchSize, [];
    }

    ghost predicate Ready()
      reads this, store
    {
      Valid(store.Db()) && PositiveJobs(jobs)
    }

    /** enqueueUsageRecord */
    method Enqueue(input: UsageInput, now: int) returns (id: Id)
      requires Ready() && input.requestCount >= 1
      modifies this
      ensures Ready() && store.Db() == old(store.Db())
      ensures id == old(|jobs|) && jobs == old(jobs) + [NewJob(input, now)]
      ensures JobUsage(jobs, id) == input.(sourceJobId := Some(id))
      ensures forall t :: Due(jobs[id], t) <==> t >= now
      ensures jobs[id].status.PENDING? && jobs[id].attempts == 0 && jobs[id].createdAt == now
    {
      id := |jobs|;
      jobs := jobs + [NewJob(input, now)];
    }

    method MarkJobProcessed(id: Id, now: int)
      requires id < |jobs|
      modifies this
      ensures jobs == old(jobs)[id := MarkedProcessed(old(jobs[id]), now)]
      ensures JobUsage(jobs, id) == JobUsage(old(jobs), id)
      ensures forall t :: !Due(jobs[id], t)
      ensures jobs[id].status.PROCESSED? && jobs[id].processedAt == Some(now) && jobs[id].lastError.None?
      ensures jobs[id].attempts == old(jobs[id]).attempts
      ensures |jobs| == old(|jobs|)
      ensures forall other :: 0 <= other < |jobs| && other != id ==> jobs[other] == old(jobs)[other]
    {
      jobs := jobs[id := jobs[id].(status := PROCESSED, processedAt := Some(now), lastError := None)];
    }

    method MarkJobFailed(id: Id, attempts: int, error: string, now: int)
      requires id < |jobs|
      modifies this
      ensures jobs == old(jobs)[id := MarkedFailed(old(jobs[id]), attempts, error, now)]
      ensures JobUsage(jobs, id) == JobUsage(old(jobs), id)
      ensures forall t :: Due(jobs[id], t) <==> t >= now + Max(30000, Min(300000, 30000 * attempts))
      ensures jobs[id].status.FAILED? && jobs[id].attempts == attempts && jobs[id].lastError == Some(Shortened(error))
      ensures |jobs| == old(|jobs|)
      ensures forall other :: 0 <= other < |jobs| && other != id ==> jobs[other] == old(jobs)[other]
    {
      jobs := jobs[id := jobs[id].(status := FAILED, attempts := attempts,
                                   availableAt := now + RetryDelayMs(attempts), lastError := Some(Shortened(error)))];
    }

    method ProcessJob(job: QueueJob, attempt: Attempt) returns (ok: bool)
      requires Ready() && job.id < |jobs| && job.usage.requestCount >= 1 && job.usage.sourceJobId == Some(job.id)
      modifies this, store
      ensures Ready()
      ensures (jobs, store.Db(), ok) == AfterProcessJob(old(jobs), old(store.Db()), job, attempt)
      ensures IsHandled(old(jobs), old(store.Db()), job, attempt, jobs, store.Db(), ok)
    {
      JobIsHandled(jobs, store.Db(), job, attempt);
      if attempt.answer.Fails? {
        MarkJobFailed(job.id, job.attempts + 1, attempt.answer.error, attempt.now);
        return false;
      }
      var outcome := store.RecordUsageInTransaction(job.usage, attempt.now);
      MarkJobProcessed(job.id, attempt.now);
      if outcome.Created? && attempt.answer.CommitsButReportsFailure? {
        MarkJobFailed(job.id, job.attempts + 1, attempt.answer.error, attempt.now);
        assert jobs == old(jobs)[job.id := jobs[job.id]];
        return false;
      }
      ok := true;
    }

    /** drainQueue, given whether the lease was won and how each fetched job's transaction is answered. */
    method DrainQueue(leaseAcquired: bool, now: int, attempts: seq<Attempt>) returns (processed: nat, failed: nat)
      requires Ready() && |attempts| >= batchSize
      modifies this, store
      ensures Ready()
      ensures !enabled || !leaseAcquired ==>
          jobs == old(jobs) && store.Db() == old(store.Db()) && processed == failed == 0
      ensures enabled && leaseAcquired ==>
                && processed + failed == |Batch(old(jobs), now, batchSize)| <= |attempts|
                && FetchedFrom(Batch(old(jobs), now, batchSize), old(jobs))
                && (jobs, store.Db(), processed)
                   == AfterBatch(old(jobs), old(store.Db()), Batch(old(jobs), now, batchSize), attempts)
    {
      processed, failed := 0, 0;
      if !enabled || !leaseAcquired {
        return;
      }
      BatchIsDue(jobs, now, batchSize);
      processed, failed := ProcessBatch(Batch(jobs, now, batchSize), attempts);
    }

    /** One turn of the loop, with its counters. */
    method ProcessNext(
      job: QueueJob, attempt: Attempt, alreadyProcessed: nat, alreadyFailed: nat) returns (processed: nat, failed: nat)
      requires Ready() && job.id < |jobs| && job.usage.requestCount >= 1 && job.usage.sourceJobId == Some(job.id)
      modifies this, store
      ensures Ready() && |jobs| == old(|jobs|) && processed + failed == alreadyProcessed + alreadyFailed + 1
      ensures (jobs, store.Db(), processed) == NextInBatch((old(jobs), old(store.Db()), alreadyProcessed), job, attempt)
    {
      processed, failed := alreadyProcessed, alreadyFailed;
      var ok := ProcessJob(job, attempt);
      if ok {
        processed := processed + 1;
      } else {
        failed := failed + 1;
      }
    }

    method ProcessBatch(batch: seq<QueueJob>, attempts: seq<Attempt>) returns (processed: nat, failed: nat)
      requires Ready() && FetchedFrom(batch, jobs) && |batch| <= |attempts|
      modifies this, store
      ensures Ready()
      ensures processed + failed == |batch|
      ensures (jobs, store.Db(), processed) == AfterBatch(old(jobs), old(store.Db()), batch, attempts)
    {
      processed, failed := 0, 0;
      var i := 0;
      while i < |batch|
        invariant 0 <= i <= |batch|
        invariant Ready() && |jobs| == old(|jobs|)
        invariant processed + failed == i
        invariant FetchedFrom(batch[..i], old(jobs))
        invariant (jobs, store.Db(), processed) == AfterBatch(old(jobs), old(store.Db()), batch[..i], attempts)
      {
        AfterBatchStep(old(jobs), old(store.Db()), batch, attempts, i);
        FetchedIsPositive(old(jobs), batch, i);
        processed, failed := ProcessNext(batch[i], attempts[i], processed, failed);
        i := i + 1;
      }
      assert batch[..i] == batch;
    }
  }

  /** The job table, the store and the number of processed jobs after one more job. */
  function NextInBatch(before: (seq<Job>, UsageDb, nat), job: QueueJob, attempt: Attempt): (seq<Job>, UsageDb, nat)
    requires job.id < |before.0|
  {
    var after := AfterProcessJob(before.0, before.1, job, attempt);
    (after.0, after.1, before.2 + if after.2 then 1 else 0)
  }

  /** The fetched jobs, one after the other. */
  ghost function AfterBatch(jobs: seq<Job>, db: UsageDb, batch: seq<QueueJob>, attempts: seq<Attempt>)
    : (r: (seq<Job>, UsageDb, nat))
    requires |batch| <= |attempts| && FetchedFrom(batch, jobs)
    ensures |r.0| == |jobs|
  {
    if batch == [] then (jobs, db, 0)
    else
      var n := |batch| - 1;
      assert forall q :: q in batch[..n] ==> q in batch;
      var before := AfterBatch(jobs, db, batch[..n], attempts);
      assert batch[n] in batch;
      NextInBatch(before, batch[n], attempts[n])
  }

  lemma AfterBatchStep(jobs: seq<Job>, db: UsageDb, batch: seq<QueueJob>, attempts: seq<Attempt>, i: nat)
    requires FetchedFrom(batch, jobs) && i < |batch| <= |attempts|
    ensures FetchedFrom(batch[..i], jobs) && FetchedFrom(batch[..i + 1], jobs)
    ensures batch[i].id < |jobs| && batch[i] == Fetched(jobs, batch[i].id)
    ensures var before := AfterBatch(jobs, db, batch[..i], attempts);
            AfterBatch(jobs, db, batch[..i + 1], attempts) == NextInBatch(before, batch[i], attempts[i])
  {
    assert forall q :: q in batch[..i + 1] ==> q in batch;
    assert forall q :: q in batch[..i] ==> q in batch;
    assert batch[i] in batch;
    assert batch[..i + 1][..i] == batch[..i];
  }

  lemma FetchedIsPositive(jobs: seq<Job>, batch: seq<QueueJob>, i: nat)
    requires PositiveJobs(jobs) && FetchedFrom(batch, jobs) && i < |batch|
    ensures batch[i].usage.requestCount >= 1 && batch[i].usage.sourceJobId == Some(batch[i].id)
  {
    assert batch[i] in batch;
  }

  lemma DueOrderIsOrder()
    ensures StrictWeakOrder(DueOrder())
  {
  }

  /** A batch is distinct due jobs, as many as there are up to the batch size, the longest due first, and of those due
      at once the first created. */
  lemma BatchIsDue(jobs: seq<Job>, now: int, k: nat)
    ensures var due, batch := DueJobs(jobs, now, |jobs|), Batch(jobs, now, k);
            && FetchedFrom(batch, jobs)
            && Distinct(batch)
            && |batch| == Min(|due|, k)
            && (forall q :: q in batch ==> Due(jobs[q.id], now))
            && (forall i, j :: 0 <= i < j < |batch| ==>
                  batch[i].availableAt <= batch[j].availableAt
                  && (batch[i].availableAt == batch[j].availableAt ==> batch[i].createdAt <= batch[j].createdAt))
            && forall q, p :: q in due && q !in batch && p in batch ==>
                 p.availableAt <= q.availableAt && (p.availableAt == q.availableAt ==> p.createdAt <= q.createdAt)
  {
    DueOrderIsOrder();
    var due := DueJobs(jobs, now, |jobs|);
    SortedFirstIsBest(due, DueOrder(), k);
    SortKeepsDistinct(due, DueOrder());
  }
}
