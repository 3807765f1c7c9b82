# HivePoint metering and billing

HivePoint is an API marketplace. This project models its metering and billing engine and proves what the
engine keeps over whole runs. Every part follows the branches, constants and error cases of the TypeScript
services it is taken from; database tables are sequences and maps of rows, times are integer milliseconds,
a transaction is one atomic step or is split into the steps that can interleave.

| modules | what they model |
|---|---|
| `UtcCalendar` | JavaScript UTC dates, from MakeDay and its kin of section 21.4.1 of ECMA-262 |
| `CounterTable`, `StableSort`, `EndpointRanking`, `UsageIndex`, `UsageStore` | raw usage records, the two daily tables, and the window queries answered from both |
| `Metering`, `MeteringRuns`, `QuotaRuns`, `RateRuns` | authorizing and consuming usage under a row lock, all interleavings of such transactions, and exactly when they keep the quota and the sliding rate limit |
| `IngestQueue`, `IngestRuns`, `WorkerLease` | the retrying ingest queue, its workers' interleavings, and the lease protocol of all background workers |
| `BurstLimiter` | the persisted token bucket |
| `BillingTypes`, `ManagedRetryPolicy`, `BillingDb`, `SubscriptionsService`, `ReportEffects`, `EventRedelivery` | invoices and subscriptions, the operations external events trigger, what they show in the columns and in the service given, and what a repeated event does |
| `Settlement`, `SettlementEffects`, `OverageCollection`, `OverageBatch`, `PeriodChain`, `PeriodRuns`, `SettlementRuns`, `ChainStart`, `CatchUp` | settling a period, opening the next, the worker's pass, and the chain of periods over every run: how it starts, what it accounts for, how it catches up |
| `BillingSteps`, `ExternalBinding`, `StaleDrafts`, `GraceDeadlines` | all billing operations as one step relation, and what every run of them keeps |
| `InvoiceQuery`, `Batches`, `PaymentProvider`, `Dunning`, `DunningRuns` | batches of invoices, charging them, and retrying past due renewals on a schedule |
| `AlertDelivery`, `AlertRuns` | delivering operational alerts to several targets |

Services that update rows in place are classes whose methods are proved equal to functions on the tables
(`UsageStore`, `UsageIngestWorker`, `LeaseTable`, `GatewayBurstLimiter`, `Subscriptions`,
`BillingOverageCollection`, `OverageWorker`, `BillingManagedRetry`, `OperationalAlertDelivery`); what the
services promise is proved about those functions, for every input and every run.

## Where the code falls short

Each of these is proved with a failing run and with the exact condition under which the property does hold.

- The per-endpoint daily table was added without a backfill, so breakdowns over whole days miss usage that was
  aggregated before it (`UsageStore.MigratedUsageIsMissing`); they are exact when both tables hold the same total
  (`BreakdownIsScanExactlyWhenTablesAgree`). `docs/project-overview.md` lists both tables as read models without
  that reservation.
- Successive or stale reads of a subscription row can give overlapping windows, such as a period and its grace
  window, and usage then passes the quota of one of them (`QuotaRuns.HarmfulRowOverrunsQuota`,
  `StaleWindowOverrunsQuota`); it is kept exactly when each window is disjoint from the one in question or covers
  it (`QuotaIsKeptExactlyByHarmlessRows`).
- A request dated before one already counted, or a period that starts within the minute, hides usage from the
  sliding rate limit (`RateRuns.LateRequestOverrunsRate`, `RenewalDoublesRate`); the limit is kept exactly when
  nothing is hidden (`RateIsKeptExactlyWhenNothingHidden`).
- A clock that goes back and forth lets the token bucket grant more than limit + rate * elapsed time
  (`BurstLimiter.BackwardsClockBreaksBound`, `TwoWayClockBreaksBound`); the bound holds exactly on clocks that go one
  way (`BoundHoldsExactlyOnOneWayClocks`).
- A checkout reported again for an older period moves a free subscription back to that period
  (`ChainStart.EveryRenewalCanBeMovedBack`); a repeated report is harmless exactly for the unsettled last period
  (`PeriodRuns.ReplayKeepsCurrentExactlyWhenLive`).
- A charge that names another external invoice than a webhook bound meanwhile takes the binding away
  (`ExternalBinding.RebindingRun`); reports keep bindings exactly when they do not contradict them
  (`ReportsKeepBindingsExactlyWhenConsistent`).
- A failed delivery of a changed alert stores the new fingerprint but keeps the time of the old delivery, so the
  alert is held back until the old cooldown is over (`AlertRuns.ChangedAlertIsHeldBack`,
  `FailedDeliveryIsRetriedExactlyAfterOldCooldown`). `docs/reference/environment.md` describes the cooldown as applying
  to unchanged alerts only.

## Model

| member | source | states |
|---|---|---|
| `UsageStore.UsageStore.SumUsageForWindow` | src/modules/usage/usage-aggregation.service.ts:89-153 | For every window, aligned to days or not, inside one day or inverted, the head/whole-days/tail split over both tables returns exactly the plain scan of the raw records |
| `UsageStore.UsageStore.RecordUsageInTransaction` | src/modules/usage/usage-aggregation.service.ts:30-87 | A record, its daily count and its endpoint count appear together; a second record for one ingest job is refused with nothing written; both tables keep agreeing with the records |
| `UsageStore.UsageStore.ListEndpointUsageForWindow` | src/modules/usage/usage-aggregation.service.ts:155-241 | The answer is the top k of the exact per-endpoint totals: sorted by count descending then endpoint, nothing better left out, five by default |
| `UsageStore.UsageStore.CollectEndpointUsage` | src/modules/usage/usage-aggregation.service.ts:160-232 | The endpoint map assembled from up to four parts holds each endpoint once, with its whole total |
| `UsageStore.UsageStore.AddRawRange` | src/modules/usage/usage-aggregation.service.ts:271-287 | Adding a raw range raises each endpoint by exactly its scanned usage in the range |
| `UsageStore.UsageStore.AddFullDays` | src/modules/usage/usage-aggregation.service.ts:289-305 | Adding whole days raises each endpoint by exactly its aggregated rows of those days |
| `UsageStore.AddEndpointUsage` | src/modules/usage/usage-aggregation.service.ts:307-317 | Merging a list of rows into the map adds up counts per endpoint and keeps endpoints unique |
| `UsageStore.SplitAtDays` | src/modules/usage/usage-aggregation.service.ts:94-127 | The computed cut points divide any non-inverted window into a head and a tail of less than a day and a whole number of days between |
| `UsageStore.BreakdownIsScanExactlyWhenTablesAgree` | prisma/migrations/20260320163000_add_usage_endpoint_daily_aggregates/migration.sql:1-21 | The breakdown of a window equals the plain per-endpoint scan if and only if the two daily tables hold the same total for its whole days |
| `UsageStore.MissedUsageIsTableDifference` | src/modules/usage/usage-aggregation.service.ts:48-86 | What a breakdown cannot see is exactly what the endpoint table lacks of the daily table over the whole days |
| `UsageStore.MigratedUsageIsMissing` | prisma/migrations/20260320163000_add_usage_endpoint_daily_aggregates/migration.sql:1-21 | A store reached through the two migrations whose breakdown lacks usage that the scan and the daily table both have |
| `UsageStore.AdjacentWindowsAdd` | src/modules/usage/usage-aggregation.service.ts:89-153 | Window sums are additive over adjacent windows |
| `UsageStore.UnslicedBreakdownAddsUp` | src/modules/usage/usage-aggregation.service.ts:155-241 | Without a limit the listed counts add up to the window sum less exactly the missed usage |
| `UsageStore.EndpointTableSumsToDailyTable` | src/modules/usage/usage-aggregation.service.ts:48-86 | Per subscription and day the endpoint rows sum to the daily row less exactly the missed usage |
| `UsageStore.EntriesAreTotals` | src/modules/usage/usage-aggregation.service.ts:307-317 | In a map with unique keys an entry is the whole total of its endpoint, and an endpoint without an entry has none |
| `UsageStore.EndpointTotalsAddUp` | src/modules/usage/usage-aggregation.service.ts:155-241 | The per-endpoint totals of a set of records make up their sum, up to the endpoints a list leaves out |
| `UsageIndex.EveryReachableStoreIsValid` | prisma/migrations/20260319133000_add_usage_daily_aggregates/migration.sql:21-41 | After every history of writes by three program versions and the two migrations, both daily tables equal the sums of the records they stand for |
| `UsageIndex.RecordedIsValid` | src/modules/usage/usage-aggregation.service.ts:30-87 | A new record with its two upserts keeps both tables in agreement with the records over every span of whole days |
| `UsageIndex.RecordedIsCounted` | src/modules/usage/usage-aggregation.service.ts:30-87 | Recording adds exactly the given count to every window its time lies in, for its subscription and endpoint alone, and marks exactly its job as recorded |
| `UsageIndex.BackfillIsValid` | prisma/migrations/20260319133000_add_usage_daily_aggregates/migration.sql:21-41 | The migration that backfills the daily table turns a store without one into one that agrees |
| `UsageIndex.BackfillCountsEveryRow` | prisma/migrations/20260319133000_add_usage_daily_aggregates/migration.sql:21-41 | The backfilled rows sum, over any whole days, to the records of those days |
| `UsageIndex.AlignedBucket` | src/modules/usage/usage-aggregation.service.ts:319-339 | A record lies in a span of whole days exactly when its day bucket does |
| `UsageIndex.SplitWindow` | src/modules/usage/usage-aggregation.service.ts:94-152 | A scan splits at any point inside its window |
| `UsageIndex.SplitRows` | src/modules/usage/usage-aggregation.service.ts:128-152 | A scan splits into aggregated and unaggregated rows, and the aggregated ones into those the endpoint table counts and misses |
| `CounterTable.UpsertAddsToSum` | src/modules/usage/usage-aggregation.service.ts:48-86 | An upsert-increment adds its count exactly once to every selection that holds its key |
| `CounterTable.UpsertKeepsTable` | src/modules/usage/usage-aggregation.service.ts:48-86 | Upserts keep keys unique and counts positive |
| `EndpointRanking.SortedPrefixIsTop` | src/modules/usage/usage-aggregation.service.ts:234-241 | Sorting all totals and slicing gives a list that nothing left out ranks before |
| `EndpointRanking.TopIsUnique` | src/modules/usage/usage-aggregation.service.ts:234-241 | When the collation separates all endpoints the top k is determined by the totals alone |
| `UtcCalendar.DayStart` | src/modules/usage/usage-aggregation.service.ts:319-323 | setUTCHours(0,0,0,0) is the greatest multiple of a day at or before the time |
| `UtcCalendar.NextDayStartIsOneDayOn` | src/modules/usage/usage-aggregation.service.ts:325-329 | Moving the date field by one moves to the next day start, over month and year ends |
| `Metering.AuthorizeUsageWithConsumption` | src/modules/usage/usage.service.ts:427-673 | Turned away exactly when no subscription serves the request; refused for the rate exactly when the sum over the 60000 milliseconds before it, back to the period start at most, plus the request passes the limit and the quota is not passed; an allowed request is recorded once, where it belongs, and a refused one leaves no trace |
| `Metering.Decide` | src/modules/usage/usage.service.ts:537-650 | Refused for the quota exactly when a plan without overage would be exceeded, else for the rate exactly when the sum over the 60000 milliseconds before the request plus the request passes the limit, else allowed; the usage reported includes an allowed request and what is left is never negative |
| `Metering.FindSubscription` | src/modules/usage/usage.service.ts:436-499 | The lookup finds a serving subscription exactly when there is one, and none of the others is preferred to it |
| `Metering.FoundEndsLast` | src/modules/usage/usage.service.ts:436-499 | The subscription found has the latest deadline of those that serve the request, none counting as latest; among equals the period that ends last, among those the newest |
| `Metering.GetUsageWindow` | src/modules/usage/usage.service.ts:774-811 | A usage window contains the request it is computed for, starts with the current period and ends with it, or with the grace period when past due |
| `Metering.ServingMeansWindow` | src/modules/usage/usage.service.ts:436-535 | A subscription serves a request exactly when it is ACTIVE or PAST_DUE and has a window for it |
| `MeteringRuns.EveryRunIsSerial` | src/modules/usage/usage.service.ts:427-673 | Under any interleaving of read, lock, check-and-insert, commit and abort the committed records are those of a one-at-a-time execution |
| `MeteringRuns.EveryRunReadsItsRows` | src/modules/usage/usage.service.ts:436-535 | Every window a transaction works with is the window of some row the subscription has had |
| `QuotaRuns.QuotaIsKeptExactlyByHarmlessRows` | src/modules/usage/usage.service.ts:515-585 | A usage window keeps its quota over every run if and only if every window the subscription's rows can give is disjoint from it or covers it |
| `QuotaRuns.QuotaIsNeverOverrun` | src/modules/usage/usage.service.ts:515-585 | If every row gives a window disjoint from w or covering it, no reachable state holds more than the quota in w |
| `QuotaRuns.HarmfulRowOverrunsQuota` | src/modules/usage/usage.service.ts:515-585 | For every other pair of rows and every quota, a run that passes the quota |
| `QuotaRuns.StaleWindowOverrunsQuota` | src/modules/usage/usage.service.ts:436-535 | A run in which a transaction that read the period and one that read the grace window together pass the quota |
| `RateRuns.RateIsKeptExactlyWhenNothingHidden` | src/modules/usage/usage.service.ts:587-650 | Of arrivals committing in a given order, no interval [x, x + 60000] in milliseconds holds more than the limit, in whatever numbers, if and only if none is hidden from the check of a later one within that time |
| `RateRuns.RateIsNeverOverrun` | src/modules/usage/usage.service.ts:587-650 | If no committed request was hidden from a later one, the records of [x, x + 60000] milliseconds, for every x, sum to no more than the limit |
| `RateRuns.HiddenRequestDoublesRate` | src/modules/usage/usage.service.ts:587-650 | For every hidden pair and every limit, a run with twice the limit in one closed 60 seconds |
| `RateRuns.LateRequestOverrunsRate` | src/modules/usage/usage.service.ts:764-772 | Requests dated up to a minute before ones already committed let twice the limit through |
| `RateRuns.RenewalDoublesRate` | src/modules/usage/usage.service.ts:764-772 | The rate window is cut off at the period start, so twice the limit passes around a renewal even in order of occurrence |
| `RateRuns.InOrderHidesNothing` | src/modules/usage/usage.service.ts:764-772 | Within one period, requests that commit in the order they occurred hide nothing |
| `MeteringRuns.RecordsLieInTheirWindows` | src/modules/usage/usage.service.ts:774-811 | Every accepted record lies inside the window it was checked against |
| `MeteringRuns.UnrefusedCommits` | src/modules/usage/usage.service.ts:515-650 | With the lock free, a transaction that neither check refuses runs to its commit: the checks refuse nothing else |
| `IngestQueue.UsageIngestWorker.DrainQueue` | src/modules/usage/usage-ingest-worker.service.ts:59-121 | A drain without the lease changes nothing; with it, the batch is processed in order and processed + failed is its size |
| `IngestQueue.UsageIngestWorker.ProcessBatch` | src/modules/usage/usage-ingest-worker.service.ts:103-120 | The loop equals processing the fetched jobs one after the other, a failing job not stopping the rest |
| `IngestQueue.UsageIngestWorker.ProcessJob` | src/modules/usage/usage-ingest-worker.service.ts:123-154 | The usage of a job is counted once, in every window it belongs to, unless its transaction fails or it was counted before; the job is then done with, or put off by 30 seconds an attempt, at most 5 minutes; no other job changes |
| `IngestQueue.UsageIngestWorker.Enqueue` | src/modules/usage/usage.service.ts:819-828 | The job holds exactly the usage it was given, under its own id, is PENDING with no attempts and due exactly from now on; the jobs there were and the store are untouched |
| `IngestQueue.UsageIngestWorker.MarkJobProcessed` | src/modules/usage/usage-ingest-worker.service.ts:156-165 | The job is due at no time from then on, its usage and every other job are as they were |
| `IngestQueue.UsageIngestWorker.MarkJobFailed` | src/modules/usage/usage-ingest-worker.service.ts:167-183 | The job, even one that was PROCESSED, stores the attempts and the error and is due again exactly 30 seconds an attempt later, at least 30 seconds and at most 5 minutes; its usage and every other job are as they were |
| `IngestQueue.RetryDelayMs` | src/modules/usage/usage-ingest-worker.service.ts:280-290 | The delay stays between 30 seconds and 5 minutes |
| `IngestQueue.DelayGrowsForTenTries` | src/modules/usage/usage-ingest-worker.service.ts:280-290 | The delay is 30 seconds a try exactly for tries 1 to 10, and 5 minutes exactly from the tenth on |
| `IngestQueue.JobIsHandled` | src/modules/usage/usage-ingest-worker.service.ts:123-183 | What ProcessJob comes to, for every answer of the database |
| `IngestQueue.EachFailureDelaysLonger` | src/modules/usage/usage-ingest-worker.service.ts:167-183 | A newly enqueued job that failed n times in a row shows n attempts and is due exactly 30 seconds times n after the last failure, at most 5 minutes |
| `IngestQueue.DueJobs` | src/modules/usage/usage-ingest-worker.service.ts:75-101 | Exactly the unprocessed jobs that are available, each once, as they were read |
| `IngestQueue.BatchIsDue` | src/modules/usage/usage-ingest-worker.service.ts:75-101 | A batch is distinct due jobs, as many as there are up to its size, by the time they became available and then by creation, and none left out comes before one in it |
| `IngestRuns.EachJobIsCountedOnce` | src/modules/usage/usage-ingest-worker.service.ts:123-183 | Under every interleaving of workers holding the same job, aborts, commits reported as failures and late failure marks, a job has at most one record and a PROCESSED job exactly one, with its own usage |
| `IngestRuns.NoJobUsageIsLostOrDoubled` | src/modules/usage/usage-ingest-worker.service.ts:103-183 | In every reachable state and window, usage recorded from jobs plus usage of jobs without a record is the sum over the enqueue actions of the run; with the usage recorded past the queue, the scan of the records plus what waits is the sum over all actions that ask for usage |
| `IngestRuns.DailyTableCountsEachJobOnce` | src/modules/usage/usage-aggregation.service.ts:48-86 | The daily table over any whole days is the sum over the actions of the run that ask for usage, less what still waits, and all of it once every job is PROCESSED |
| `IngestRuns.CleanProcessingFinishesJob` | src/modules/usage/usage-ingest-worker.service.ts:123-154 | Whatever happened to a job before, one clean processing leaves it PROCESSED and recorded once |
| `IngestRuns.AmbiguousCommitIsCorrected` | src/modules/usage/usage-ingest-worker.service.ts:123-183 | A job recorded by a commit that was reported as failed is FAILED; retrying it adds nothing and corrects the status |
| `IngestRuns.EveryRunKeepsInv` | src/modules/usage/usage-ingest-worker.service.ts:123-183 | The invariant behind these: records and jobs agree, and what a worker holds is what it fetched |
| `IngestRuns.WorkerHandlesByActions` | src/modules/usage/usage-ingest-worker.service.ts:123-183 | What ProcessJob leaves is what a run of these actions leaves, for every answer of the database, so the laws of every run hold of it |
| `WorkerLease.LeaseTable.TryAcquire` | src/modules/usage/usage-ingest-worker.service.ts:185-248 | The lease is granted exactly when no other owner has an unexpired one, and then runs from the caller's clock reading |
| `WorkerLease.LeaseDurationMs` | src/modules/usage/usage-ingest-worker.service.ts:271-278 | A lease lasts two intervals, or a minute if that is longer |
| `WorkerLease.AtMostOneHolder` | src/modules/usage/usage-ingest-worker.service.ts:185-248 | However sampling the clock, reading and swapping interleave, two owners never both hold an unexpired latest grant |
| `WorkerLease.TakeoverWaitsForExpiry` | src/modules/usage/usage-ingest-worker.service.ts:197-231 | The owner changes only at a real time at or after the previous expiry |
| `WorkerLease.WriteGrantsOnlyFreeLease` | src/modules/usage/usage-ingest-worker.service.ts:211-231 | A swap grants exactly when the row is still the one read; a miss never grants |
| `WorkerLease.NoTwoGrantsOverlap` | src/modules/billing/billing-overage-collection.service.ts:169-245 | In every run no two grants of different owners, however old, are unexpired at once |
| `WorkerLease.EveryRunKeepsOrder` | src/modules/usage/usage-ingest-worker.service.ts:250-265 | A worker that starts no cycle while one of its own is running has one attempt at a time, and its grants end later and later |
| `BurstLimiter.AdmissionIsExact` | src/modules/gateway/gateway-burst-limiter.service.ts:61-131 | On any clock a check is admitted if and only if it is within the limit and, with the grants since every earlier check that reached the bucket, within the limit plus what the clock's forward movement since then earned |
| `BurstLimiter.GrantsAreBounded` | src/modules/gateway/gateway-burst-limiter.service.ts:61-131 | On any clock grants between two checks never exceed the limit plus what the forward movement between them earned |
| `BurstLimiter.BoundHoldsExactlyOnOneWayClocks` | src/modules/gateway/gateway-burst-limiter.service.ts:61-131 | Between two checks no traffic under any configuration gets more than limit + rate * elapsed time if and only if the clock does not move both forward and back between them |
| `BurstLimiter.TwoWayClockBreaksBound` | src/modules/gateway/gateway-burst-limiter.service.ts:78-131 | On every clock that moves both ways, traffic and a configuration that get more than that bound |
| `BurstLimiter.SteadyAdmissionIsExact` | src/modules/gateway/gateway-burst-limiter.service.ts:61-131 | With a clock that never goes back a check is admitted if and only if, with the grants since every earlier check, it is within limit + rate * time since that check |
| `BurstLimiter.SteadyGrantsAreBounded` | src/modules/gateway/gateway-burst-limiter.service.ts:61-131 | With a clock that never goes back grants between any two checks never exceed limit + rate * elapsed time |
| `BurstLimiter.BackwardsClockBreaksBound` | src/modules/gateway/gateway-burst-limiter.service.ts:78-131 | One request in ten seconds: two granted at the same instant after the clock went back and forth |
| `BurstLimiter.PollingIsNeutral` | src/modules/gateway/gateway-burst-limiter.service.ts:252-268 | Refilling on the way gives the same tokens as one refill at the end |
| `BurstLimiter.TokensStayInRange` | src/modules/gateway/gateway-burst-limiter.service.ts:61-131 | After any run of checks the tokens are within 0 and the limit |
| `BurstLimiter.RetryAfterIsExact` | src/modules/gateway/gateway-burst-limiter.service.ts:88-106 | A refused check repeated q seconds later with no other traffic is admitted exactly when q is at least the retryAfterSeconds it was given |
| `BurstLimiter.DecisionIsExact` | src/modules/gateway/gateway-burst-limiter.service.ts:42-131 | A full or stored bucket earns its limit in a window on a clock that moves on and holds no more; a check takes what it asks for exactly when it is there, shows the whole tokens left, and a refusal names the first whole second at which the tokens would be there |
| `BurstLimiter.ResolveBurstLimit` | src/modules/gateway/gateway-burst-limiter.service.ts:160-182 | A limit is resolved exactly when the limiter is on and the plan has a rate; within the configured bounds it is the least whole number covering rate * window * multiplier |
| `BurstLimiter.GatewayBurstLimiter.CheckAndConsume` | src/modules/gateway/gateway-burst-limiter.service.ts:23-158 | The whole decision and the stored bucket, for an oversized request, for each way the database answers up to three tries, and with other keys untouched |
| `BurstLimiter.GatewayBurstLimiter.CheckInTransaction` | src/modules/gateway/gateway-burst-limiter.service.ts:62-131 | The decision and the bucket after one committed transaction, creating a full bucket for a new key |
| `BurstLimiter.LevelWithinAllowance` | src/modules/gateway/gateway-burst-limiter.service.ts:252-268 | The tokens never exceed what a bucket full at any earlier check could still hold |
| `BurstLimiter.LevelIsSomeAllowance` | src/modules/gateway/gateway-burst-limiter.service.ts:252-268 | The tokens are exactly the limit or one of those allowances |
| `Settlement.SettlementIsWhatWasProjected` | src/modules/billing/billing-overage-collection.service.ts:546-582 | The charge equals the projection shown to users for every plan and usage; what is billed is the usage beyond the quota, in the fewest units that cover it; it is positive exactly when a plan that charges overage is exceeded |
| `Settlement.UnitsAreLeast` | src/modules/billing/billing-overage-collection.service.ts:568-576 | The rounded-up unit count is the least that covers the overage |
| `Settlement.PeriodLength` | src/modules/billing/billing-overage-collection.service.ts:603-611 | A period is exactly as long as the calendar month it starts in, 28 to 31 days, even when the date overflows |
| `UtcCalendar.MonthAdvance` | src/modules/billing/billing-overage-collection.service.ts:603-611 | setUTCMonth(getUTCMonth() + 1) moves time by the length of the starting month, computed by MakeDay of section 21.4.1 of ECMA-262 |
| `UtcCalendar.MonthAdvanceKeepsDate` | src/modules/billing/billing-overage-collection.service.ts:603-611 | The day of the month survives the step exactly when the next month has that day; otherwise it overflows into the month after |
| `UtcCalendar.FieldsAreUnique` | src/modules/billing/billing-overage-collection.service.ts:603-611 | A proper calendar date is read back from the day it denotes |
| `UtcCalendar.MonthTable` | src/modules/billing/billing-overage-collection.service.ts:603-611 | The days before each month are those of the common calendar, with one more from March on in leap years |
| `UtcCalendar.EpochFields` | src/modules/billing/billing-overage-collection.service.ts:603-611 | Time zero lies on 1 January 1970 |
| `OverageCollection.BillingOverageCollection.MaterializeSourceInvoice` | src/modules/billing/billing-overage-collection.service.ts:266-440 | Settles exactly the invoices that are paid subscription periods at Stripe not settled before, for the usage recorded in their period; the invoices and subscriptions it leaves are those of SettlementTakesEffect, and otherwise nothing changes |
| `SettlementEffects.SettlementTakesEffect` | src/modules/billing/billing-overage-collection.service.ts:300-440 | In columns: the period is marked; usage beyond the quota not billed before is billed by one unpaid Stripe invoice for the same period, in the fewest units; a free local subscription goes on to serve exactly the next calendar month, under a paid invoice at the plan price, or is CANCELED and serves nothing if it was to end; no other row changes |
| `OverageCollection.SettledAsUsed` | src/modules/billing/billing-overage-collection.service.ts:266-440 | Which invoices are settled, and for which usage |
| `OverageCollection.ChargingTwiceIsOnce` | src/modules/billing/billing-overage-collection.service.ts:334-369 | A period has an overage invoice afterwards exactly when it had one or something is due; nothing that was there changes, and charging again adds nothing |
| `PeriodChain.RenewalContinuesService` | src/modules/billing/billing-overage-collection.service.ts:374-421 | After a settlement the subscription serves exactly the next period if it renews and nothing at all if it does not; other subscriptions are untouched |
| `OverageCollection.MaterializedIsValid` | src/modules/billing/billing-overage-collection.service.ts:266-440 | Settling keeps references and unique columns intact |
| `PeriodChain.MaterializedWrites` | src/modules/billing/billing-overage-collection.service.ts:266-440 | Exactly which rows a settlement writes, and with what |
| `PeriodChain.SettlingLastKeepsInv` | src/modules/billing/billing-overage-collection.service.ts:266-440 | Settling the last link keeps the chain: gap-free periods, one overage invoice per positive settlement, all but the last settled |
| `PeriodRuns.StepKeepsInv` | src/modules/billing/billing-overage-collection.service.ts:266-440 | Every step, on this or any other subscription, keeps the chain invariant |
| `PeriodRuns.PeriodsTileTime` | src/modules/billing/billing-overage-collection.service.ts:389-421 | After any run every instant from the first period's start to the last one's end lies in exactly one period |
| `PeriodRuns.EachPeriodIsChargedOnce` | src/modules/billing/billing-overage-collection.service.ts:334-369 | A period has at most one overage invoice, and has one exactly when it was settled for a positive amount; all periods but the last are settled, and exactly the settled ones are marked processed |
| `PeriodRuns.ChainIsEveryPeriod` | src/modules/billing/billing-overage-collection.service.ts:389-421 | After any run the chain is exactly the subscription's own invoices |
| `PeriodRuns.CancellationEndsTheChain` | src/modules/billing/billing-overage-collection.service.ts:374-388 | Once a subscription is cancelled at period end no run opens another period for it |
| `PeriodRuns.EndedChainStaysEnded` | src/modules/billing/billing-overage-collection.service.ts:374-388 | Once a chain has ended no run adds a period or a settlement |
| `PeriodRuns.SettlingEndsOrExtends` | src/modules/billing/billing-overage-collection.service.ts:374-421 | Settling the last period ends the chain exactly when the subscription was cancelled or to be cancelled; otherwise it adds one link |
| `PeriodRuns.CurrentPeriodIsLastLink` | src/modules/billing/subscriptions.service.ts:703-717 | Without stale replays the current period is always the last link, ACTIVE until the chain ends and CANCELED afterwards |
| `PeriodRuns.ReplayKeepsCurrentExactlyWhenLive` | src/modules/billing/subscriptions.service.ts:679-717 | A repeated payment report keeps the current period right if and only if it is for the unsettled last invoice |
| `PeriodRuns.OnlyLastIsUnsettled` | src/modules/billing/billing-overage-collection.service.ts:266-300 | Of a chain's invoices only the last can be found settleable |
| `SettlementRuns.SettledUsageIsConserved` | src/modules/billing/billing-overage-collection.service.ts:334-369 | Quota-included usage plus usage billed by the overage invoices over all settled periods is the total usage of the union window, if nothing was recorded late |
| `SettlementRuns.RunIsPriced` | src/modules/billing/billing-overage-collection.service.ts:546-582 | Every settled link of a run carries the settlement of the usage in its period |
| `SettlementRuns.StepExtends` | src/modules/billing/billing-overage-collection.service.ts:266-440 | Steps only ever extend a chain and never change a link's period |
| `CatchUp.CatchUpTerminates` | src/modules/billing/billing-overage-collection.service.ts:82-128 | Passes of the worker an overdue subscription needs: enough once n * 28 days exceed the delay, not enough while n * 31 days fit in it |
| `CatchUp.PassIsTheWorkersPass` | src/modules/billing/billing-overage-collection.service.ts:60-167 | Those passes leave the tables that a whole pass of the worker leaves, settlements and charges together |
| `CatchUp.PassAdvances` | src/modules/billing/billing-overage-collection.service.ts:82-128 | A pass that gets to an overdue subscription moves its end one period on or ends its chain, whatever else it settles, charges or fails at |
| `CatchUp.RoomGetsTo` | src/modules/billing/billing-overage-collection.service.ts:82-101 | A pass gets to every overdue subscription whose settlement does not throw when its batch is not full |
| `ChainStart.CheckoutStartsChain` | src/modules/billing/stripe-webhooks.service.ts:69-101 | Subscribing to a free plan and completing its checkout starts a chain with one unsettled, current period |
| `ChainStart.RedeliveredCheckoutMovesBack` | src/modules/billing/stripe-webhooks.service.ts:69-101 | A completed checkout delivered again after its period was followed by another makes the old period current |
| `ChainStart.EveryRenewalCanBeMovedBack` | src/modules/billing/stripe-webhooks.service.ts:69-101 | For every free subscription, a run of one renewal and one redelivery after which the current period is not the last |
| `OverageBatch.OverageWorker.ProcessDueOverageCollection` | src/modules/billing/billing-overage-collection.service.ts:60-167 | A pass settles the selected periods one by one, then charges the uncharged overage invoices of the resulting tables; the three counters count what was done and what threw |
| `OverageBatch.OverageWorker.CollectOverageInvoice` | src/modules/billing/billing-overage-collection.service.ts:442-528 | Skipped exactly when the invoice is not an uncharged DRAFT for overage; recorded exactly when the provider answers with an external invoice no other row has, and then the invoice shows the answered status, id and attempts; unless it is recorded the tables are as they were, and no other row ever changes |
| `OverageBatch.ChargeTakesEffect` | src/modules/billing/billing-overage-collection.service.ts:443-525 | What a charge shows, for every answer of the provider |
| `OverageBatch.ChargesAreRecorded` | src/modules/billing/billing-overage-collection.service.ts:130-160 | Over a whole batch every selected invoice shows the answer it was given, those it threw at and all others stay as they were, when the provider names each charge an external invoice of its own |
| `OverageBatch.AwaitingAreSelected` | src/modules/billing/billing-overage-collection.service.ts:130-144 | With room in the batch every Stripe overage invoice that awaits its charge is selected, and otherwise the oldest are |
| `OverageBatch.SettledOverageAwaitsItsCharge` | src/modules/billing/billing-overage-collection.service.ts:334-369 | The invoice a settlement bills overage by is one that the next selection with room charges |
| `OverageBatch.DuePeriodsAreSettled` | src/modules/billing/billing-overage-collection.service.ts:82-128 | A pass settles every period it selected except those that throw and touches no other invoice; with room in the batch that is every period that is over |
| `OverageBatch.EarliestPeriodsFirst` | src/modules/billing/billing-overage-collection.service.ts:94-101 | A period left out of a full selection ended no earlier than any selected |
| `OverageBatch.EndedPeriodsAreSelected` | src/modules/billing/billing-overage-collection.service.ts:82-101 | With room in the batch every period that was paid for at Stripe, is over and was not settled is selected, and nothing else ever is |
| `OverageBatch.RecordedChargeIsNotRepeated` | src/modules/billing/billing-overage-collection.service.ts:130-160 | An overage invoice whose charge was recorded is never selected for charging again, under any run of billing operations |
| `OverageBatch.StepKeepsReported` | src/modules/billing/subscriptions.service.ts:571-626 | No billing operation returns an invoice to DRAFT |
| `InvoiceQuery.FoundAreDue` | src/modules/billing/billing-managed-retry.service.ts:76-117 | A selection returns distinct rows its clause keeps, and all of them when it is not full |
| `InvoiceQuery.FoundAreFirst` | src/modules/billing/billing-managed-retry.service.ts:102-110 | A row left out of a full selection sorts no earlier than any row selected |
| `StableSort.SortedFirstIsBest` | src/modules/usage/usage-ingest-worker.service.ts:88-100 | ORDER BY with a limit: sorted, of the right length, and nothing left out comes before what is in |
| `SubscriptionsService.Subscriptions.MarkInvoicePaid` | src/modules/billing/subscriptions.service.ts:629-720 | The two updates as specified, ignored for a PAID invoice bound elsewhere; when done the invoice is PAID with nothing left to attempt or retry, its subscription is ACTIVE and serves exactly its period, and no other row changes |
| `SubscriptionsService.Subscriptions.MarkInvoiceFailed` | src/modules/billing/subscriptions.service.ts:722-842 | Likewise for a failure: when done the invoice shows the reported status and attempts, its subscription is past due and served exactly to the end of its grace, and no other row changes |
| `SubscriptionsService.Subscriptions.SyncInvoiceFromExternal` | src/modules/billing/subscriptions.service.ts:538-627 | Resolution, then the update for the status: after a DRAFT the invoice shows the amount, period, provider and external id of the event, after a PAID or failure what such a report shows; partial writes included |
| `SubscriptionsService.Subscriptions.ResolveInvoiceForExternalSync` | src/modules/billing/subscriptions.service.ts:1055-1139 | By external id, else by usable metadata, else created for the external subscription |
| `ReportEffects.PaymentTakesEffect` | src/modules/billing/subscriptions.service.ts:629-720 | A payment report is ignored exactly when the invoice is paid for under another id; what it does otherwise shows in the invoice and its subscription alone |
| `ReportEffects.PaymentIsApplied` | src/modules/billing/subscriptions.service.ts:629-720 | It is applied exactly when its invoice is stored, not paid for under another id, and the ids it names belong to no other row |
| `ReportEffects.RefusedPaymentLeavesSubscription` | src/modules/billing/subscriptions.service.ts:679-717 | Refused for an id another row has, it leaves the subscription as it was, and the invoice PAID exactly when only the subscription id was taken |
| `ReportEffects.ReportedIdsAreFound` | src/modules/billing/subscriptions.service.ts:679-717 | The external invoice and subscription ids a payment names are found under those names afterwards |
| `ReportEffects.FailureTakesEffect` | src/modules/billing/subscriptions.service.ts:722-842 | A failure report likewise, with the retry schedule: one under way goes on, one that is not starts with the first delay, and there is none for anything but a past due renewal at Stripe |
| `ReportEffects.FailureIsApplied` | src/modules/billing/subscriptions.service.ts:722-842 | It is applied exactly when its invoice is stored, not paid for under another id, and the ids it names belong to no other row |
| `ReportEffects.RefusedFailureLeavesSubscription` | src/modules/billing/subscriptions.service.ts:722-842 | A failure refused for an id another row has leaves the subscription as it was |
| `ReportEffects.ResolutionIsExact` | src/modules/billing/subscriptions.service.ts:1055-1139 | An event is about the invoice bound to its external id; else the one it names, if it may; else a new DRAFT of its amount and period for its subscription, which has to be known |
| `ReportEffects.EventTakesEffect` | src/modules/billing/subscriptions.service.ts:538-627 | An event shows in the columns of exactly the invoice it is about, for every status it reports |
| `ReportEffects.DraftThenPaymentOpensPeriod` | src/modules/billing/subscriptions.service.ts:571-620 | A renewal that is drafted and then paid serves its subscription exactly from the drafted start to the drafted end, for the drafted amount |
| `ReportEffects.PaymentAloneOpensPeriod` | src/modules/billing/subscriptions.service.ts:1097-1139 | A payment no draft announced opens exactly the period it carries |
| `ReportEffects.PastDueEventServesGrace` | src/modules/billing/subscriptions.service.ts:872-968 | An event that reports a subscription past due leaves it served exactly to the later of its deadline and the full grace after now or its period end |
| `ReportEffects.SoldSubscriptionAwaitsPayment` | src/modules/billing/subscriptions.service.ts:384-420 | A new subscription serves nothing and has one unpaid invoice, at the price of its plan, for its first period |
| `ReportEffects.SoldSubscriptionIsPaid` | src/modules/billing/subscriptions.service.ts:679-717 | Paying for it lets it serve exactly that period |
| `EventRedelivery.CancelledTwice` | src/modules/billing/subscriptions.service.ts:844-870 | Applied exactly when a subscription has the external id; that one then serves no request and has no deadline, all else is unchanged, and cancelling again does nothing |
| `EventRedelivery.SubscriptionEventTwice` | src/modules/billing/subscriptions.service.ts:872-929 | Takes effect on its subscription alone, keeps what the event does not carry, and delivered again at the same time does nothing |
| `EventRedelivery.ActivationOpensPeriod` | src/modules/billing/subscriptions.service.ts:872-929 | An event that reports a subscription ACTIVE in a period lets it serve exactly that period |
| `EventRedelivery.CheckoutTwice` | src/modules/billing/subscriptions.service.ts:481-536 | Stores the session and the external subscription it names and changes no charge and no service; recording it again does nothing, also after failing half-way |
| `EventRedelivery.CancelAtPeriodEndTwice` | src/modules/billing/subscriptions.service.ts:151-204 | Takes no service away before the period ends, or the end the provider reported; asking again does nothing |
| `EventRedelivery.PaidTwice` | src/modules/billing/subscriptions.service.ts:629-720 | A payment reported again changes nothing and is answered as before, also after failing half-way |
| `EventRedelivery.FailedTwice` | src/modules/billing/subscriptions.service.ts:722-842 | A failure reported again at the same time restarts neither the retry schedule nor the deadline |
| `BillingDb.AddUtcDaysIsSetUtcDate` | src/modules/billing/subscriptions.service.ts:953-967 | Adding grace days through the date field adds exactly that many days |
| `BillingDb.InvoiceByExternalId` | src/modules/billing/subscriptions.service.ts:1066-1075 | The unique lookup finds an invoice exactly when one is bound |
| `BillingDb.SubscriptionByExternalId` | src/modules/billing/subscriptions.service.ts:1103-1115 | The unique lookup finds a subscription exactly when one has the id |
| `BillingDb.MarkPaidIsValid` | src/modules/billing/subscriptions.service.ts:629-720 | A payment report keeps references and unique columns intact |
| `BillingDb.MarkFailedIsValid` | src/modules/billing/subscriptions.service.ts:722-842 | A failure report keeps references and unique columns intact |
| `BillingDb.SyncInvoiceIsValid` | src/modules/billing/subscriptions.service.ts:538-627 | A sync keeps references and unique columns intact, also when it fails half-way |
| `BillingSteps.StepIsValid` | src/modules/billing/subscriptions.service.ts:481-929 | Every billing operation keeps references, unique columns and plans intact |
| `ExternalBinding.ExternalIdNamesOneInvoice` | src/modules/billing/subscriptions.service.ts:1055-1139 | Over any run two successful syncs use the same invoice if and only if they are for the same external id, whatever metadata they carry |
| `ExternalBinding.ExternalIdCreatesOneInvoice` | src/modules/billing/subscriptions.service.ts:1097-1139 | Each external id creates at most one invoice, counting creations whose later update failed |
| `ExternalBinding.BindingIsWrittenOnce` | src/modules/billing/subscriptions.service.ts:571-626 | A binding is never changed by any later step |
| `ExternalBinding.SyncBinds` | src/modules/billing/subscriptions.service.ts:538-627 | A sync keeps every binding and a successful one binds its external id to the invoice it used |
| `ExternalBinding.ReportsKeepBindingsExactlyWhenConsistent` | src/modules/billing/subscriptions.service.ts:679-702 | A direct payment report that is applied keeps all bindings if and only if it does not name another external invoice than its row is bound to |
| `ExternalBinding.LateChargeRebinds` | src/modules/billing/billing-overage-collection.service.ts:494-525 | A charge answered with another external invoice than a draft webhook bound meanwhile takes that binding away, for every overage invoice |
| `ExternalBinding.RebindingRun` | src/modules/billing/billing-overage-collection.service.ts:494-525 | One such run, from stored tables to the lost binding |
| `StaleDrafts.StaleDraftsAreErasable` | src/modules/billing/subscriptions.service.ts:571-626 | Deleting all DRAFT events of an external invoice leaves the bound invoice, its status, retry state and (past DRAFT) attempts and every subscription status the same |
| `StaleDrafts.DraftsDoNotAffectOutcomes` | src/modules/billing/subscriptions.service.ts:571-626 | Deleting the drafts does not change which payment reports are applied or why they fail |
| `StaleDrafts.LastReportDecides` | src/modules/billing/subscriptions.service.ts:571-626 | The last applied report alone decides the invoice's status and attempts and its subscription's status, however many drafts follow |
| `StaleDrafts.FinalsAreAhead` | src/modules/billing/subscriptions.service.ts:571-626 | With and without drafts, runs stay in step up to the columns drafts may write |
| `GraceDeadlines.DeadlineImpliesPastDue` | src/modules/billing/subscriptions.service.ts:931-968 | In every reachable state only a past due subscription has a grace deadline |
| `GraceDeadlines.DeadlineNeverMovesEarlier` | src/modules/billing/subscriptions.service.ts:931-968 | While a subscription stays past due in a known period its deadline never moves earlier, under any billing steps |
| `GraceDeadlines.EveryFailureAllowsFullGrace` | src/modules/billing/subscriptions.service.ts:821-839 | From a failure on, for as long as the subscription stays past due, the deadline is at or after max(now, period end) + grace days of that failure |
| `GraceDeadlines.DeadlineAfterFailureIsExact` | src/modules/billing/subscriptions.service.ts:931-968 | A failure leaves no deadline if and only if grace is off or the period start is unknown; otherwise exactly the later of the old deadline and max(now, period end) + grace days |
| `GraceDeadlines.StepMoves` | src/modules/billing/subscriptions.service.ts:703-926 | All that any billing operation can do to a status and its deadline |
| `ManagedRetryPolicy.InitialRetryState` | src/modules/billing/billing-managed-retry.policy.ts:17-30 | No retry made; the first is due its delay after the failure if there is a delay, else exhausted at the failure |
| `ManagedRetryPolicy.RetryStateAfterAttempt` | src/modules/billing/billing-managed-retry.policy.ts:32-52 | One more retry made, at this time and with this error; the next is due its own delay after it if there is one, else exhausted now |
| `Dunning.BillingManagedRetry.ProcessDueRetries` | src/modules/billing/billing-managed-retry.service.ts:57-141 | The batch is retried in order, a retry that throws is counted and the rest goes on; processed + failed is the batch size |
| `Dunning.BillingManagedRetry.ProcessInvoiceRetry` | src/modules/billing/billing-managed-retry.service.ts:246-311 | Returns exactly when the answer can be stored; then the invoice has the answered status and its subscription is ACTIVE in exactly the period of the invoice, with no deadline, if PAID was answered, else past due; a retry that throws only advances the schedule |
| `Dunning.RetryTakesEffect` | src/modules/billing/billing-managed-retry.service.ts:246-311 | What a retry shows, for every answer of the provider and every failure of the report |
| `Dunning.FailedRenewalComesDue` | src/modules/billing/subscriptions.service.ts:970-1029 | A renewal that fails at Stripe with no schedule under way is due exactly from its first delay on |
| `Dunning.RetriedRenewalComesDue` | src/modules/billing/billing-managed-retry.service.ts:76-101 | A renewal still past due after its retry, however that turned out, is due again exactly from its next delay on, and never if there is none |
| `Dunning.BatchIsNotDueAgain` | src/modules/billing/billing-managed-retry.service.ts:76-141 | Whatever happens in a batch, each of its invoices was due and none is due again at that time; with room in the batch nothing else is |
| `Dunning.EarliestRetriesFirst` | src/modules/billing/billing-managed-retry.service.ts:102-110 | An invoice left out of a full selection waits for a retry no earlier than any selected |
| `Dunning.RetriesAreSelected` | src/modules/billing/billing-managed-retry.service.ts:76-117 | With room in the batch every past due Stripe invoice of a past due subscription whose retry time has come, or which was never retried and has none set, is selected, and nothing else ever is |
| `Dunning.RetriedIsNotDue` | src/modules/billing/billing-managed-retry.service.ts:246-311 | A retried invoice is no longer past due, exhausted, or waiting for a later time |
| `Dunning.RetryLeavesOthers` | src/modules/billing/billing-managed-retry.service.ts:246-311 | A retry changes no other invoice |
| `DunningRuns.DunningIsBoundedAndSpaced` | src/modules/billing/billing-managed-retry.service.ts:76-141 | While a renewal stays past due, with webhooks and other retries interleaved, it is retried at most as often as there are delays (once without any if its schedule was never set up), each attempt the scheduled delay after the one before |
| `DunningRuns.ExhaustedIsNotSelected` | src/modules/billing/billing-managed-retry.service.ts:76-101 | Next retry and exhaustion are never both set, and an exhausted renewal is never selected |
| `DunningRuns.ExhaustedStaysExhausted` | src/modules/billing/billing-managed-retry.service.ts:76-141 | An exhausted renewal that stays past due is never retried again |
| `DunningRuns.BillingKeepsRetry` | src/modules/billing/subscriptions.service.ts:970-1029 | No billing operation moves the retry schedule of a renewal that stays past due; it is only set up once if it was empty |
| `DunningRuns.RetryMovesOn` | src/modules/billing/billing-managed-retry.service.ts:246-311 | A retry that leaves its invoice past due has moved it exactly one step along the schedule |
| `AlertDelivery.OperationalAlertDelivery.SyncOperationalAlerts` | src/common/observability/operational-alert-delivery.service.ts:102-244 | The nested loops leave the specified tables and counters; resolved counts the cleared alerts |
| `AlertDelivery.OperationalAlertDelivery.OfferToTargets` | src/common/observability/operational-alert-delivery.service.ts:165-228 | One alert offered to each target in turn, by the rows as they were loaded |
| `AlertDelivery.NextSendAfterAttempt` | src/common/observability/operational-alert-delivery.service.ts:406-478 | After an attempt the same alert is due again a cooldown after it if it was delivered, else a cooldown after the delivery before it, or at once if there was none |
| `AlertDelivery.OperationalAlertDelivery.ResolveClearedAlerts` | src/common/observability/operational-alert-delivery.service.ts:480-513 | Exactly the cleared alerts and their unresolved target rows are resolved, in whatever order the rows come |
| `AlertRuns.UnresolvedAreActive` | src/common/observability/operational-alert-delivery.service.ts:102-244 | After every cycle the unresolved alerts are exactly the active kinds, whatever state it started from |
| `AlertRuns.NoTargetOutlivesItsAlert` | src/common/observability/operational-alert-delivery.service.ts:480-513 | In every run a target row is unresolved only while its alert is |
| `AlertRuns.DeliveriesAreACooldownApart` | src/common/observability/operational-alert-delivery.service.ts:515-549 | After a delivery, a target is not even tried again before a cooldown has passed while the alert stays active unchanged, whatever fails in between |
| `AlertRuns.FailedDeliveryIsRetriedExactlyAfterOldCooldown` | src/common/observability/operational-alert-delivery.service.ts:443-478 | After a failed attempt the next cycle retries if and only if the target had never been told of anything or a cooldown has passed since it last was |
| `AlertRuns.ChangedAlertIsHeldBack` | src/common/observability/operational-alert-delivery.service.ts:443-478 | A changed alert whose first delivery fails is withheld in the next cycle although its target has not heard of it |
| `AlertRuns.CountersAreExact` | src/common/observability/operational-alert-delivery.service.ts:155-237 | delivered and failed are the numbers of targets the cycle told and tried in vain, each (alert, target) pair once |
| `AlertRuns.OfferedCounts` | src/common/observability/operational-alert-delivery.service.ts:371-404 | An alert row's delivery and failure counts grow by exactly the targets it reached and missed |
| `AlertRuns.AlertAfterCycle` | src/common/observability/operational-alert-delivery.service.ts:337-369 | Every alert row after a cycle: observed now, with its fingerprint and the time it was first seen so, resolved, or unchanged |
| `AlertRuns.TargetAfterCycle` | src/common/observability/operational-alert-delivery.service.ts:177-228 | Every target row after a cycle: tried, resolved with its alert, or unchanged |
| `AlertRuns.NewsIsTriedAtOnce` | src/common/observability/operational-alert-delivery.service.ts:515-549 | A configured target is tried at once when it has no row, or one that is resolved, of another fingerprint or never reached, and otherwise exactly once a cooldown has passed |
| `AlertRuns.TargetRemembersItsHistory` | src/common/observability/operational-alert-delivery.service.ts:406-478 | After every run from empty tables a target row shows how often it was reached and how often tried in vain, when last, with which fingerprint and outcome |
| `AlertRuns.AlertCountsItsTargets` | src/common/observability/operational-alert-delivery.service.ts:371-404 | A cycle raises the counts of an active alert by exactly the targets it reached and those it could not reach |
| `AlertRuns.AlertShowsSinceWhen` | src/common/observability/operational-alert-delivery.service.ts:551-570 | Over every run of cycles that see an alert unchanged its row shows the first and the last of them |

## Left out

- Floating point: token counts, the burst multiplier and rates are exact reals, prices and counts exact integers.
- The range of JavaScript dates (TimeClip and invalid dates): times are unbounded integers.
- Identifiers are opaque numbers given out in order of creation; currencies, descriptions, user and product rows, and the key hashing behind API-key lookup are not part of this model.
- Stripe and webhook HTTP calls: their results are parameters (paid, past due, void, or an error). Exactly-once charging is not claimed, because a charge and the update that records it are not atomic.
- Timers, logging, metrics text, controllers, guards and input validation: no state the properties depend on. The isRunning flags are part of the lease protocol (WorkerLease); the batches are modelled as run by whoever holds the lease.
- The collation behind the endpoint order is any real-valued key, so it may fail to separate endpoints; `EndpointRanking.TopIsUnique` says when it does.
- One clock reading per operation, where the code reads the clock several times inside one.
- The retry loop around serialization failures is modelled for the burst limiter only; in the other services such a failure is a transaction that leaves nothing behind.
- A bucket row that another transaction creates or deletes between the reads of lockBucketRow.
- A crash between the provider's answer and the update that records it; updates that fail by a unique column are modelled, with the partial writes they leave.
- Plans that change while subscriptions use them, and deleted rows.
- Two subscribe calls racing for one product: the advisory lock and the lookup behind it.
- The read-only summaries of usage and billing, analytics, catalog, users, auth, keys and admin: folds and branch checks without a deep property.
- Gateway URL building, header filtering, streaming and OpenAPI parsing: string handling.
- QuotaRuns.QuotaIsKeptExactlyByHarmlessRows: for plans whose rate limit, if any, leaves room for the quota and one more request in a minute, and for windows that a row gives; without that room the rate limit alone may keep the quota.
- RateRuns.RateIsKeptExactlyWhenNothingHidden: for plans whose quota leaves room for twice the rate limit; without that room the quota alone may keep the rate.
- SettlementRuns.SettledUsageIsConserved: usage recorded for a period after its settlement is never billed, so it assumes there is none.
- DunningRuns.DunningIsBoundedAndSpaced: for subscription invoices only; overage invoices can also be selected, and a failure report clears their retry columns.
- AlertDelivery.OperationalAlertDelivery.SyncOperationalAlerts: the rows' titles, messages and details, which the fingerprint stands for, and whether a message is worded as a reminder.
- UsageIndex.EveryReachableStoreIsValid: the column recording whether a row was counted by endpoint is the model's own bookkeeping; nothing the services compute depends on it.
