/** Authorizing and consuming usage (usage.service.ts): which subscription serves a request, in which
    window it is counted, and the quota and rate checks made under the subscription's row lock. */
module Metering {
  import opened Common
  import opened BillingTypes
  import opened UsageIndex
  import opened UsageStore

  const RATE_LIMIT_WINDOW_MS: int := 60 * 1000

  datatype Window = Window(gte: int, lt: int)

  datatype Request = Request(endpoint: string, requestCount: int, occurredAt: int)

  predicate Contains(w: Window, t: int) { w.gte <= t < w.lt }

  /** getUsageWindow */
  function GetUsageWindow(sub: Subscription, occurredAt: int): (w: Option<Window>)
    ensures w.Some? ==> Contains(w.value, occurredAt) && sub.currentPeriodStart == Some(w.value.gte)
    ensures w.Some? ==> Some(w.value.lt) == if sub.status == SUB_PAST_DUE then sub.gracePeriodEndsAt
        else sub.currentPeriodEnd
  {
    if sub.currentPeriodStart.None? || sub.currentPeriodStart.value > occurredAt then None
    else if sub.status == SUB_PAST_DUE then
      if sub.gracePeriodEndsAt.None? || sub.gracePeriodEndsAt.value <= occurredAt then None
      else Some(Window(sub.currentPeriodStart.value, sub.gracePeriodEndsAt.value))
    else if sub.currentPeriodEnd.None? || sub.currentPeriodEnd.value <= occurredAt then None
    else Some(Window(sub.currentPeriodStart.value, sub.currentPeriodEnd.value))
  }

  /** The where clause of the subscription lookup; comparisons with a null column are not true. */
  predicate Serves(sub: Subscription, occurredAt: int) {
    && sub.currentPeriodStart.Some? && sub.currentPeriodStart.value <= occurredAt
    && ((sub.status == ACTIVE && sub.currentPeriodEnd.Some? && sub.currentPeriodEnd.value > occurredAt)
        || (sub.status == SUB_PAST_DUE && sub.gracePeriodEndsAt.Some? && sub.gracePeriodEndsAt.value > occurredAt))
  }

  /** Requests are served in this time and at no other. */
  ghost predicate ServesExactly(sub: Subscription, from: int, until: int) {
    forall t :: Serves(sub, t) <==> from <= t < until
  }

  /** ORDER BY column DESC, where nulls come first. */
  predicate LaterOrNull(a: Option<int>, b: Option<int>) {
    b.Some? && (a.None? || a.value > b.value)
  }

  /** gracePeriodEndsAt desc, currentPeriodEnd desc, createdAt desc */
  predicate PreferredTo(a: Subscription, b: Subscription) {
    || LaterOrNull(a.gracePeriodEndsAt, b.gracePeriodEndsAt)
    || (a.gracePeriodEndsAt == b.gracePeriodEndsAt
        && (LaterOrNull(a.currentPeriodEnd, b.currentPeriodEnd)
            || (a.currentPeriodEnd == b.currentPeriodEnd && a.createdAt > b.createdAt)))
  }

  /** A subscription row found by the lookup, with its id. */
  datatype Candidate = Candidate(id: Id, row: Subscription)

  /** subscription.findFirst over the user's subscriptions to the product */
  function FindSubscription(candidates: seq<Candidate>, occurredAt: int): (found: Option<Candidate>)
    ensures found.Some? <==> exists c :: c in candidates && Serves(c.row, occurredAt)
    ensures found.Some? ==> found.value in candidates && Serves(found.value.row, occurredAt)
    ensures found.Some? ==>
              forall c :: c in candidates && Serves(c.row, occurredAt) ==> !PreferredTo(c.row, found.value.row)
  {
    if candidates == [] then None
    else
      var rest := FindSubscription(candidates[1..], occurredAt);
      assert forall c :: c in candidates <==> c == candidates[0] || c in candidates[1..];
      if !Serves(candidates[0].row, occurredAt) then rest
      else if rest.Some? && PreferredTo(rest.value.row, candidates[0].row) then rest
      else Some(candidates[0])
  }

  /** The subscription found is the one whose deadline is latest, where none counts as latest of all; among equals the
      one whose period ends last; among those the newest. */
  lemma FoundEndsLast(candidates: seq<Candidate>, occurredAt: int, c: Candidate)
    requires c in candidates && Serves(c.row, occurredAt)
    ensures FindSubscription(candidates, occurredAt).Some?
    ensures var found := FindSubscription(candidates, occurredAt).value.row;
            var grace, best := c.row.gracePeriodEndsAt, found.gracePeriodEndsAt;
            && (best.None? || (grace.Some? && grace.value <= best.value))
            && (grace == best ==>
                  var end, last := c.row.currentPeriodEnd, found.currentPeriodEnd;
                  && (last.None? || (end.Some? && end.value <= last.value))
                  && (end == last ==> c.row.createdAt <= found.createdAt))
  {
    assert !PreferredTo(c.row, FindSubscription(candidates, occurredAt).value.row);
  }

  /** A subscription that serves a request has a window for it; among ACTIVE and PAST_DUE ones the converse
      holds too, so the null check after the lookup never rejects. Other statuses have windows but do not serve. */
  lemma ServingMeansWindow(sub: Subscription, occurredAt: int)
    ensures Serves(sub, occurredAt)
       <==> (sub.status == ACTIVE || sub.status == SUB_PAST_DUE) && GetUsageWindow(sub, occurredAt).Some?
  {
  }

  /** The window a subscription row gives every request it serves. */
  function WindowOf(sub: Subscription): Option<Window> {
    var end := if sub.status == ACTIVE then sub.currentPeriodEnd
               else if sub.status == SUB_PAST_DUE then sub.gracePeriodEndsAt
               else None;
    if sub.currentPeriodStart.Some? && end.Some? && sub.currentPeriodStart.value < end.value
    then Some(Window(sub.currentPeriodStart.value, end.value))
    else None
  }

  lemma ServesItsWindow(sub: Subscription, occurredAt: int)
    ensures Serves(sub, occurredAt) <==> WindowOf(sub).Some? && Contains(WindowOf(sub).value, occurredAt)
    ensures Serves(sub, occurredAt) ==> GetUsageWindow(sub, occurredAt) == WindowOf(sub)
  {
  }

  /** getRateLimitWindowStart: 60 seconds back, but not before the period. */
  function RateWindowStart(occurredAt: int, periodStart: int): int {
    Max(occurredAt - RATE_LIMIT_WINDOW_MS, periodStart)
  }

  /** Usage in the closed rate window that ends at the request. */
  function RateUsage(rs: seq<UsageRecord>, s: Id, occurredAt: int, periodStart: int): int {
    ScanSum(rs, s, RateWindowStart(occurredAt, periodStart), occurredAt + 1)
  }

  predicate QuotaBlocks(plan: Plan, used: int, requested: int) {
    !plan.allowOverage && used + requested > plan.quotaRequests
  }

  predicate RateBlocks(plan: Plan, used: int, requested: int) {
    plan.rateLimitRpm.Some? && used + requested > plan.rateLimitRpm.value
  }

  datatype Decision =
    | NoActiveSubscription
    | QuotaExceeded(usedRequests: int, remainingRequests: int)
    | RateLimitExceeded(usedRequests: int, remainingRequests: int, remainingRateLimitRequests: Option<int>)
    | Allowed(usedRequests: int, remainingRequests: int, remainingRateLimitRequests: Option<int>)

  function UsageOf(s: Id, request: Request): UsageInput {
    UsageInput(s, request.occurredAt, request.endpoint, request.requestCount, None)
  }

  /** What the checks say of a request, on the plain records: the quota refuses first, then the rate; what
      is left is never reported negative, and an allowed request is counted in what it reports. */
  function Decide(rs: seq<UsageRecord>, s: Id, plan: Plan, w: Window, request: Request): (d: Decision)
    ensures d.Allowed? ==>
              && (plan.allowOverage || d.usedRequests <= plan.quotaRequests)
              && d.usedRequests == ScanSum(rs, s, w.gte, w.lt) + request.requestCount
    ensures d.QuotaExceeded?
       <==> !plan.allowOverage && ScanSum(rs, s, w.gte, w.lt) + request.requestCount > plan.quotaRequests
    ensures d.RateLimitExceeded?
       <==> && !d.QuotaExceeded? && plan.rateLimitRpm.Some?
            && ScanSum(rs, s, Max(request.occurredAt - 60000, w.gte), request.occurredAt + 1) + request.requestCount
               > plan.rateLimitRpm.value
    ensures !d.NoActiveSubscription? && d.remainingRequests == Max(0, plan.quotaRequests - d.usedRequests)
    ensures !d.Allowed? ==> d.usedRequests == ScanSum(rs, s, w.gte, w.lt)
    ensures d.Allowed? || d.RateLimitExceeded? ==>
              var minute := ScanSum(rs, s, Max(request.occurredAt - 60000, w.gte), request.occurredAt + 1)
                  + if d.Allowed? then request.requestCount else 0;
              d.remainingRateLimitRequests
              == if plan.rateLimitRpm.Some? then Some(Max(0, plan.rateLimitRpm.value - minute)) else None
  {
    var used := ScanSum(rs, s, w.gte, w.lt);
    var rate := RateUsage(rs, s, request.occurredAt, w.gte);
    var n := request.requestCount;
    if QuotaBlocks(plan, used, n) then QuotaExceeded(used, Max(0, plan.quotaRequests - used))
    else if RateBlocks(plan, rate, n) then
      RateLimitExceeded(used, Max(0, plan.quotaRequests - used), Some(Max(0, plan.rateLimitRpm.value - rate)))
    else
      Allowed(used + n, Max(0, plan.quotaRequests - (used + n)),
              if plan.rateLimitRpm.Some? then Some(Max(0, plan.rateLimitRpm.value - rate - n)) else None)
  }

  /** The requests of the minute up to this one, as far back as the subscription's period goes. */
  function MinuteSum(rs: seq<UsageRecord>, c: Candidate, t: int): int
    requires c.row.currentPeriodStart.Some?
  {
    ScanSum(rs, c.id, Max(t - 60000, c.row.currentPeriodStart.value), t + 1)
  }

  /** What a request comes to: it is turned away exactly when no subscription serves it; otherwise one that does is
      charged for it and refuses it exactly when its quota, or else its limit for 60 seconds, would be passed. An allowed
      request is recorded once, where it belongs; a refused one leaves no trace. */
  ghost predicate IsAuthorized(
    before: seq<UsageRecord>, after: seq<UsageRecord>, candidates: seq<Candidate>, request: Request, d: Decision)
  {
    var t, found := request.occurredAt, FindSubscription(candidates, request.occurredAt);
    && (d.NoActiveSubscription? <==> forall c :: c in candidates ==> !Serves(c.row, t))
    && (!d.Allowed? ==> after == before)
    && (found.Some? ==>
          var c := found.value;
          && c in candidates && Serves(c.row, t) && c.row.currentPeriodStart.Some?
          && (d.RateLimitExceeded? <==>
                && !d.QuotaExceeded? && c.row.plan.rateLimitRpm.Some?
                && MinuteSum(before, c, t) + request.requestCount > c.row.plan.rateLimitRpm.value)
          && (d.Allowed? && c.row.plan.rateLimitRpm.Some? ==> MinuteSum(after, c, t) <= c.row.plan.rateLimitRpm.value)
          && (d.Allowed? ==> forall s, e, from, until ::
                ScanEndpoint(after, s, e, from, until) == ScanEndpoint(before, s, e, from, until)
                  + if s == c.id && e == request.endpoint && from <= t < until then request.requestCount else 0))
  }

  lemma DecisionIsAuthorized(db: UsageDb, candidates: seq<Candidate>, request: Request, now: int)
    requires request.requestCount >= 1
    ensures var found := FindSubscription(candidates, request.occurredAt);
            && (found.None? ==> IsAuthorized(db.records, db.records, candidates, request, NoActiveSubscription))
            && (found.Some? ==>
                  var c := found.value;
                  && GetUsageWindow(c.row, request.occurredAt).Some?
                  && var w := GetUsageWindow(c.row, request.occurredAt).value;
                     var d := Decide(db.records, c.id, c.row.plan, w, request);
                     var after := if d.Allowed? then Recorded(db, UsageOf(c.id, request), now) else db;
                     IsAuthorized(db.records, after.records, candidates, request, d))
  {
    var found := FindSubscription(candidates, request.occurredAt);
    if found.Some? {
      ServingMeansWindow(found.value.row, request.occurredAt);
      RecordedIsCounted(db, UsageOf(found.value.id, request), now);
    }
  }

  /** authorizeUsageWithConsumption: one transaction that decides and, if it allows, records. */
  method AuthorizeUsageWithConsumption(store: UsageStore, candidates: seq<Candidate>, request: Request, now: int)
    returns (decision: Decision)
    requires Valid(store.Db()) && request.requestCount >= 1
    modifies store
    ensures Valid(store.Db())
    ensures var found := FindSubscription(candidates, request.occurredAt);
            && decision == (if found.None? then NoActiveSubscription
                            else var c := found.value;
                                 ServingMeansWindow(c.row, request.occurredAt);
                                 Decide(old(store.records), c.id, c.row.plan,
                                        GetUsageWindow(c.row, request.occurredAt).value, request))
            && store.Db() == if decision.Allowed? then Recorded(old(store.Db()), UsageOf(found.value.id, request), now)
                             else old(store.Db())
    ensures IsAuthorized(old(store.records), store.records, candidates, request, decision)
  {
    DecisionIsAuthorized(store.Db(), candidates, request, now);
    var found := FindSubscription(candidates, request.occurredAt);
    if found.None? {
      return NoActiveSubscription;
    }
    var subscription := found.value;
    ServingMeansWindow(subscription.row, request.occurredAt);
    var usageWindow := GetUsageWindow(subscription.row, request.occurredAt).value;
    var plan := subscription.row.plan;
    var usedRequests := store.SumUsageForWindow(subscription.id, usageWindow.gte, usageWindow.lt);
    var nextUsedRequests := usedRequests + request.requestCount;
    var remainingRateLimitRequests: Option<int> := None;
    if !plan.allowOverage && nextUsedRequests > plan.quotaRequests {
      return QuotaExceeded(usedRequests, Max(0, plan.quotaRequests - usedRequests));
    }
    if plan.rateLimitRpm.Some? {
      var rateLimitRpm := plan.rateLimitRpm.value;
      var usedRateLimitRequests := SumRaw(store.records,
        Where(subscription.id, None, RateWindowStart(request.occurredAt, usageWindow.gte), request.occurredAt + 1,
            AnyRow));
      if usedRateLimitRequests + request.requestCount > rateLimitRpm {
        return RateLimitExceeded(usedRequests, Max(0, plan.quotaRequests - usedRequests),
                                 Some(Max(0, rateLimitRpm - usedRateLimitRequests)));
      }
      remainingRateLimitRequests := Some(Max(0, rateLimitRpm - usedRateLimitRequests - request.requestCount));
    }
    var outcome := store.RecordUsageInTransaction(UsageOf(subscription.id, request), now);
    decision := Allowed(nextUsedRequests, Max(0, plan.quotaRequests - nextUsedRequests), remainingRateLimitRequests);
  }
}
