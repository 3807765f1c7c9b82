/** The shared burst limiter (gateway-burst-limiter.service.ts): a token bucket per key, stored with the
    time it was last refilled. Token counts are exact reals. */
module BurstLimiter {
  import opened Common

  type Key = nat

  const MAX_TRANSACTION_RETRIES: int := 3

  datatype Config = Config(enabled: bool, windowSeconds: int, multiplier: real, minRequests: int, maxRequests: int)

  /** What the environment schema accepts. */
  predicate ValidConfig(c: Config) {
    c.windowSeconds >= 1 && c.multiplier > 0.0 && c.minRequests >= 1 && c.maxRequests >= 1
  }

  datatype Bucket = Bucket(tokens: real, lastRefillAt: int)

  datatype Decision = Decision(
    allowed: bool,
    burstLimit: Option<int>,
    remainingBurstRequests: Option<int>,
    burstWindowSeconds: Option<int>,
    retryAfterSeconds: Option<int>)

  function Ceil(x: real): int { -((-x).Floor) }

  /** resolveBurstLimit; None switches the limiter off. */
  function ResolveBurstLimit(c: Config, rateLimitRpm: Option<int>): (limit: Option<int>)
    requires ValidConfig(c)
    ensures limit.Some? <==> c.enabled && rateLimitRpm.Some? && rateLimitRpm.value > 0
    ensures limit.Some? ==> 1 <= limit.value <= c.maxRequests
    ensures limit.Some? && c.minRequests <= c.maxRequests ==> c.minRequests <= limit.value
    ensures limit.Some? ==>
              var earned := rateLimitRpm.value as real * c.windowSeconds as real * c.multiplier / 60.0;
              && (limit.value == c.maxRequests || limit.value as real >= earned)
              && (limit.value == Min(c.minRequests, c.maxRequests) || (limit.value - 1) as real < earned)
  {
    if !c.enabled || rateLimitRpm.None? || rateLimitRpm.value <= 0 then None
    else
      var burst := Ceil(rateLimitRpm.value as real * c.windowSeconds as real * c.multiplier / 60.0);
      Some(Min(c.maxRequests, Max(c.minRequests, burst)))
  }

  function RatePerSecond(limit: int, windowSeconds: int): real
    requires windowSeconds >= 1
  {
    limit as real / windowSeconds as real
  }

  /** Tokens earned between two times; a clock that went back earns nothing. */
  function Earned(rate: real, from: int, to: int): real {
    Max(0, to - from) as real / 1000.0 * rate
  }

  function RMin(a: real, b: real): real { if a <= b then a else b }

  function RefillTokens(b: Bucket, now: int, limit: int, rate: real): real {
    RMin(limit as real, b.tokens + Earned(rate, b.lastRefillAt, now))
  }

  /** The bucket a check finds: created full if there is none. */
  function LockedBucket(stored: Option<Bucket>, limit: int, now: int): Bucket {
    OrElse(stored, Bucket(limit as real, now))
  }

  /** Tokens a check at time now has to spend. */
  function Level(stored: Option<Bucket>, limit: int, rate: real, now: int): real {
    RefillTokens(LockedBucket(stored, limit, now), now, limit, rate)
  }

  predicate Admits(stored: Option<Bucket>, limit: int, rate: real, requestCount: int, now: int) {
    requestCount <= limit && Level(stored, limit, rate, now) >= requestCount as real
  }

  /** The bucket after a check; a request above the limit never reaches it. */
  function After(stored: Option<Bucket>, limit: int, rate: real, requestCount: int, now: int): Option<Bucket> {
    if requestCount > limit then stored
    else
      var level := Level(stored, limit, rate, now);
      Some(Bucket(if level >= requestCount as real then level - requestCount as real else level, now))
  }

  function RetryAfterSeconds(requestCount: int, level: real, rate: real): int
    requires rate > 0.0
  {
    Max(1, Ceil((requestCount as real - level) / rate))
  }

  /** What a check is told: the tokens it leaves behind, and when to come back if it is refused. A request
      above the limit is refused for good. */
  function DecisionFor(stored: Option<Bucket>, limit: int, windowSeconds: int, requestCount: int, now: int): Decision
    requires limit >= 1 && windowSeconds >= 1
  {
    var rate := RatePerSecond(limit, windowSeconds);
    if requestCount > limit then Decision(false, Some(limit), Some(limit), Some(windowSeconds), None)
    else
      var left, allowed := After(stored, limit, rate, requestCount, now).value.tokens,
          Admits(stored, limit, rate, requestCount, now);
      Decision(allowed, Some(limit), Some(Max(0, left.Floor)), Some(windowSeconds),
               if allowed then None else Some(RetryAfterSeconds(requestCount, left, rate)))
  }

  /** The tokens a check finds. The bucket is full if it is new, earns so many tokens a second as long as the clock moves
      on, and holds no more than the limit. */
  predicate IsLevel(level: real, stored: Option<Bucket>, limit: int, perSecond: real, now: int) {
    var elapsed := if stored.Some? && now > stored.value.lastRefillAt then now - stored.value.lastRefillAt else 0;
    var filled := (if stored.Some? then stored.value.tokens else limit as real) + elapsed as real / 1000.0 * perSecond;
    level == if filled < limit as real then filled else limit as real
  }

  /** What a check that comes to a decision answers and leaves behind: what is asked for is taken if it is there, and a
      refusal names the first whole second at which it would be. */
  predicate IsAnswer(
    d: Decision, stored: Option<Bucket>, after: Option<Bucket>, limit: int, perSecond: real, level: real, n: int,
    now: int)
  {
    var left := if d.allowed then level - n as real else level;
    && d.burstLimit == Some(limit)
    && (d.allowed <==> n <= limit && level >= n as real)
    && (n > limit ==> after == stored && d.remainingBurstRequests == Some(limit))
    && (n <= limit ==> after == Some(Bucket(left, now)) && IsFloor(d.remainingBurstRequests, left))
    && (d.retryAfterSeconds.Some? <==> !d.allowed && n <= limit)
    && (d.retryAfterSeconds.Some? ==>
          var k := d.retryAfterSeconds.value;
          && k >= 1 && level + k as real * perSecond >= n as real
          && (k == 1 || level + (k - 1) as real * perSecond < n as real))
  }

  /** A bucket earns its limit in a window. */
  ghost predicate IsDecided(
    d: Decision, stored: Option<Bucket>, after: Option<Bucket>, limit: int, windowSeconds: int, n: int, now: int)
    requires limit >= 1 && windowSeconds >= 1
  {
    var perSecond := limit as real / windowSeconds as real;
    && d.burstWindowSeconds == Some(windowSeconds)
    && exists level :: IsLevel(level, stored, limit, perSecond, now)
         && IsAnswer(d, stored, after, limit, perSecond, level, n, now)
  }

  /** The whole tokens left, none if fewer than none are left. */
  predicate IsFloor(shown: Option<int>, left: real) {
    shown.Some? && shown.value >= 0
    && (if left < 0.0 then shown.value == 0 else shown.value as real <= left < shown.value as real + 1.0)
  }

  lemma FirstSecondIsNamed(level: real, rate: real, n: int, k: int)
    requires rate > 0.0 && k == RetryAfterSeconds(n, level, rate)
    ensures k >= 1 && level + k as real * rate >= n as real
    ensures k == 1 || level + (k - 1) as real * rate < n as real
  {
    var missing := n as real - level;
    SecondsToEarn(missing, rate, k);
    CeilIsLeast(missing / rate, k);
    SecondsToEarn(missing, rate, k - 1);
    CeilIsLeast(missing / rate, k - 1);
  }

  lemma RateIsPositive(limit: int, windowSeconds: int)
    requires limit >= 1 && windowSeconds >= 1
    ensures RatePerSecond(limit, windowSeconds) > 0.0
  {
  }

  lemma LevelIsExact(stored: Option<Bucket>, limit: int, rate: real, now: int)
    ensures IsLevel(Level(stored, limit, rate, now), stored, limit, rate, now)
  {
  }

  /** Every decision is exact. */
  lemma DecisionIsExact(stored: Option<Bucket>, limit: int, windowSeconds: int, n: int, now: int)
    requires limit >= 1 && windowSeconds >= 1
    ensures var rate := RatePerSecond(limit, windowSeconds);
            IsDecided(DecisionFor(stored, limit, windowSeconds, n, now), stored, After(stored, limit, rate, n, now),
              limit, windowSeconds, n, now)
  {
    var rate := RatePerSecond(limit, windowSeconds);
    var level := Level(stored, limit, rate, now);
    RateIsPositive(limit, windowSeconds);
    LevelIsExact(stored, limit, rate, now);
    FirstSecondIsNamed(level, rate, n, RetryAfterSeconds(n, level, rate));
  }

  /** How the database answers one try of the transaction. */
  datatype TxAnswer = Commits | SerializationFailure | OtherError

  datatype Result = Decided(decision: Decision) | Throws

  class GatewayBurstLimiter {
    const config: Config
    var buckets: map<Key, Bucket>

    constructor (config: Config)
      ensures this.config == config && buckets == map[]
    {
      this.config, buckets := config, map[];
    }

    function Stored(key: Key): Option<Bucket>
      reads this
    {
      if key in buckets then Some(buckets[key]) else None
    }

    /** lockBucketRow and the update that follows it, as one serializable transaction. */
    method CheckInTransaction(key: Key, requestCount: int, limit: int, now: int) returns (decision: Decision)
      requires ValidConfig(config) && 1 <= requestCount <= limit
      modifies this
      ensures Stored(key)
          == After(old(Stored(key)), limit, RatePerSecond(limit, config.windowSeconds), requestCount, now)
      ensures buckets.Keys == old(buckets.Keys) + {key}
      ensures forall k :: k in old(buckets) && k != key ==> buckets[k] == old(buckets[k])
      ensures decision == DecisionFor(old(Stored(key)), limit, config.windowSeconds, requestCount, now)
      ensures IsDecided(decision, old(Stored(key)), Stored(key), limit, config.windowSeconds, requestCount, now)
    {
      DecisionIsExact(Stored(key), limit, config.windowSeconds, requestCount, now);
      var refillRatePerSecond := RatePerSecond(limit, config.windowSeconds);
      if key !in buckets {
        buckets := buckets[key := Bucket(limit as real, now)];
      }
      var refilledTokens := RefillTokens(buckets[key], now, limit, refillRatePerSecond);
      if refilledTokens < requestCount as real {
        buckets := buckets[key := Bucket(refilledTokens, now)];
        return Decision(false, Some(limit), Some(Max(0, refilledTokens.Floor)), Some(config.windowSeconds),
                        Some(Max(1, Ceil((requestCount as real - refilledTokens) / refillRatePerSecond))));
      }
      var remainingTokens := refilledTokens - requestCount as real;
      buckets := buckets[key := Bucket(remainingTokens, now)];
      decision := Decision(true, Some(limit), Some(Max(0, remainingTokens.Floor)), Some(config.windowSeconds), None);
    }

    /** checkAndConsume; answers says how the database answers each of the three tries. */
    method CheckAndConsume(key: Key, requestCount: int, rateLimitRpm: Option<int>, now: int, answers: seq<TxAnswer>)
      returns (result: Result)
      requires ValidConfig(config) && requestCount >= 1 && |answers| == 3
      modifies this
      ensures forall k :: k in old(buckets) && k != key ==> k in buckets && buckets[k] == old(buckets[k])
      ensures ResolveBurstLimit(config, rateLimitRpm).None? ==>
                buckets == old(buckets) && result == Decided(Decision(true, None, None, None, None))
      ensures ResolveBurstLimit(config, rateLimitRpm).Some? ==>
                var limit := ResolveBurstLimit(config, rateLimitRpm).value;
                var rate := RatePerSecond(limit, config.windowSeconds);
                && (result.Decided? <==> requestCount > limit || TriedSuccessfully(answers))
                && (result.Decided? ==>
                      result.decision == DecisionFor(old(Stored(key)), limit, config.windowSeconds, requestCount, now))
                && Stored(key) == (if result.Decided? then After(old(Stored(key)), limit, rate, requestCount, now)
                   else old(Stored(key)))
                && (result.Decided? ==>
                      IsDecided(result.decision, old(Stored(key)), Stored(key), limit, config.windowSeconds, requestCount,
                        now))
    {
      var burstLimit := ResolveBurstLimit(config, rateLimitRpm);
      if burstLimit.None? {
        return Decided(Decision(true, None, None, None, None));
      }
      var limit := burstLimit.value;
      if requestCount > limit {
        DecisionIsExact(Stored(key), limit, config.windowSeconds, requestCount, now);
        return Decided(Decision(false, Some(limit), Some(limit), Some(config.windowSeconds), None));
      }
      var attempt := 0;
      while attempt < MAX_TRANSACTION_RETRIES
        invariant 0 <= attempt < MAX_TRANSACTION_RETRIES
        invariant buckets == old(buckets)
        invariant forall i :: 0 <= i < attempt ==> answers[i].SerializationFailure?
      {
        if answers[attempt].Commits? {
          var decision := CheckInTransaction(key, requestCount, limit, now);
          return Decided(decision);
        }
        if answers[attempt].SerializationFailure? && attempt < MAX_TRANSACTION_RETRIES - 1 {
          attempt := attempt + 1;
          continue;
        }
        return Throws;
      }
    }
  }

  /** A try commits, after nothing but serialization failures. */
  predicate TriedSuccessfully(answers: seq<TxAnswer>) {
    exists i :: 0 <= i < |answers| && answers[i].Commits? && forall j :: 0 <= j < i ==> answers[j].SerializationFailure?
  }

  // ---------------------------------------------------------------- runs of checks against one bucket

  datatype Check = Check(requestCount: int, now: int)

  ghost predicate ClockNeverGoesBack(checks: seq<Check>) {
    forall i, j :: 0 <= i <= j < |checks| ==> checks[i].now <= checks[j].now
  }

  ghost predicate PositiveRequests(checks: seq<Check>) { forall i :: 0 <= i < |checks| ==> checks[i].requestCount >= 1 }

  /** The stored bucket after a run that starts with none. */
  function BucketAfter(checks: seq<Check>, limit: int, rate: real): Option<Bucket> {
    if checks == [] then None
    else
      var n := |checks| - 1;
      After(BucketAfter(checks[..n], limit, rate), limit, rate, checks[n].requestCount, checks[n].now)
  }

  predicate AdmittedAt(checks: seq<Check>, j: nat, limit: int, rate: real)
    requires j < |checks|
  {
    Admits(BucketAfter(checks[..j], limit, rate), limit, rate, checks[j].requestCount, checks[j].now)
  }

  /** Requests granted by the checks numbered k to j - 1. */
  function Granted(checks: seq<Check>, k: nat, j: nat, limit: int, rate: real): int
    requires j <= |checks|
    decreases j
  {
    if k >= j then 0
    else Granted(checks, k, j - 1, limit, rate) + if AdmittedAt(checks, j - 1, limit, rate)
        then checks[j - 1].requestCount else 0
  }

  /** A request above the limit never reaches the bucket. */
  predicate Reaches(c: Check, limit: int) { c.requestCount <= limit }

  /** How far the clock moved forward, in all, from check k over the checks that reached the bucket to now. */
  function ForwardMs(checks: seq<Check>, k: nat, limit: int, now: int): int
    requires k < |checks|
    decreases |checks|
  {
    var n := |checks| - 1;
    if k == n then Max(0, now - checks[n].now)
    else if !Reaches(checks[n], limit) then ForwardMs(checks[..n], k, limit, now)
    else ForwardMs(checks[..n], k, limit, checks[n].now) + Max(0, now - checks[n].now)
  }

  /** Tokens earned over the clock's forward movement since check k. */
  function EarnedSince(checks: seq<Check>, k: nat, limit: int, rate: real, now: int): real
    requires k < |checks|
  {
    ForwardMs(checks, k, limit, now) as real / 1000.0 * rate
  }

  /** The most that could be left at time now if the bucket had been full at check k. */
  function Allowance(checks: seq<Check>, k: nat, limit: int, rate: real, now: int): real
    requires k < |checks|
  {
    limit as real + EarnedSince(checks, k, limit, rate, now) - Granted(checks, k, |checks|, limit, rate) as real
  }

  lemma EarnedAddsUp(rate: real, a: int, b: int, c: int)
    requires a <= b <= c
    ensures Earned(rate, a, c) == Earned(rate, a, b) + Earned(rate, b, c)
  {
    var x, y := (b - a) as real / 1000.0, (c - b) as real / 1000.0;
    assert (c - a) as real / 1000.0 == x + y;
    assert (x + y) * rate == x * rate + y * rate;
  }

  lemma EarnedIsNotNegative(rate: real, a: int, b: int)
    requires rate > 0.0
    ensures Earned(rate, a, b) >= 0.0
  {
    var x := Max(0, b - a) as real / 1000.0;
    assert x >= 0.0;
    assert x * rate >= 0.0;
  }

  /** Refilling on the way, as refused checks do, leaves the same tokens as one refill at the end. */
  lemma PollingIsNeutral(b: Bucket, limit: int, rate: real, t: int, now: int)
    requires rate > 0.0 && b.lastRefillAt <= t <= now
    ensures RefillTokens(Bucket(RefillTokens(b, t, limit, rate), t), now, limit, rate)
        == RefillTokens(b, now, limit, rate)
  {
    EarnedAddsUp(rate, b.lastRefillAt, t, now);
    EarnedIsNotNegative(rate, t, now);
  }

  lemma {:induction false} GrantedOfPrefix(checks: seq<Check>, n: nat, k: nat, j: nat, limit: int, rate: real)
    requires j <= n <= |checks|
    ensures Granted(checks[..n], k, j, limit, rate) == Granted(checks, k, j, limit, rate)
    decreases j
  {
    if k < j {
      GrantedOfPrefix(checks, n, k, j - 1, limit, rate);
      assert checks[..n][..j - 1] == checks[..j - 1];
    }
  }

  lemma {:induction false} TokensStayInRange(checks: seq<Check>, limit: int, rate: real)
    requires limit >= 1 && rate > 0.0 && PositiveRequests(checks)
    ensures var b := BucketAfter(checks, limit, rate);
            b.Some? ==> 0.0 <= b.value.tokens <= limit as real
    ensures forall now :: 0.0 <= Level(BucketAfter(checks, limit, rate), limit, rate, now) <= limit as real
  {
    if checks != [] {
      TokensStayInRange(checks[..|checks| - 1], limit, rate);
    }
    var b := BucketAfter(checks, limit, rate);
    forall now
      ensures 0.0 <= Level(b, limit, rate, now) <= limit as real
    {
      EarnedIsNotNegative(rate, LockedBucket(b, limit, now).lastRefillAt, now);
    }
  }

  /** What the last check adds to a grant count that started at check k. */
  lemma GrantedSplits(checks: seq<Check>, k: nat, limit: int, rate: real)
    requires k < |checks|
    ensures var n := |checks| - 1;
            Granted(checks, k, n + 1, limit, rate)
            == Granted(checks[..n], k, n, limit, rate) + if AdmittedAt(checks, n, limit, rate)
                then checks[n].requestCount else 0
  {
    GrantedOfPrefix(checks, |checks| - 1, k, |checks| - 1, limit, rate);
  }

  lemma EarnedSinceSteps(checks: seq<Check>, k: nat, limit: int, rate: real, now: int)
    requires k < |checks| - 1 && Reaches(checks[|checks| - 1], limit)
    ensures var n := |checks| - 1;
            EarnedSince(checks, k, limit, rate, now)
            == EarnedSince(checks[..n], k, limit, rate, checks[n].now) + Earned(rate, checks[n].now, now)
  {
    var n := |checks| - 1;
    var x := ForwardMs(checks[..n], k, limit, checks[n].now) as real / 1000.0;
    var y := Max(0, now - checks[n].now) as real / 1000.0;
    assert ForwardMs(checks, k, limit, now) as real / 1000.0 == x + y;
    assert (x + y) * rate == x * rate + y * rate;
  }

  lemma AllowanceSteps(checks: seq<Check>, k: nat, limit: int, rate: real, now: int)
    requires k < |checks| - 1 && Reaches(checks[|checks| - 1], limit)
    ensures var n := |checks| - 1;
            Allowance(checks, k, limit, rate, now)
            == Allowance(checks[..n], k, limit, rate, checks[n].now) + Earned(rate, checks[n].now, now)
               - (if AdmittedAt(checks, n, limit, rate) then checks[n].requestCount else 0) as real
  {
    GrantedSplits(checks, k, limit, rate);
    EarnedSinceSteps(checks, k, limit, rate, now);
  }

  lemma UnreachedIsSkipped(checks: seq<Check>, k: nat, limit: int, rate: real, now: int)
    requires k < |checks| - 1 && !Reaches(checks[|checks| - 1], limit)
    ensures Allowance(checks, k, limit, rate, now) == Allowance(checks[..|checks| - 1], k, limit, rate, now)
    ensures BucketAfter(checks, limit, rate) == BucketAfter(checks[..|checks| - 1], limit, rate)
  {
    GrantedSplits(checks, k, limit, rate);
  }

  /** The tokens never exceed what a bucket full at any earlier check could still hold. */
  lemma {:induction false} LevelWithinAllowance(checks: seq<Check>, k: nat, limit: int, rate: real, now: int)
    requires limit >= 1 && rate > 0.0 && k < |checks| && Reaches(checks[k], limit)
    ensures Level(BucketAfter(checks, limit, rate), limit, rate, now) <= Allowance(checks, k, limit, rate, now)
    decreases |checks|
  {
    var n := |checks| - 1;
    if k == n {
      GrantedSplits(checks, k, limit, rate);
    } else if !Reaches(checks[n], limit) {
      UnreachedIsSkipped(checks, k, limit, rate, now);
      LevelWithinAllowance(checks[..n], k, limit, rate, now);
    } else {
      AllowanceSteps(checks, k, limit, rate, now);
      LevelWithinAllowance(checks[..n], k, limit, rate, checks[n].now);
    }
  }

  /** The tokens are exactly a full bucket or one of those allowances. */
  lemma {:induction false} LevelIsSomeAllowance(checks: seq<Check>, limit: int, rate: real, now: int)
    requires limit >= 1 && rate > 0.0
    ensures Level(BucketAfter(checks, limit, rate), limit, rate, now) == limit as real
         || exists k :: 0 <= k < |checks| && Reaches(checks[k], limit) &&
              Level(BucketAfter(checks, limit, rate), limit, rate, now) == Allowance(checks, k, limit, rate, now)
    decreases |checks|
  {
    if checks != [] {
      var n := |checks| - 1;
      var level := Level(BucketAfter(checks, limit, rate), limit, rate, now);
      if !Reaches(checks[n], limit) {
        LevelIsSomeAllowance(checks[..n], limit, rate, now);
        if level != limit as real {
          var k :| 0 <= k < n && Reaches(checks[k], limit) && level == Allowance(checks[..n], k, limit, rate, now);
          UnreachedIsSkipped(checks, k, limit, rate, now);
          assert level == Allowance(checks, k, limit, rate, now);
        }
      } else if level != limit as real {
        LastReachedLevel(checks, limit, rate, now);
      }
    }
  }

  lemma LastReachedLevel(checks: seq<Check>, limit: int, rate: real, now: int)
    requires limit >= 1 && rate > 0.0 && checks != [] && Reaches(checks[|checks| - 1], limit)
    requires Level(BucketAfter(checks, limit, rate), limit, rate, now) != limit as real
    ensures exists k :: 0 <= k < |checks| && Reaches(checks[k], limit) &&
              Level(BucketAfter(checks, limit, rate), limit, rate, now) == Allowance(checks, k, limit, rate, now)
    decreases |checks|, 0
  {
    var n := |checks| - 1;
    var level := Level(BucketAfter(checks, limit, rate), limit, rate, now);
    LevelIsSomeAllowance(checks[..n], limit, rate, checks[n].now);
    var before := Level(BucketAfter(checks[..n], limit, rate), limit, rate, checks[n].now);
    if before == limit as real {
      GrantedSplits(checks, n, limit, rate);
      assert level == Allowance(checks, n, limit, rate, now);
    } else {
      var k :| 0 <= k < n && Reaches(checks[k], limit)
          && before == Allowance(checks[..n], k, limit, rate, checks[n].now);
      AllowanceSteps(checks, k, limit, rate, now);
      assert level == Allowance(checks, k, limit, rate, now);
    }
  }

  /** Exact admission, on any clock: a request is granted if and only if it is no larger than the limit and,
      counted with the grants since any earlier check that reached the bucket, no larger than the limit plus
      what the clock's forward movement since that check has earned. */
  lemma AdmissionIsExact(checks: seq<Check>, j: nat, limit: int, rate: real)
    requires limit >= 1 && rate > 0.0 && j < |checks|
    ensures AdmittedAt(checks, j, limit, rate)
       <==> && Reaches(checks[j], limit)
            && forall k :: 0 <= k < j && Reaches(checks[k], limit) ==>
                 (Granted(checks, k, j, limit, rate) + checks[j].requestCount) as real
                 <= limit as real + EarnedSince(checks[..j], k, limit, rate, checks[j].now)
  {
    var before := checks[..j];
    var level := Level(BucketAfter(before, limit, rate), limit, rate, checks[j].now);
    forall k | 0 <= k < j && Reaches(checks[k], limit)
      ensures level <= Allowance(before, k, limit, rate, checks[j].now)
      ensures Granted(checks, k, j, limit, rate) == Granted(before, k, j, limit, rate)
    {
      LevelWithinAllowance(before, k, limit, rate, checks[j].now);
      GrantedOfPrefix(checks, j, k, j, limit, rate);
    }
    LevelIsSomeAllowance(before, limit, rate, checks[j].now);
  }

  /** On any clock, no stretch of checks lets through more than the limit plus what its forward movement earns. */
  lemma GrantsAreBounded(checks: seq<Check>, i: nat, j: nat, limit: int, rate: real)
    requires limit >= 1 && rate > 0.0 && PositiveRequests(checks)
    requires i < j < |checks| && Reaches(checks[i], limit)
    ensures Granted(checks, i, j + 1, limit, rate) as real
         <= limit as real + EarnedSince(checks[..j], i, limit, rate, checks[j].now)
  {
    var before := checks[..j];
    LevelWithinAllowance(before, i, limit, rate, checks[j].now);
    TokensStayInRange(before, limit, rate);
    GrantedOfPrefix(checks, j, i, j, limit, rate);
  }

  // ---------------------------------------------------------------- clocks that go one way

  /** From check k on the clock does not go back, up to now. */
  predicate Rising(checks: seq<Check>, k: nat, now: int)
    requires k < |checks|
  {
    (forall m :: k <= m < |checks| - 1 ==> checks[m].now <= checks[m + 1].now) && checks[|checks| - 1].now <= now
  }

  predicate Falling(checks: seq<Check>, k: nat, now: int)
    requires k < |checks|
  {
    (forall m :: k <= m < |checks| - 1 ==> checks[m].now >= checks[m + 1].now) && checks[|checks| - 1].now >= now
  }

  lemma {:induction false} ForwardOfRisingClock(checks: seq<Check>, k: nat, limit: int, now: int)
    requires k < |checks| && Rising(checks, k, now)
    ensures ForwardMs(checks, k, limit, now) == now - checks[k].now >= 0
    decreases |checks|
  {
    if k < |checks| - 1 {
      var n := |checks| - 1;
      assert checks[n - 1].now <= checks[n - 1 + 1].now;
      ForwardOfRisingClock(checks[..n], k, limit, now);
      ForwardOfRisingClock(checks[..n], k, limit, checks[n].now);
    }
  }

  lemma {:induction false} ForwardOfFallingClock(checks: seq<Check>, k: nat, limit: int, now: int)
    requires k < |checks| && Falling(checks, k, now)
    ensures ForwardMs(checks, k, limit, now) == 0 && now <= checks[k].now
    decreases |checks|
  {
    if k < |checks| - 1 {
      var n := |checks| - 1;
      assert checks[n - 1].now >= checks[n - 1 + 1].now;
      ForwardOfFallingClock(checks[..n], k, limit, now);
      ForwardOfFallingClock(checks[..n], k, limit, checks[n].now);
    }
  }

  /** While the clock goes one way, its forward movement earns what the time difference earns. */
  lemma OneWayEarnsElapsed(checks: seq<Check>, k: nat, limit: int, rate: real, now: int)
    requires k < |checks| && (Rising(checks, k, now) || Falling(checks, k, now))
    ensures EarnedSince(checks, k, limit, rate, now) == Earned(rate, checks[k].now, now)
  {
    if Rising(checks, k, now) {
      ForwardOfRisingClock(checks, k, limit, now);
    } else {
      ForwardOfFallingClock(checks, k, limit, now);
    }
  }

  /** So a stretch in which the clock goes one way lets through no more than the limit plus rate * elapsed time. */
  lemma OneWayGrantsAreBounded(checks: seq<Check>, i: nat, j: nat, limit: int, rate: real)
    requires limit >= 1 && rate > 0.0 && PositiveRequests(checks)
    requires i < j < |checks| && Reaches(checks[i], limit)
    requires Rising(checks[..j], i, checks[j].now) || Falling(checks[..j], i, checks[j].now)
    ensures Granted(checks, i, j + 1, limit, rate) as real <= limit as real + Earned(rate, checks[i].now, checks[j].now)
  {
    GrantsAreBounded(checks, i, j, limit, rate);
    OneWayEarnsElapsed(checks[..j], i, limit, rate, checks[j].now);
  }

  /** A check that never reached the bucket grants nothing. */
  lemma {:induction false} GrantedSkipsUnreached(checks: seq<Check>, k: nat, j: nat, limit: int, rate: real)
    requires k < j <= |checks| && !Reaches(checks[k], limit)
    ensures Granted(checks, k, j, limit, rate) == Granted(checks, k + 1, j, limit, rate)
    decreases j
  {
    if k < j - 1 {
      GrantedSkipsUnreached(checks, k, j - 1, limit, rate);
    }
  }

  lemma EarnedShrinks(rate: real, a: int, b: int, now: int)
    requires rate > 0.0 && a <= b <= now
    ensures Earned(rate, b, now) <= Earned(rate, a, now)
  {
    EarnedAddsUp(rate, a, b, now);
    EarnedIsNotNegative(rate, a, b);
  }

  lemma AllowanceFromReached(checks: seq<Check>, k: nat, j: nat, limit: int, rate: real)
    requires limit >= 1 && rate > 0.0 && k < j < |checks|
    requires AdmittedAt(checks, j, limit, rate) && Reaches(checks[k], limit)
    ensures (Granted(checks, k, j, limit, rate) + checks[j].requestCount) as real
         <= limit as real + EarnedSince(checks[..j], k, limit, rate, checks[j].now)
  {
    AdmissionIsExact(checks, j, limit, rate);
  }

  lemma SteadyAllowanceFromReached(checks: seq<Check>, k: nat, j: nat, limit: int, rate: real)
    requires limit >= 1 && rate > 0.0 && ClockNeverGoesBack(checks) && k < j < |checks|
    requires AdmittedAt(checks, j, limit, rate) && Reaches(checks[k], limit)
    ensures (Granted(checks, k, j, limit, rate) + checks[j].requestCount) as real
         <= limit as real + Earned(rate, checks[k].now, checks[j].now)
  {
    AllowanceFromReached(checks, k, j, limit, rate);
    OneWayEarnsElapsed(checks[..j], k, limit, rate, checks[j].now);
  }

  lemma {:induction false} SteadyAllowanceFromAnyCheck(checks: seq<Check>, k: nat, j: nat, limit: int, rate: real)
    requires limit >= 1 && rate > 0.0 && ClockNeverGoesBack(checks) && k <= j < |checks|
    requires AdmittedAt(checks, j, limit, rate)
    ensures (Granted(checks, k, j, limit, rate) + checks[j].requestCount) as real
         <= limit as real + Earned(rate, checks[k].now, checks[j].now)
    decreases j - k
  {
    EarnedIsNotNegative(rate, checks[k].now, checks[j].now);
    if k < j {
      if Reaches(checks[k], limit) {
        SteadyAllowanceFromReached(checks, k, j, limit, rate);
      } else {
        SteadyAllowanceFromAnyCheck(checks, k + 1, j, limit, rate);
        GrantedSkipsUnreached(checks, k, j, limit, rate);
        EarnedShrinks(rate, checks[k].now, checks[k + 1].now, checks[j].now);
      }
    }
  }

  /** With a clock that never goes back, a request is granted if and only if it is within the limit and, with the
      grants since any earlier check, within the limit plus rate * the time since that check. */
  lemma SteadyAdmissionIsExact(checks: seq<Check>, j: nat, limit: int, rate: real)
    requires limit >= 1 && rate > 0.0 && ClockNeverGoesBack(checks) && j < |checks|
    ensures AdmittedAt(checks, j, limit, rate)
       <==> && checks[j].requestCount <= limit
            && forall k :: 0 <= k < j ==>
                 (Granted(checks, k, j, limit, rate) + checks[j].requestCount) as real
                 <= limit as real + Earned(rate, checks[k].now, checks[j].now)
  {
    if AdmittedAt(checks, j, limit, rate) {
      forall k | 0 <= k < j
        ensures (Granted(checks, k, j, limit, rate) + checks[j].requestCount) as real
             <= limit as real + Earned(rate, checks[k].now, checks[j].now)
      {
        SteadyAllowanceFromAnyCheck(checks, k, j, limit, rate);
      }
    } else {
      AdmissionIsExact(checks, j, limit, rate);
      forall k | 0 <= k < j
        ensures EarnedSince(checks[..j], k, limit, rate, checks[j].now) == Earned(rate, checks[k].now, checks[j].now)
      {
        OneWayEarnsElapsed(checks[..j], k, limit, rate, checks[j].now);
      }
    }
  }

  /** With a clock that never goes back, no stretch of time lets through more than the limit plus what it earns. */
  lemma {:induction false} SteadyGrantsAreBounded(checks: seq<Check>, i: nat, j: nat, limit: int, rate: real)
    requires limit >= 1 && rate > 0.0 && ClockNeverGoesBack(checks) && i <= j < |checks|
    ensures Granted(checks, i, j + 1, limit, rate) as real <= limit as real + Earned(rate, checks[i].now, checks[j].now)
    decreases j
  {
    EarnedIsNotNegative(rate, checks[i].now, checks[j].now);
    if AdmittedAt(checks, j, limit, rate) {
      SteadyAllowanceFromAnyCheck(checks, i, j, limit, rate);
    } else if i < j {
      SteadyGrantsAreBounded(checks, i, j - 1, limit, rate);
      EarnedAddsUp(rate, checks[i].now, checks[j - 1].now, checks[j].now);
      EarnedIsNotNegative(rate, checks[j - 1].now, checks[j].now);
    }
  }

  // ---------------------------------------------------------------- every other clock breaks the bound

  predicate OneWay(times: seq<int>, i: nat, j: nat)
    requires i < j < |times|
  {
    || (forall m :: i <= m < j ==> times[m] <= times[m + 1])
    || (forall m :: i <= m < j ==> times[m] >= times[m + 1])
  }

  function ForwardOf(times: seq<int>, i: nat, j: nat): int
    requires i <= j < |times|
    decreases j
  {
    if i == j then 0 else ForwardOf(times, i, j - 1) + Max(0, times[j] - times[j - 1])
  }

  lemma {:induction false} ForwardExceedsElapsed(times: seq<int>, i: nat, j: nat)
    requires i <= j < |times|
    ensures ForwardOf(times, i, j) >= Max(0, times[j] - times[i])
    ensures (exists m :: i <= m < j && times[m] < times[m + 1]) ==> ForwardOf(times, i, j) > 0
    ensures (exists m :: i <= m < j && times[m] > times[m + 1]) ==> ForwardOf(times, i, j) > times[j] - times[i]
    decreases j
  {
    if i < j {
      ForwardExceedsElapsed(times, i, j - 1);
    }
  }

  /** Traffic that spends the whole limit at check i, is refused until j, and then takes all that was earned:
      earlier checks ask for too much to reach the bucket. */
  function Draining(times: seq<int>, i: nat, j: nat, limit: int): seq<Check>
    requires i < j < |times|
  {
    seq(|times|, m requires 0 <= m < |times| =>
      Check(if m < i then limit + 1 else if m == j then ForwardOf(times, i, j) else limit, times[m]))
  }

  /** A thousand tokens a second: one for each millisecond. */
  function LimitFor(times: seq<int>, i: nat, j: nat): int
    requires i < j < |times|
  {
    1000 * WindowFor(times, i, j)
  }

  function WindowFor(times: seq<int>, i: nat, j: nat): int
    requires i < j < |times|
  {
    Max(0, ForwardOf(times, i, j)) + 1
  }

  const PER_SECOND: real := 1000.0

  lemma EarnedPerMillisecond(from: int, to: int)
    ensures Earned(PER_SECOND, from, to) == Max(0, to - from) as real
  {
  }

  lemma {:induction false} ForwardGrows(times: seq<int>, i: nat, m: nat, j: nat)
    requires i <= m <= j < |times|
    ensures 0 <= ForwardOf(times, i, m) <= ForwardOf(times, i, j)
    decreases j
  {
    ForwardExceedsElapsed(times, i, m);
    if m < j {
      ForwardGrows(times, i, m, j - 1);
    }
  }

  lemma {:induction false} NothingReachedYet(times: seq<int>, i: nat, j: nat, m: nat, limit: int)
    requires i < j < |times| && m <= i
    ensures BucketAfter(Draining(times, i, j, limit)[..m], limit, PER_SECOND) == None
  {
    if m > 0 {
      NothingReachedYet(times, i, j, m - 1, limit);
      assert Draining(times, i, j, limit)[..m][..m - 1] == Draining(times, i, j, limit)[..m - 1];
    }
  }

  lemma {:induction false} DrainedBucket(times: seq<int>, i: nat, j: nat, m: nat)
    requires i <= m < j < |times|
    ensures var limit, checks := LimitFor(times, i, j), Draining(times, i, j, LimitFor(times, i, j));
            && BucketAfter(checks[..m + 1], limit, PER_SECOND) == Some(Bucket(ForwardOf(times, i, m) as real, times[m]))
            && Granted(checks, i, m + 1, limit, PER_SECOND) == limit
    decreases m
  {
    var limit := LimitFor(times, i, j);
    var checks := Draining(times, i, j, limit);
    assert checks[..m + 1][..m] == checks[..m];
    if m == i {
      NothingReachedYet(times, i, j, i, limit);
    } else {
      DrainedBucket(times, i, j, m - 1);
      ForwardGrows(times, i, m, j);
      EarnedPerMillisecond(times[m - 1], times[m]);
      assert Level(BucketAfter(checks[..m], limit, PER_SECOND), limit, PER_SECOND, times[m])
          == ForwardOf(times, i, m) as real;
    }
  }

  lemma ThousandASecond(window: int)
    requires window >= 1
    ensures RatePerSecond(1000 * window, window) == PER_SECOND
  {
    var x := window as real;
    assert (1000 * window) as real == PER_SECOND * x;
    assert PER_SECOND * x / x == PER_SECOND;
  }

  lemma DrainingIsAdmitted(times: seq<int>, i: nat, j: nat)
    requires i < j < |times|
    ensures var limit, checks := LimitFor(times, i, j), Draining(times, i, j, LimitFor(times, i, j));
            AdmittedAt(checks, j, limit, PER_SECOND) && checks[j].requestCount == ForwardOf(times, i, j)
  {
    var limit, forward := LimitFor(times, i, j), ForwardOf(times, i, j);
    var checks := Draining(times, i, j, limit);
    DrainedBucket(times, i, j, j - 1);
    EarnedPerMillisecond(times[j - 1], times[j]);
    assert checks[j] == Check(forward, times[j]);
    assert Level(BucketAfter(checks[..j], limit, PER_SECOND), limit, PER_SECOND, times[j]) == forward as real;
  }

  lemma DrainingGrants(times: seq<int>, i: nat, j: nat)
    requires i < j < |times| && !OneWay(times, i, j)
    ensures var limit, checks := LimitFor(times, i, j), Draining(times, i, j, LimitFor(times, i, j));
            && PositiveRequests(checks) && Reaches(checks[i], limit)
            && Granted(checks, i, j + 1, limit, PER_SECOND) == limit + ForwardOf(times, i, j)
  {
    ForwardExceedsElapsed(times, i, j);
    DrainedBucket(times, i, j, j - 1);
    DrainingIsAdmitted(times, i, j);
  }

  /** On a clock that moves both ways between two checks, this traffic gets more than the bound. */
  lemma TwoWayClockBreaksBound(times: seq<int>, i: nat, j: nat)
    requires i < j < |times| && !OneWay(times, i, j)
    ensures var limit, window := LimitFor(times, i, j), WindowFor(times, i, j);
            var checks, rate := Draining(times, i, j, limit), RatePerSecond(limit, window);
            && PositiveRequests(checks) && Reaches(checks[i], limit)
            && Granted(checks, i, j + 1, limit, rate) as real > limit as real + Earned(rate, times[i], times[j])
  {
    ThousandASecond(WindowFor(times, i, j));
    DrainingGrants(times, i, j);
    ForwardExceedsElapsed(times, i, j);
    EarnedPerMillisecond(times[i], times[j]);
  }

  /** The checks are made at these times. */
  predicate AtTimes(checks: seq<Check>, times: seq<int>) {
    |checks| == |times| && forall m :: 0 <= m < |times| ==> checks[m].now == times[m]
  }

  /** Between two checks, no traffic under any configuration is granted more than limit + rate * elapsed time
      if and only if the clock does not move both forward and back between them. */
  lemma BoundHoldsExactlyOnOneWayClocks(times: seq<int>, i: nat, j: nat)
    requires i < j < |times|
    ensures (forall checks, limit, windowSeconds ::
               AtTimes(checks, times) && PositiveRequests(checks) && limit >= 1 && windowSeconds >= 1
               && Reaches(checks[i], limit) ==>
                 Granted(checks, i, j + 1, limit, RatePerSecond(limit, windowSeconds)) as real
                 <= limit as real + Earned(RatePerSecond(limit, windowSeconds), times[i], times[j]))
       <==> OneWay(times, i, j)
  {
    if OneWay(times, i, j) {
      forall checks, limit, windowSeconds |
          AtTimes(checks, times) && PositiveRequests(checks) && limit >= 1 && windowSeconds >= 1
              && Reaches(checks[i], limit)
        ensures Granted(checks, i, j + 1, limit, RatePerSecond(limit, windowSeconds)) as real
             <= limit as real + Earned(RatePerSecond(limit, windowSeconds), times[i], times[j])
      {
        OneWayGrantsAreBounded(checks, i, j, limit, RatePerSecond(limit, windowSeconds));
      }
    } else {
      TwoWayClockBreaksBound(times, i, j);
      var limit := LimitFor(times, i, j);
      assert AtTimes(Draining(times, i, j, limit), times);
    }
  }

  const TEN_SECONDS_BACK: seq<Check> := [Check(1, 10000), Check(1, 0), Check(1, 10000)]

  /** A clock that goes back breaks the bound, because every check moves the refill time to its own: with
      a limit of one request in ten seconds, two are granted at the same instant. */
  lemma BackwardsClockBreaksBound()
    ensures AdmittedAt(TEN_SECONDS_BACK, 0, 1, RatePerSecond(1, 10))
    ensures AdmittedAt(TEN_SECONDS_BACK, 2, 1, RatePerSecond(1, 10))
    ensures TEN_SECONDS_BACK[0].now == TEN_SECONDS_BACK[2].now
  {
    var rate := RatePerSecond(1, 10);
    var checks := TEN_SECONDS_BACK;
    assert checks[..0] == [];
    assert checks[..1][..0] == [];
    assert BucketAfter(checks[..1], 1, rate) == Some(Bucket(0.0, 10000));
    assert checks[..2][..1] == checks[..1];
    assert BucketAfter(checks[..2], 1, rate) == Some(Bucket(0.0, 0));
  }

  // ---------------------------------------------------------------- retry-after

  lemma CeilIsLeast(x: real, q: int)
    ensures Ceil(x) <= q <==> x <= q as real
  {
  }

  lemma SecondsToEarn(missing: real, rate: real, q: int)
    requires rate > 0.0
    ensures missing / rate <= q as real <==> missing <= q as real * rate
  {
    var x := missing / rate;
    assert missing == x * rate;
    if x <= q as real {
      assert (q as real - x) * rate >= 0.0;
    } else {
      assert (x - q as real) * rate > 0.0;
    }
  }

  /** A refused request, asked again q whole seconds later with no other traffic, is granted exactly
      when q is at least the retryAfterSeconds it was given. */
  lemma RetryAfterIsExact(stored: Option<Bucket>, limit: int, rate: real, requestCount: int, now: int, q: int)
    requires limit >= 1 && rate > 0.0 && 1 <= requestCount <= limit && q >= 1
    requires !Admits(stored, limit, rate, requestCount, now)
    ensures var refused := After(stored, limit, rate, requestCount, now);
            Admits(refused, limit, rate, requestCount, now + 1000 * q)
            <==> q >= RetryAfterSeconds(requestCount, refused.value.tokens, rate)
  {
    var level := Level(stored, limit, rate, now);
    var missing := requestCount as real - level;
    assert Earned(rate, now, now + 1000 * q) == q as real * rate;
    SecondsToEarn(missing, rate, q);
    CeilIsLeast(missing / rate, q);
  }
}
