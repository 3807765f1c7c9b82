/** The retry schedule of a failed renewal (billing-managed-retry.policy.ts). */
module ManagedRetryPolicy {
  import opened Common
  import opened BillingTypes

  const MS_PER_MINUTE: int := 60 * 1000

  const CLEARED_RETRY_STATE: RetryState := RetryState(0, None, None, None, None)

  /** resolveManagedRetryAt; past the end of the list, or at a zero, there is no next retry. */
  function ResolveManagedRetryAt(retryCount: int, referenceTime: int, delayMinutes: seq<int>): Option<int> {
    if 0 <= retryCount < |delayMinutes| && delayMinutes[retryCount] != 0
    then Some(referenceTime + delayMinutes[retryCount] * MS_PER_MINUTE)
    else None
  }

  function StateAt(
    retryCount: int, at: int, lastRetryAt: Option<int>, delayMinutes: seq<int>, error: Option<string>): RetryState {
    var next := ResolveManagedRetryAt(retryCount, at, delayMinutes);
    RetryState(retryCount, next, lastRetryAt, if next.Some? then None else Some(at), error)
  }

  /** createInitialManagedRetryState: no retry made, the first due its delay after the failure; exhausted at once when
      there is no delay. */
  function InitialRetryState(referenceTime: int, delayMinutes: seq<int>): (r: RetryState)
    ensures r.nextRetryAt.Some? <==> r.exhaustedAt.None?
    ensures r.nextRetryAt.Some? <==> delayMinutes != [] && delayMinutes[0] != 0
    ensures r.nextRetryAt.Some? ==> r.nextRetryAt.value - referenceTime == delayMinutes[0] * 60000
    ensures r.exhaustedAt.Some? ==> r.exhaustedAt.value == referenceTime
    ensures r.retryCount == 0 && r.lastRetryAt.None? && r.lastError.None?
  {
    StateAt(0, referenceTime, None, delayMinutes, None)
  }

  /** createManagedRetryStateAfterAttempt: one more retry made, the next due its own delay after this one; exhausted
      when there is no further delay. */
  function RetryStateAfterAttempt(
    retryCount: int, attemptedAt: int, delayMinutes: seq<int>, error: Option<string>): (r: RetryState)
    ensures r.nextRetryAt.Some? <==> r.exhaustedAt.None?
    ensures r.nextRetryAt.Some? <==> 0 <= retryCount + 1 < |delayMinutes| && delayMinutes[retryCount + 1] != 0
    ensures r.nextRetryAt.Some? ==> r.nextRetryAt.value - attemptedAt == delayMinutes[retryCount + 1] * 60000
    ensures r.exhaustedAt.Some? ==> r.exhaustedAt.value == attemptedAt
    ensures r.retryCount == retryCount + 1 && r.lastRetryAt == Some(attemptedAt) && r.lastError == error
  {
    StateAt(retryCount + 1, attemptedAt, Some(attemptedAt), delayMinutes, error)
  }

  /** hasManagedRetryState; an empty error message is no message. */
  predicate HasRetryState(r: RetryState) {
    || r.retryCount > 0
    || r.nextRetryAt.Some?
    || r.lastRetryAt.Some?
    || r.exhaustedAt.Some?
    || (r.lastError.Some? && r.lastError.value != "")
  }
}
