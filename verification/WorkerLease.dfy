/** The lease that keeps background workers from running at once (tryAcquireLease, the same in every
    worker): read the row, give up if another owner's lease has not expired, else take it with a
    compare-and-swap on the row as read. */
module WorkerLease {
  import opened Common

  type Owner = nat
  type AttemptId = nat

  datatype Lease = Lease(owner: Owner, expiresAt: int)

  predicate MustYield(lease: Lease, owner: Owner, now: int) { lease.owner != owner && lease.expiresAt > now }

  /** getLeaseDurationMilliseconds: two intervals, at least a minute. */
  function LeaseDurationMs(intervalSeconds: int): (ms: int)
    ensures ms >= 60000 && ms >= 2 * intervalSeconds * 1000 && (ms == 60000 || ms == 2 * intervalSeconds * 1000)
  {
    Max(intervalSeconds * 2, 60) * 1000
  }

  class LeaseTable {
    var row: Option<Lease>

    constructor ()
      ensures row == None
    {
      row := None;
    }

    /** tryAcquireLease as one serializable transaction. */
    method TryAcquire(owner: Owner, now: int, duration: int) returns (acquired: bool)
      modifies this
      ensures acquired <==> old(row).None? || old(row).value.owner == owner || old(row).value.expiresAt <= now
      ensures row == if acquired then Some(Lease(owner, now + duration)) else old(row)
    {
      var expiresAt := now + duration;
      var lease := row;
      if lease.None? {
        row := Some(Lease(owner, expiresAt));
        return true;
      }
      if lease.value.owner != owner && lease.value.expiresAt > now {
        return false;
      }
      row := Some(Lease(owner, expiresAt));
      acquired := true;
    }
  }

  // ---------------------------------------------------------------- interleaved attempts

  /** An attempt samples the time, later reads the row, later still tries its write. */
  datatype Attempt = Sampled(owner: Owner, now: int) | HasRead(owner: Owner, now: int, seen: Option<Lease>)

  datatype Grant = Grant(owner: Owner, sampledAt: int, expiresAt: int, grantedAt: int)

  /** clock is the real time; grants lists every acquisition that returned true, in order. */
  datatype State = State(clock: int, duration: int, row: Option<Lease>, attempts: map<AttemptId, Attempt>,
      grants: seq<Grant>)

  datatype Action =
    | Tick(ms: nat)
    | Sample(attempt: AttemptId, owner: Owner)
    | Read(attempt: AttemptId)
    | Write(attempt: AttemptId)
    | Fail(attempt: AttemptId)

  /** isRunning: a worker starts no cycle while one of its own is under way. */
  predicate IsRunning(s: State, owner: Owner) { exists a :: a in s.attempts && s.attempts[a].owner == owner }

  predicate Enabled(s: State, a: Action) {
    match a
    case Tick(_) => true
    case Sample(attempt, owner) => attempt !in s.attempts && !IsRunning(s, owner)
    case Read(attempt) => attempt in s.attempts && s.attempts[attempt].Sampled?
    case Write(attempt) => attempt in s.attempts && s.attempts[attempt].HasRead?
    case Fail(attempt) => attempt in s.attempts
  }

  /** create fails on the unique name if a row appeared; updateMany changes the row only if it is still the one seen.
      Both misses are the same test: the row has to be what the attempt saw. */
  predicate Swaps(s: State, t: Attempt) { t.HasRead? && s.row == t.seen }

  function Apply(s: State, a: Action): State {
    if !Enabled(s, a) then s
    else match a
      case Tick(ms) => s.(clock := s.clock + ms)
      case Sample(attempt, owner) => s.(attempts := s.attempts[attempt := Sampled(owner, s.clock)])
      case Read(attempt) =>
        var t := s.attempts[attempt];
        if s.row.Some? && MustYield(s.row.value, t.owner, t.now) then s.(attempts := s.attempts - {attempt})
        else s.(attempts := s.attempts[attempt := HasRead(t.owner, t.now, s.row)])
      case Write(attempt) =>
        var t := s.attempts[attempt];
        if Swaps(s, t) then
          s.(attempts := s.attempts - {attempt},
             row := Some(Lease(t.owner, t.now + s.duration)),
             grants := s.grants + [Grant(t.owner, t.now, t.now + s.duration, s.clock)])
        else s.(attempts := s.attempts - {attempt})
      case Fail(attempt) => s.(attempts := s.attempts - {attempt})
  }

  function Run(s: State, actions: seq<Action>): State {
    if actions == [] then s else Apply(Run(s, actions[..|actions| - 1]), actions[|actions| - 1])
  }

  function Initial(clock: int, duration: int): State { State(clock, duration, None, map[], []) }

  /** When an owner's most recent grant ends; None if it never had one. */
  function LatestExpiry(grants: seq<Grant>, owner: Owner): Option<int> {
    if grants == [] then None
    else if grants[|grants| - 1].owner == owner then Some(grants[|grants| - 1].expiresAt)
    else LatestExpiry(grants[..|grants| - 1], owner)
  }

  predicate Holds(s: State, owner: Owner) {
    LatestExpiry(s.grants, owner).Some? && LatestExpiry(s.grants, owner).value > s.clock
  }

  ghost predicate AttemptInv(s: State, t: Attempt) {
    && t.now <= s.clock
    && (t.HasRead? && t.seen.Some? ==> !MustYield(t.seen.value, t.owner, t.now))
  }

  ghost predicate Inv(s: State) {
    && (forall a :: a in s.attempts ==> AttemptInv(s, s.attempts[a]))
    && (s.row.None? <==> s.grants == [])
    && (s.row.Some? ==> s.row.value == Lease(s.grants[|s.grants| - 1].owner, s.grants[|s.grants| - 1].expiresAt))
    && (forall o :: LatestExpiry(s.grants, o).Some? && s.row.value.owner != o ==>
       LatestExpiry(s.grants, o).value <= s.clock)
  }

  /** What one write may do to a lease that is still running: renew it for its owner, never hand it over. */
  lemma WriteGrantsOnlyFreeLease(s: State, attempt: AttemptId)
    requires Inv(s) && Enabled(s, Write(attempt))
    ensures var t, after := s.attempts[attempt], Apply(s, Write(attempt));
            && (after.grants != s.grants <==> s.row == t.seen)
            && (after.grants != s.grants && s.row.Some? && s.row.value.owner != t.owner ==>
               s.row.value.expiresAt <= s.clock)
            && Inv(after)
  {
    var t, after := s.attempts[attempt], Apply(s, Write(attempt));
    assert AttemptInv(s, t);
    if Swaps(s, t) {
      assert after.grants[..|s.grants|] == s.grants;
      forall o | LatestExpiry(after.grants, o).Some? && t.owner != o
        ensures LatestExpiry(after.grants, o).value <= s.clock
      {
        assert LatestExpiry(after.grants, o) == LatestExpiry(s.grants, o);
      }
    }
  }

  lemma {:induction false} EveryRunKeepsInv(clock: int, duration: int, actions: seq<Action>)
    ensures Inv(Run(Initial(clock, duration), actions))
  {
    if actions == [] {
    } else {
      EveryRunKeepsInv(clock, duration, actions[..|actions| - 1]);
      var s := Run(Initial(clock, duration), actions[..|actions| - 1]);
      var a := actions[|actions| - 1];
      if Enabled(s, a) && a.Write? {
        WriteGrantsOnlyFreeLease(s, a.attempt);
      }
    }
  }

  /** However sampling, reading and writing interleave, at no time do two owners hold the lease. */
  lemma AtMostOneHolder(clock: int, duration: int, actions: seq<Action>, a: Owner, b: Owner)
    requires Holds(Run(Initial(clock, duration), actions), a)
    requires Holds(Run(Initial(clock, duration), actions), b)
    ensures a == b
  {
    EveryRunKeepsInv(clock, duration, actions);
  }

  /** The owner of the lease changes only at a real time at or after the previous lease's expiry. */
  lemma TakeoverWaitsForExpiry(clock: int, duration: int, actions: seq<Action>, a: Action)
    ensures var s := Run(Initial(clock, duration), actions);
            var after := Apply(s, a);
            s.row.Some? && after.row.Some? && after.row.value.owner != s.row.value.owner
            ==> s.row.value.expiresAt <= s.clock == after.clock
  {
    EveryRunKeepsInv(clock, duration, actions);
    var s := Run(Initial(clock, duration), actions);
    if Enabled(s, a) && a.Write? {
      WriteGrantsOnlyFreeLease(s, a.attempt);
    }
  }

  // ---------------------------------------------------------------- every grant, not only the latest

  /** A worker has one attempt at a time, later than all it was granted before. */
  ghost predicate OneAtATime(s: State) {
    && (forall a, b :: a in s.attempts && b in s.attempts && s.attempts[a].owner == s.attempts[b].owner ==> a == b)
    && (forall i :: 0 <= i < |s.grants| ==>
          && s.grants[i].sampledAt <= s.clock && s.grants[i].expiresAt == s.grants[i].sampledAt + s.duration
          && (forall a :: a in s.attempts && s.attempts[a].owner == s.grants[i].owner ==>
             s.grants[i].sampledAt <= s.attempts[a].now))
    && (forall a :: a in s.attempts ==> s.attempts[a].now <= s.clock)
  }

  /** An owner's grants last longer and longer. */
  ghost predicate SamplesInOrder(grants: seq<Grant>) {
    forall i, j :: 0 <= i < j < |grants| && grants[i].owner == grants[j].owner ==>
        grants[i].expiresAt <= grants[j].expiresAt
  }

  lemma ActionKeepsOrder(s: State, a: Action)
    requires OneAtATime(s) && SamplesInOrder(s.grants)
    ensures OneAtATime(Apply(s, a)) && SamplesInOrder(Apply(s, a).grants)
  {
  }

  lemma {:induction false} EveryRunKeepsOrder(clock: int, duration: int, actions: seq<Action>)
    ensures OneAtATime(Run(Initial(clock, duration), actions))
    ensures SamplesInOrder(Run(Initial(clock, duration), actions).grants)
  {
    if actions != [] {
      EveryRunKeepsOrder(clock, duration, actions[..|actions| - 1]);
      ActionKeepsOrder(Run(Initial(clock, duration), actions[..|actions| - 1]), actions[|actions| - 1]);
    }
  }

  lemma {:induction false} LatestIsLongest(grants: seq<Grant>, g: Grant)
    requires SamplesInOrder(grants) && g in grants
    ensures LatestExpiry(grants, g.owner).Some? && g.expiresAt <= LatestExpiry(grants, g.owner).value
  {
    var n := |grants| - 1;
    var i :| 0 <= i < |grants| && grants[i] == g;
    if grants[n].owner != g.owner {
      assert grants[..n][i] == g;
      LatestIsLongest(grants[..n], g);
    } else {
      assert i < n ==> grants[i].expiresAt <= grants[n].expiresAt;
    }
  }

  /** Mutual exclusion: in every run, no two grants of different owners, however old, are unexpired at once. */
  lemma NoTwoGrantsOverlap(clock: int, duration: int, actions: seq<Action>, g: Grant, h: Grant)
    requires g in Run(Initial(clock, duration), actions).grants && h in Run(Initial(clock, duration), actions).grants
    requires g.expiresAt > Run(Initial(clock, duration), actions).clock
    requires h.expiresAt > Run(Initial(clock, duration), actions).clock
    ensures g.owner == h.owner
  {
    var s := Run(Initial(clock, duration), actions);
    EveryRunKeepsOrder(clock, duration, actions);
    LatestIsLongest(s.grants, g);
    LatestIsLongest(s.grants, h);
    AtMostOneHolder(clock, duration, actions, g.owner, h.owner);
  }
}
