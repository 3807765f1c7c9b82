/** What cycles of alert delivery leave in the tables, and when targets hear of an alert, over every run. */
module AlertRuns {
  import opened Common
  import opened AlertDelivery
  import opened StableSort

  /** Alerts have distinct kinds and targets distinct keys. */
  predicate WellFormed(c: Cycle) {
    && (forall i, j :: 0 <= i < j < |c.alerts| ==> c.alerts[i].kind != c.alerts[j].kind)
    && Distinct(c.targets)
    && c.cooldown >= 0
  }

  // ---------------------------------------------------------------- a cycle row by row

  /** The row of a target that was offered an alert. */
  function OfferedRow(
    current: Option<TargetState>, loaded: Option<TargetState>, key: TargetKey, fingerprint: string, c: Cycle)
    : Option<TargetState>
  {
    if ShouldSend(loaded, fingerprint, c.now, c.cooldown)
        then Some(TargetTried(current, fingerprint, c.answer(key), c.now)) else current
  }

  lemma OfferedLast(
    p: Progress, loaded: map<TargetKey, TargetState>, alert: Alert, targets: seq<Target>, c: Cycle, key: TargetKey)
    requires alert.kind in p.db.alerts && targets != []
    ensures var before := Offered(p, loaded, alert, targets[..|targets| - 1], c);
            Lookup(Offered(p, loaded, alert, targets, c).db.targets, key)
            == if key == TargetKey(alert.kind, targets[|targets| - 1])
               then OfferedRow(Lookup(before.db.targets, key), Lookup(loaded, key), key, alert.fingerprint, c)
               else Lookup(before.db.targets, key)
  {
  }

  lemma {:induction false} OfferedTarget(
    p: Progress, loaded: map<TargetKey, TargetState>, alert: Alert, targets: seq<Target>, c: Cycle, key: TargetKey)
    requires alert.kind in p.db.alerts && Distinct(targets)
    ensures Lookup(Offered(p, loaded, alert, targets, c).db.targets, key)
         == if key.alertKind == alert.kind && key.targetKey in targets
            then OfferedRow(Lookup(p.db.targets, key), Lookup(loaded, key), key, alert.fingerprint, c)
            else Lookup(p.db.targets, key)
  {
    if targets != [] {
      var init, last := targets[..|targets| - 1], targets[|targets| - 1];
      OfferedTarget(p, loaded, alert, init, c, key);
      assert targets == init + [last];
      OfferedLast(p, loaded, alert, targets, c, key);
    }
  }

  lemma {:induction false} OfferedAlert(
    p: Progress, loaded: map<TargetKey, TargetState>, alert: Alert, targets: seq<Target>, c: Cycle, k: Kind)
    requires alert.kind in p.db.alerts
    ensures var after := Offered(p, loaded, alert, targets, c).db.alerts;
            && (k in after <==> k in p.db.alerts)
            && (k != alert.kind ==> Lookup(after, k) == Lookup(p.db.alerts, k))
            && (k in after ==>
               after[k].resolvedAt == p.db.alerts[k].resolvedAt && after[k].fingerprint == p.db.alerts[k].fingerprint
                               && after[k].firstObservedAt == p.db.alerts[k].firstObservedAt
                               && after[k].lastObservedAt == p.db.alerts[k].lastObservedAt)
  {
    if targets != [] {
      OfferedAlert(p, loaded, alert, targets[..|targets| - 1], c, k);
    }
  }

  predicate Active(alerts: seq<Alert>, k: Kind) { exists i :: 0 <= i < |alerts| && alerts[i].kind == k }

  /** The fingerprint of the active alert of this kind */
  function FingerprintOf(alerts: seq<Alert>, k: Kind): string
    requires Active(alerts, k)
  {
    if alerts[|alerts| - 1].kind == k then alerts[|alerts| - 1].fingerprint
    else
      assert Active(alerts[..|alerts| - 1], k) by {
        var i :| 0 <= i < |alerts| && alerts[i].kind == k;
        assert alerts[..|alerts| - 1][i].kind == k;
      }
      FingerprintOf(alerts[..|alerts| - 1], k)
  }

  lemma KindsAreActive(alerts: seq<Alert>, k: Kind)
    ensures k in Kinds(alerts) <==> Active(alerts, k)
  {
    if k in Kinds(alerts) {
      var a :| a in alerts && a.kind == k;
    }
  }

  lemma ActiveInParts(alerts: seq<Alert>, k: Kind)
    requires alerts != []
    ensures Active(alerts, k) <==> alerts[|alerts| - 1].kind == k || Active(alerts[..|alerts| - 1], k)
  {
    var init := alerts[..|alerts| - 1];
    if Active(alerts, k) && alerts[|alerts| - 1].kind != k {
      var i :| 0 <= i < |alerts| && alerts[i].kind == k;
      assert init[i].kind == k;
    }
    if Active(init, k) {
      var i :| 0 <= i < |init| && init[i].kind == k;
      assert alerts[i].kind == k;
    }
  }

  /** One alert's turn, on one target row. */
  lemma TurnOfTarget(p: Progress, loaded: Tables, alert: Alert, c: Cycle, key: TargetKey)
    requires Distinct(c.targets)
    ensures Lookup(Offered(p.(db := WithObserved(p.db, loaded, alert, c)), loaded.targets, alert, c.targets,
        c).db.targets, key)
         == if key.alertKind == alert.kind && key.targetKey in c.targets
            then OfferedRow(Lookup(p.db.targets, key), Lookup(loaded.targets, key), key, alert.fingerprint, c)
            else Lookup(p.db.targets, key)
  {
    OfferedTarget(p.(db := WithObserved(p.db, loaded, alert, c)), loaded.targets, alert, c.targets, c, key);
  }

  lemma {:induction false} SyncedTarget(p: Progress, loaded: Tables, alerts: seq<Alert>, c: Cycle, key: TargetKey)
    requires Distinct(c.targets)
    requires forall i, j :: 0 <= i < j < |alerts| ==> alerts[i].kind != alerts[j].kind
    ensures Lookup(Synced(p, loaded, alerts, c).db.targets, key)
         == if Active(alerts, key.alertKind) && key.targetKey in c.targets
            then OfferedRow(Lookup(p.db.targets, key), Lookup(loaded.targets, key), key,
                FingerprintOf(alerts, key.alertKind), c)
            else Lookup(p.db.targets, key)
  {
    if alerts != [] {
      var init, last := alerts[..|alerts| - 1], alerts[|alerts| - 1];
      SyncedTarget(p, loaded, init, c, key);
      TurnOfTarget(Synced(p, loaded, init, c), loaded, last, c, key);
      ActiveInParts(alerts, key.alertKind);
    }
  }

  lemma TurnOfAlert(p: Progress, loaded: Tables, alert: Alert, c: Cycle, k: Kind)
    ensures var after :=
        Offered(p.(db := WithObserved(p.db, loaded, alert, c)), loaded.targets, alert, c.targets, c).db.alerts;
            && (k != alert.kind ==> Lookup(after, k) == Lookup(p.db.alerts, k))
            && IsObserved(Lookup(after, alert.kind), Lookup(loaded.alerts, alert.kind), alert.fingerprint, c.now)
  {
    OfferedAlert(p.(db := WithObserved(p.db, loaded, alert, c)), loaded.targets, alert, c.targets, c, k);
    OfferedAlert(p.(db := WithObserved(p.db, loaded, alert, c)), loaded.targets, alert, c.targets, c, alert.kind);
  }

  /** The row of an alert that has been observed: unresolved, with the alert's fingerprint, and the time it
      was first observed with it. */
  predicate IsObserved(row: Option<AlertState>, loaded: Option<AlertState>, fingerprint: string, now: int) {
    && row.Some? && row.value.resolvedAt.None? && row.value.fingerprint == fingerprint
    && row.value.lastObservedAt == now
    && row.value.firstObservedAt
       == (if loaded.Some? && loaded.value.resolvedAt.None? && loaded.value.fingerprint == fingerprint
           then loaded.value.firstObservedAt else now)
  }

  lemma {:induction false} SyncedAlert(p: Progress, loaded: Tables, alerts: seq<Alert>, c: Cycle, k: Kind)
    requires forall i, j :: 0 <= i < j < |alerts| ==> alerts[i].kind != alerts[j].kind
    ensures var row := Lookup(Synced(p, loaded, alerts, c).db.alerts, k);
            if Active(alerts, k) then IsObserved(row, Lookup(loaded.alerts, k), FingerprintOf(alerts, k), c.now)
            else row == Lookup(p.db.alerts, k)
  {
    if alerts != [] {
      var init, last := alerts[..|alerts| - 1], alerts[|alerts| - 1];
      SyncedAlert(p, loaded, init, c, k);
      TurnOfAlert(Synced(p, loaded, init, c), loaded, last, c, k);
      ActiveInParts(alerts, k);
    }
  }

  predicate Unresolved(db: Tables, k: Kind) { k in db.alerts && db.alerts[k].resolvedAt.None? }

  /** After a cycle the alert of an active kind is unresolved and shows since when it has been as it is;
      every other alert is resolved and otherwise as it was. */
  lemma AlertAfterCycle(db: Tables, c: Cycle, k: Kind)
    requires WellFormed(c)
    ensures var row := Lookup(AfterCycle(db, c).db.alerts, k);
            if Active(c.alerts, k) then IsObserved(row, Lookup(db.alerts, k), FingerprintOf(c.alerts, k), c.now)
            else if Unresolved(db, k) then row == Some(db.alerts[k].(resolvedAt := Some(c.now)))
            else row == Lookup(db.alerts, k)
  {
    KindsAreActive(c.alerts, k);
    SyncedAlert(Progress(db, 0, 0), Relevant(db, c), c.alerts, c, k);
  }

  /** After a cycle the row of a target offered an active alert records the attempt, if there was reason for
      one; rows of alerts that cleared are resolved, and all others are as they were. */
  lemma TargetAfterCycle(db: Tables, c: Cycle, key: TargetKey)
    requires WellFormed(c)
    ensures var row, before := Lookup(AfterCycle(db, c).db.targets, key), Lookup(db.targets, key);
            if Active(c.alerts, key.alertKind) then
              row == (if key.targetKey in c.targets
                  then OfferedRow(before, before, key, FingerprintOf(c.alerts, key.alertKind), c) else before)
            else if Unresolved(db, key.alertKind) && before.Some? && before.value.resolvedAt.None?
            then row == Some(before.value.(resolvedAt := Some(c.now)))
            else row == before
  {
    KindsAreActive(c.alerts, key.alertKind);
    SyncedTarget(Progress(db, 0, 0), Relevant(db, c), c.alerts, c, key);
    ResolvedTarget(Synced(Progress(db, 0, 0), Relevant(db, c), c.alerts, c).db,
                   Cleared(Relevant(db, c).alerts, Kinds(c.alerts)), c.now, key);
  }

  lemma ResolvedTarget(db: Tables, kinds: set<Kind>, now: int, key: TargetKey)
    ensures var row := Lookup(db.targets, key);
            Lookup(Resolved(db, kinds, now).targets, key)
            == if key.alertKind in kinds && row.Some? && row.value.resolvedAt.None?
                then Some(row.value.(resolvedAt := Some(now))) else row
  {
  }

  // ---------------------------------------------------------------- what the counters count

  /** The alert is sent to the target, which answers (ok) or fails. */
  predicate Reaches(loaded: map<TargetKey, TargetState>, alert: Alert, key: TargetKey, c: Cycle, ok: bool) {
    ShouldSend(Lookup(loaded, key), alert.fingerprint, c.now, c.cooldown) && c.answer(key).None? == ok
  }

  function KeysWhere(kind: Kind, targets: seq<Target>, hit: TargetKey -> bool): set<TargetKey> {
    set t | t in targets && hit(TargetKey(kind, t)) :: TargetKey(kind, t)
  }

  lemma LastKey(kind: Kind, targets: seq<Target>, hit: TargetKey -> bool)
    requires targets != [] && Distinct(targets)
    ensures var init, key := targets[..|targets| - 1], TargetKey(kind, targets[|targets| - 1]);
            |KeysWhere(kind, targets, hit)| == |KeysWhere(kind, init, hit)| + if hit(key) then 1 else 0
  {
    var init, last := targets[..|targets| - 1], targets[|targets| - 1];
    var before := KeysWhere(kind, init, hit);
    assert targets == init + [last];
    assert TargetKey(kind, last) !in before;
    assert KeysWhere(kind, targets, hit) == before + if hit(TargetKey(kind, last)) then {TargetKey(kind, last)} else {};
  }

  function Reached(
    loaded: map<TargetKey, TargetState>, alert: Alert, targets: seq<Target>, c: Cycle, ok: bool): set<TargetKey> {
    KeysWhere(alert.kind, targets, (key: TargetKey) => Reaches(loaded, alert, key, c, ok))
  }

  lemma ReachedLast(loaded: map<TargetKey, TargetState>, alert: Alert, targets: seq<Target>, c: Cycle, ok: bool)
    requires targets != [] && Distinct(targets)
    ensures var init, key := targets[..|targets| - 1], TargetKey(alert.kind, targets[|targets| - 1]);
            |Reached(loaded, alert, targets, c, ok)|
            == |Reached(loaded, alert, init, c, ok)| + if Reaches(loaded, alert, key, c, ok) then 1 else 0
  {
    LastKey(alert.kind, targets, (key: TargetKey) => Reaches(loaded, alert, key, c, ok));
  }

  lemma {:induction false} OfferedCounts(
    p: Progress, loaded: map<TargetKey, TargetState>, alert: Alert, targets: seq<Target>, c: Cycle)
    requires alert.kind in p.db.alerts && Distinct(targets)
    ensures var r := Offered(p, loaded, alert, targets, c);
            var told, missed := |Reached(loaded, alert, targets, c, true)|, |Reached(loaded, alert, targets, c, false)|;
            && r.delivered == p.delivered + told && r.failed == p.failed + missed
            && r.db.alerts[alert.kind].deliveryCount == p.db.alerts[alert.kind].deliveryCount + told
            && r.db.alerts[alert.kind].deliveryFailures == p.db.alerts[alert.kind].deliveryFailures + missed
  {
    if targets == [] {
      assert Reached(loaded, alert, targets, c, true) == {} == Reached(loaded, alert, targets, c, false);
    } else {
      OfferedCounts(p, loaded, alert, targets[..|targets| - 1], c);
      ReachedLast(loaded, alert, targets, c, true);
      ReachedLast(loaded, alert, targets, c, false);
    }
  }

  /** Every target that some of the alerts reach */
  function ReachedBy(loaded: map<TargetKey, TargetState>, alerts: seq<Alert>, c: Cycle, ok: bool): set<TargetKey> {
    if alerts == [] then {}
    else ReachedBy(loaded, alerts[..|alerts| - 1], c, ok) + Reached(loaded, alerts[|alerts| - 1], c.targets, c, ok)
  }

  lemma {:induction false} ReachedByIs(
    loaded: map<TargetKey, TargetState>, alerts: seq<Alert>, c: Cycle, ok: bool, key: TargetKey)
    requires forall i, j :: 0 <= i < j < |alerts| ==> alerts[i].kind != alerts[j].kind
    ensures key in ReachedBy(loaded, alerts, c, ok)
       <==> && Active(alerts, key.alertKind) && key.targetKey in c.targets
            && Reaches(loaded, Alert(key.alertKind, FingerprintOf(alerts, key.alertKind)), key, c, ok)
  {
    if alerts != [] {
      ReachedByIs(loaded, alerts[..|alerts| - 1], c, ok, key);
      ActiveInParts(alerts, key.alertKind);
    }
  }

  lemma ReachedInTurn(loaded: map<TargetKey, TargetState>, alerts: seq<Alert>, c: Cycle, ok: bool)
    requires alerts != [] && forall i, j :: 0 <= i < j < |alerts| ==> alerts[i].kind != alerts[j].kind
    ensures |ReachedBy(loaded, alerts, c, ok)|
         == |ReachedBy(loaded, alerts[..|alerts| - 1], c, ok)|
             + |Reached(loaded, alerts[|alerts| - 1], c.targets, c, ok)|
  {
    var before, now := ReachedBy(loaded, alerts[..|alerts| - 1], c, ok),
        Reached(loaded, alerts[|alerts| - 1], c.targets, c, ok);
    forall key | key in before
      ensures key !in now
    {
      ReachedByIs(loaded, alerts[..|alerts| - 1], c, ok, key);
    }
    assert before !! now;
  }

  lemma {:induction false} SyncedCounts(p: Progress, loaded: Tables, alerts: seq<Alert>, c: Cycle)
    requires Distinct(c.targets) && forall i, j :: 0 <= i < j < |alerts| ==> alerts[i].kind != alerts[j].kind
    ensures var r := Synced(p, loaded, alerts, c);
            && r.delivered == p.delivered + |ReachedBy(loaded.targets, alerts, c, true)|
            && r.failed == p.failed + |ReachedBy(loaded.targets, alerts, c, false)|
  {
    if alerts != [] {
      var init, last := alerts[..|alerts| - 1], alerts[|alerts| - 1];
      SyncedCounts(p, loaded, init, c);
      var before := Synced(p, loaded, init, c);
      OfferedCounts(before.(db := WithObserved(before.db, loaded, last, c)), loaded.targets, last, c.targets, c);
      ReachedInTurn(loaded.targets, alerts, c, true);
      ReachedInTurn(loaded.targets, alerts, c, false);
    }
  }

  /** The deliveries a cycle counts are exactly the targets it told, the failures exactly those it tried in vain. */
  lemma CountersAreExact(db: Tables, c: Cycle)
    requires WellFormed(c)
    ensures var told, missed := ReachedBy(Relevant(db, c).targets, c.alerts, c, true),
        ReachedBy(Relevant(db, c).targets, c.alerts, c, false);
            && (forall key :: key in told <==> Delivers(db, c, key))
            && (forall key :: key in missed <==> Tries(db, c, key) && c.answer(key).Some?)
            && AfterCycle(db, c).delivered == |told| && AfterCycle(db, c).failed == |missed|
  {
    var loaded := Relevant(db, c).targets;
    SyncedCounts(Progress(db, 0, 0), Relevant(db, c), c.alerts, c);
    forall key: TargetKey
      ensures key in ReachedBy(loaded, c.alerts, c, true) <==> Delivers(db, c, key)
      ensures key in ReachedBy(loaded, c.alerts, c, false) <==> Tries(db, c, key) && c.answer(key).Some?
    {
      ReachedByIs(loaded, c.alerts, c, true, key);
      ReachedByIs(loaded, c.alerts, c, false, key);
      KindsAreActive(c.alerts, key.alertKind);
    }
  }

  lemma {:induction false} SyncedAlertCounts(p: Progress, loaded: Tables, alerts: seq<Alert>, c: Cycle, k: Kind)
    requires Distinct(c.targets) && Active(alerts, k)
    requires forall i, j :: 0 <= i < j < |alerts| ==> alerts[i].kind != alerts[j].kind
    ensures var row, before := Lookup(Synced(p, loaded, alerts, c).db.alerts, k), Lookup(p.db.alerts, k);
            var alert := Alert(k, FingerprintOf(alerts, k));
            && row.Some?
            && row.value.deliveryCount == (if before.Some? then before.value.deliveryCount else 0)
                                          + |Reached(loaded.targets, alert, c.targets, c, true)|
            && row.value.deliveryFailures == (if before.Some? then before.value.deliveryFailures else 0)
                                             + |Reached(loaded.targets, alert, c.targets, c, false)|
  {
    var init, last := alerts[..|alerts| - 1], alerts[|alerts| - 1];
    var before := Synced(p, loaded, init, c);
    ActiveInParts(alerts, k);
    if last.kind == k {
      SyncedAlert(p, loaded, init, c, k);
      OfferedCounts(before.(db := WithObserved(before.db, loaded, last, c)), loaded.targets, last, c.targets, c);
    } else {
      SyncedAlertCounts(p, loaded, init, c, k);
      TurnOfAlert(before, loaded, last, c, k);
    }
  }

  /** The target rows of this kind that a cycle tries with this outcome */
  function TriedKeys(db: Tables, c: Cycle, k: Kind, ok: bool): set<TargetKey> {
    KeysWhere(k, c.targets, (key: TargetKey) => Tries(db, c, key) && c.answer(key).None? == ok)
  }

  lemma ReachedAreTried(db: Tables, c: Cycle, k: Kind, ok: bool)
    requires WellFormed(c) && Active(c.alerts, k)
    ensures Reached(Relevant(db, c).targets, Alert(k, FingerprintOf(c.alerts, k)), c.targets, c, ok)
         == TriedKeys(db, c, k, ok)
  {
    KindsAreActive(c.alerts, k);
    forall t | t in c.targets
      ensures Lookup(Relevant(db, c).targets, TargetKey(k, t)) == Lookup(db.targets, TargetKey(k, t))
    {
    }
  }

  /** The row of an active alert counts the targets that heard of it in a cycle, and those that could not be reached. */
  lemma AlertCountsItsTargets(db: Tables, c: Cycle, k: Kind)
    requires WellFormed(c) && Active(c.alerts, k)
    ensures var row, before := Lookup(AfterCycle(db, c).db.alerts, k), Lookup(db.alerts, k);
            && row.Some?
            && row.value.deliveryCount
               == (if before.Some? then before.value.deliveryCount else 0) + |TriedKeys(db, c, k, true)|
            && row.value.deliveryFailures
               == (if before.Some? then before.value.deliveryFailures else 0) + |TriedKeys(db, c, k, false)|
  {
    KindsAreActive(c.alerts, k);
    SyncedAlertCounts(Progress(db, 0, 0), Relevant(db, c), c.alerts, c, k);
    ReachedAreTried(db, c, k, true);
    ReachedAreTried(db, c, k, false);
  }

  // ---------------------------------------------------------------- runs

  function Run(db: Tables, cycles: seq<Cycle>): Tables {
    if cycles == [] then db else AfterCycle(Run(db, cycles[..|cycles| - 1]), cycles[|cycles| - 1]).db
  }

  /** After every cycle the unresolved alerts are exactly the active kinds, whatever state it found. */
  lemma UnresolvedAreActive(db: Tables, cycles: seq<Cycle>, k: Kind)
    requires cycles != [] && WellFormed(cycles[|cycles| - 1])
    ensures Unresolved(Run(db, cycles), k) <==> Active(cycles[|cycles| - 1].alerts, k)
  {
    AlertAfterCycle(Run(db, cycles[..|cycles| - 1]), cycles[|cycles| - 1], k);
  }

  /** No target is still owed news of an alert that is not unresolved. */
  ghost predicate TargetsFollowAlerts(db: Tables) {
    forall key :: key in db.targets && db.targets[key].resolvedAt.None? ==> Unresolved(db, key.alertKind)
  }

  lemma CycleKeepsTargetsFollowing(db: Tables, c: Cycle)
    requires WellFormed(c) && TargetsFollowAlerts(db)
    ensures TargetsFollowAlerts(AfterCycle(db, c).db)
  {
    var after := AfterCycle(db, c).db;
    forall key | key in after.targets && after.targets[key].resolvedAt.None?
      ensures Unresolved(after, key.alertKind)
    {
      TargetAfterCycle(db, c, key);
      AlertAfterCycle(db, c, key.alertKind);
    }
  }

  /** In every run, a target row is unresolved only while its alert is. */
  lemma {:induction false} NoTargetOutlivesItsAlert(db: Tables, cycles: seq<Cycle>)
    requires TargetsFollowAlerts(db) && forall c :: c in cycles ==> WellFormed(c)
    ensures TargetsFollowAlerts(Run(db, cycles))
  {
    if cycles != [] {
      NoTargetOutlivesItsAlert(db, cycles[..|cycles| - 1]);
      CycleKeepsTargetsFollowing(Run(db, cycles[..|cycles| - 1]), cycles[|cycles| - 1]);
    }
  }

  /** The alert is active with this fingerprint in every one of the cycles. */
  ghost predicate SeenIn(cycles: seq<Cycle>, k: Kind, fingerprint: string) {
    forall c :: c in cycles ==> WellFormed(c) && Active(c.alerts, k) && FingerprintOf(c.alerts, k) == fingerprint
  }

  /** An alert's row shows when it was first seen as it is now, and when it was last seen. */
  lemma {:induction false} AlertShowsSinceWhen(db: Tables, first: Cycle, rest: seq<Cycle>, k: Kind, fingerprint: string)
    requires SeenIn([first] + rest, k, fingerprint)
    requires Unresolved(db, k) ==> db.alerts[k].fingerprint != fingerprint
    ensures var row := Lookup(Run(AfterCycle(db, first).db, rest).alerts, k);
            && row.Some? && row.value.resolvedAt.None? && row.value.fingerprint == fingerprint
            && row.value.firstObservedAt == first.now
            && row.value.lastObservedAt == (if rest == [] then first.now else rest[|rest| - 1].now)
  {
    if rest == [] {
      assert first in [first] + rest;
      AlertAfterCycle(db, first, k);
    } else {
      var init, last := rest[..|rest| - 1], rest[|rest| - 1];
      assert last in [first] + rest;
      assert forall c :: c in [first] + init ==> c in [first] + rest;
      AlertShowsSinceWhen(db, first, init, k, fingerprint);
      AlertAfterCycle(Run(AfterCycle(db, first).db, init), last, k);
    }
  }

  // ---------------------------------------------------------------- what a target's row remembers

  /** A configured target is told of an active alert at once when there is news for it: it has no row, its row is of an
      alert that was resolved or said something else, or it was never reached; otherwise once a cooldown has passed. */
  lemma NewsIsTriedAtOnce(db: Tables, c: Cycle, key: TargetKey)
    requires Active(c.alerts, key.alertKind) && key.targetKey in c.targets
    ensures Tries(db, c, key) <==>
              || key !in db.targets
              || db.targets[key].resolvedAt.Some?
              || db.targets[key].fingerprint != FingerprintOf(c.alerts, key.alertKind)
              || db.targets[key].lastDeliveredAt.None?
              || c.now - db.targets[key].lastDeliveredAt.value >= c.cooldown
  {
  }

  /** In how many cycles of a run the target was reached, or tried in vain. */
  function TimesTried(db: Tables, cycles: seq<Cycle>, key: TargetKey, ok: bool): nat {
    if cycles == [] then 0
    else
      var before, c := cycles[..|cycles| - 1], cycles[|cycles| - 1];
      TimesTried(db, before, key, ok)
      + if Tries(Run(db, before), c, key) && c.answer(key).None? == ok then 1 else 0
  }

  /** The last cycle of a run that tried the target, with this outcome or with any. */
  function LastTried(db: Tables, cycles: seq<Cycle>, key: TargetKey, onlyReached: bool): Option<Cycle> {
    if cycles == [] then None
    else
      var before, c := cycles[..|cycles| - 1], cycles[|cycles| - 1];
      if Tries(Run(db, before), c, key) && (onlyReached ==> c.answer(key).None?) then Some(c)
      else LastTried(db, before, key, onlyReached)
  }

  /** A target's row tells its own history: how often it was reached and how often tried in vain, when last, and with
      what outcome. */
  predicate TellsHistory(row: Option<TargetState>, db: Tables, cycles: seq<Cycle>, key: TargetKey) {
    var tried, reached := LastTried(db, cycles, key, false), LastTried(db, cycles, key, true);
    && (row.None? <==> tried.None?)
    && (row.None? ==> reached.None? && TimesTried(db, cycles, key, true) == 0 == TimesTried(db, cycles, key, false))
    && (row.Some? && tried.Some? ==>
          && row.value.deliveryCount == TimesTried(db, cycles, key, true)
          && row.value.deliveryFailures == TimesTried(db, cycles, key, false)
          && row.value.lastDeliveryAttemptAt == Some(tried.value.now)
          && row.value.lastDeliveredAt == (if reached.Some? then Some(reached.value.now) else None)
          && Active(tried.value.alerts, key.alertKind)
          && row.value.fingerprint == FingerprintOf(tried.value.alerts, key.alertKind)
          && row.value.lastDeliveryError
             == (match tried.value.answer(key) case None => None case Some(error) => Some(Shortened(error))))
  }

  lemma TryIsRecorded(db: Tables, c: Cycle, key: TargetKey)
    requires WellFormed(c)
    ensures var row, before := Lookup(AfterCycle(db, c).db.targets, key), Lookup(db.targets, key);
            if Tries(db, c, key) then
              && row.Some? && row.value.resolvedAt.None?
              && row.value.fingerprint == FingerprintOf(c.alerts, key.alertKind)
              && row.value.lastDeliveryAttemptAt == Some(c.now)
              && row.value.deliveryCount
                 == (if before.Some? then before.value.deliveryCount else 0) + (if c.answer(key).None? then 1 else 0)
              && row.value.deliveryFailures
                 == (if before.Some? then before.value.deliveryFailures else 0) + (if c.answer(key).None? then 0 else 1)
              && row.value.lastDeliveredAt
                 == (if c.answer(key).None? then Some(c.now)
                     else if before.Some? then before.value.lastDeliveredAt else None)
              && row.value.lastDeliveryError
                 == (match c.answer(key) case None => None case Some(error) => Some(Shortened(error)))
            else
              (row.Some? <==> before.Some?)
              && (row.Some? ==> row.value == before.value.(resolvedAt := row.value.resolvedAt))
  {
    TargetAfterCycle(db, c, key);
  }

  /** Over every run of cycles from empty tables. */
  lemma {:induction false} TargetRemembersItsHistory(cycles: seq<Cycle>, key: TargetKey)
    requires forall c :: c in cycles ==> WellFormed(c)
    ensures var empty := Tables(map[], map[]);
            TellsHistory(Lookup(Run(empty, cycles).targets, key), empty, cycles, key)
  {
    var empty := Tables(map[], map[]);
    if cycles != [] {
      TargetRemembersItsHistory(cycles[..|cycles| - 1], key);
      TryIsRecorded(Run(empty, cycles[..|cycles| - 1]), cycles[|cycles| - 1], key);
    }
  }

  // ---------------------------------------------------------------- deliveries are a cooldown apart

  predicate ActiveAs(c: Cycle, key: TargetKey, fingerprint: string) {
    Active(c.alerts, key.alertKind) && FingerprintOf(c.alerts, key.alertKind) == fingerprint
  }

  /** The cycle tries to tell the target of its alert. */
  predicate Tries(db: Tables, c: Cycle, key: TargetKey) {
    && Active(c.alerts, key.alertKind) && key.targetKey in c.targets
    && ShouldSend(Lookup(db.targets, key), FingerprintOf(c.alerts, key.alertKind), c.now, c.cooldown)
  }

  predicate Delivers(db: Tables, c: Cycle, key: TargetKey) { Tries(db, c, key) && c.answer(key).None? }

  /** The target was last told of the alert as it is at time at, or a cooldown or more after it. */
  predicate ToldSince(db: Tables, key: TargetKey, fingerprint: string, at: int, cooldown: int) {
    && key in db.targets && db.targets[key].resolvedAt.None? && db.targets[key].fingerprint == fingerprint
    && db.targets[key].lastDeliveredAt.Some?
    && (db.targets[key].lastDeliveredAt.value == at || db.targets[key].lastDeliveredAt.value >= at + cooldown)
  }

  lemma CycleKeepsTold(db: Tables, c: Cycle, key: TargetKey, fingerprint: string, at: int)
    requires WellFormed(c) && ActiveAs(c, key, fingerprint) && ToldSince(db, key, fingerprint, at, c.cooldown)
    ensures ToldSince(AfterCycle(db, c).db, key, fingerprint, at, c.cooldown)
    ensures Tries(db, c, key) ==> c.now >= at + c.cooldown
  {
    TargetAfterCycle(db, c, key);
  }

  lemma DeliveryTells(db: Tables, c: Cycle, key: TargetKey)
    requires WellFormed(c) && Delivers(db, c, key)
    ensures ToldSince(AfterCycle(db, c).db, key, FingerprintOf(c.alerts, key.alertKind), c.now, c.cooldown)
  {
    TargetAfterCycle(db, c, key);
  }

  /** The alert is active with this fingerprint in every cycle of the run, and the cooldown stays the same. */
  ghost predicate StaysActive(cycles: seq<Cycle>, key: TargetKey, fingerprint: string, cooldown: int) {
    forall c :: c in cycles ==> WellFormed(c) && ActiveAs(c, key, fingerprint) && c.cooldown == cooldown
  }

  lemma {:induction false} StillTold(
    db: Tables, cycles: seq<Cycle>, key: TargetKey, fingerprint: string, at: int, cooldown: int)
    requires StaysActive(cycles, key, fingerprint, cooldown) && ToldSince(db, key, fingerprint, at, cooldown)
    ensures ToldSince(Run(db, cycles), key, fingerprint, at, cooldown)
  {
    if cycles != [] {
      StillTold(db, cycles[..|cycles| - 1], key, fingerprint, at, cooldown);
      CycleKeepsTold(Run(db, cycles[..|cycles| - 1]), cycles[|cycles| - 1], key, fingerprint, at);
    }
  }

  /** A target that was told of an alert hears nothing more of it, not even a failing attempt, until a
      cooldown later, as long as the alert stays active unchanged; whatever fails and however clocks and
      configured targets change in between. */
  lemma DeliveriesAreACooldownApart(db: Tables, first: Cycle, between: seq<Cycle>, last: Cycle, key: TargetKey)
    requires WellFormed(first) && Delivers(db, first, key)
    requires StaysActive(between + [last], key, FingerprintOf(first.alerts, key.alertKind), first.cooldown)
    requires Tries(Run(AfterCycle(db, first).db, between), last, key)
    ensures last.now >= first.now + first.cooldown
  {
    var fingerprint := FingerprintOf(first.alerts, key.alertKind);
    assert forall c :: c in between ==> c in between + [last];
    assert last in between + [last];
    DeliveryTells(db, first, key);
    StillTold(AfterCycle(db, first).db, between, key, fingerprint, first.now, first.cooldown);
    CycleKeepsTold(Run(AfterCycle(db, first).db, between), last, key, fingerprint, first.now);
  }

  // ---------------------------------------------------------------- when a failed delivery is tried again

  /** After a failed attempt, the next cycle that finds the alert unchanged tries again exactly when the
      target had never been told of anything, or a cooldown has passed since it last was: of whatever
      fingerprint, and even if the alert had been resolved in between. */
  lemma FailedDeliveryIsRetriedExactlyAfterOldCooldown(db: Tables, c: Cycle, next: Cycle, key: TargetKey)
    requires WellFormed(c) && WellFormed(next) && Tries(db, c, key) && c.answer(key).Some?
    requires ActiveAs(next, key, FingerprintOf(c.alerts, key.alertKind)) && key.targetKey in next.targets
    ensures var told := if key in db.targets then db.targets[key].lastDeliveredAt else None;
            Tries(AfterCycle(db, c).db, next, key) <==> told.None? || next.now - told.value >= next.cooldown
  {
    TargetAfterCycle(db, c, key);
  }

  const KEY: TargetKey := TargetKey(0, 0)

  /** A cycle with one alert and one target, under the default cooldown of 15 minutes. */
  function OneAlert(fingerprint: string, error: Option<string>, now: int): Cycle {
    Cycle([Alert(0, fingerprint)], [0], (key: TargetKey) => error, now, 900000)
  }

  lemma OneAlertIs(fingerprint: string, error: Option<string>, now: int)
    ensures WellFormed(OneAlert(fingerprint, error, now))
        && ActiveAs(OneAlert(fingerprint, error, now), KEY, fingerprint)
  {
    assert OneAlert(fingerprint, error, now).alerts[0].kind == 0;
  }

  lemma FirstDelivery(fingerprint: string, now: int)
    ensures var empty, c := Tables(map[], map[]), OneAlert(fingerprint, None, now);
            && Delivers(empty, c, KEY)
            && Lookup(AfterCycle(empty, c).db.targets, KEY)
               == Some(TargetState(fingerprint, None, Some(now), Some(now), 1, 0, None))
  {
    OneAlertIs(fingerprint, None, now);
    TargetAfterCycle(Tables(map[], map[]), OneAlert(fingerprint, None, now), KEY);
  }

  lemma ChangeIsHeldBack(db: Tables, second: Cycle, third: Cycle)
    requires WellFormed(second) && WellFormed(third) && ActiveAs(second, KEY, "worse") && ActiveAs(third, KEY, "worse")
    requires second.targets == [0] == third.targets && second.answer(KEY).Some? && third.now == 120000
        && third.cooldown == 900000
    requires Lookup(db.targets, KEY) == Some(TargetState("down", None, Some(0), Some(0), 1, 0, None))
    ensures Tries(db, second, KEY) && !Tries(AfterCycle(db, second).db, third, KEY)
  {
    FailedDeliveryIsRetriedExactlyAfterOldCooldown(db, second, third, KEY);
  }

  /** So a changed alert whose first delivery fails is not delivered in the next cycle, although its target has
      not heard of it: it was told at minute 0, failed at minute 1, and the retry at minute 2 is withheld. */
  lemma ChangedAlertIsHeldBack()
    ensures var first, second, third := OneAlert("down", None, 0), OneAlert("worse", Some("timeout"), 60000),
        OneAlert("worse", None, 120000);
            && Delivers(Tables(map[], map[]), first, KEY)
            && var told := AfterCycle(Tables(map[], map[]), first).db;
               Tries(told, second, KEY) && !Tries(AfterCycle(told, second).db, third, KEY)
  {
    FirstDelivery("down", 0);
    OneAlertIs("worse", Some("timeout"), 60000);
    OneAlertIs("worse", None, 120000);
    ChangeIsHeldBack(AfterCycle(Tables(map[], map[]), OneAlert("down", None, 0)).db,
                     OneAlert("worse", Some("timeout"), 60000), OneAlert("worse", None, 120000));
  }
}
