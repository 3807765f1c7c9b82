/** Delivering operational alerts to webhook targets (operational-alert-delivery.service.ts). */
module AlertDelivery {
  import opened Common

  type Kind = nat
  type Target = nat

  /** An active alert; two alerts say the same exactly when their fingerprints agree. */
  datatype Alert = Alert(kind: Kind, fingerprint: string)

  datatype AlertState = AlertState(
    fingerprint: string,
    firstObservedAt: int,
    lastObservedAt: int,
    resolvedAt: Option<int>,
    lastDeliveredAt: Option<int>,
    lastDeliveryAttemptAt: Option<int>,
    deliveryCount: int,
    deliveryFailures: int,
    lastDeliveryError: Option<string>)

  datatype TargetKey = TargetKey(alertKind: Kind, targetKey: Target)

  datatype TargetState = TargetState(
    fingerprint: string,
    resolvedAt: Option<int>,
    lastDeliveredAt: Option<int>,
    lastDeliveryAttemptAt: Option<int>,
    deliveryCount: int,
    deliveryFailures: int,
    lastDeliveryError: Option<string>)

  datatype Tables = Tables(alerts: map<Kind, AlertState>, targets: map<TargetKey, TargetState>)

  /** One cycle's surroundings; answer says what a delivery runs into, if anything. */
  datatype Cycle = Cycle(alerts: seq<Alert>, targets: seq<Target>, answer: TargetKey -> Option<string>, now: int,
      cooldown: int)

  function Lookup<K, V>(m: map<K, V>, k: K): Option<V> { if k in m then Some(m[k]) else None }

  // ---------------------------------------------------------------- decisions

  /** shouldSendNotification */
  predicate ShouldSend(state: Option<TargetState>, fingerprint: string, now: int, cooldown: int) {
    || state.None?
    || state.value.resolvedAt.Some?
    || state.value.fingerprint != fingerprint
    || state.value.lastDeliveredAt.None?
    || now - state.value.lastDeliveredAt.value >= cooldown
  }

  /** resolveFirstObservedAt */
  function FirstObservedAt(state: Option<AlertState>, fingerprint: string, now: int): int {
    if state.None? || state.value.resolvedAt.Some? || state.value.fingerprint != fingerprint then now
    else state.value.firstObservedAt
  }

  // ---------------------------------------------------------------- row updates

  /** upsertObservedState; current is the row as it is, loaded the row as it was read. */
  function Observed(
    current: Option<AlertState>, loaded: Option<AlertState>, fingerprint: string, now: int): AlertState {
    var first := FirstObservedAt(loaded, fingerprint, now);
    if current.None? then AlertState(fingerprint, first, now, None, None, None, 0, 0, None)
    else current.value.(fingerprint := fingerprint, firstObservedAt := first, lastObservedAt := now, resolvedAt := None)
  }

  /** markDeliverySuccess and markDeliveryFailure */
  function AlertTried(row: AlertState, error: Option<string>, now: int): AlertState {
    if error.None? then
      row.(lastDeliveredAt := Some(now), lastDeliveryAttemptAt := Some(now), lastDeliveryError := None,
          deliveryCount := row.deliveryCount + 1)
    else
      row.(lastDeliveryAttemptAt := Some(now), deliveryFailures := row.deliveryFailures + 1,
           lastDeliveryError := Some(Shortened(error.value)))
  }

  /** markTargetDeliverySuccess and markTargetDeliveryFailure: a failure keeps the time of the last delivery. */
  function TargetTried(row: Option<TargetState>, fingerprint: string, error: Option<string>, now: int): TargetState {
    if row.None? then
      if error.None? then TargetState(fingerprint, None, Some(now), Some(now), 1, 0, None)
      else TargetState(fingerprint, None, None, Some(now), 0, 1, Some(Shortened(error.value)))
    else
      var r := row.value;
      if error.None? then
        r.(fingerprint := fingerprint, resolvedAt := None, lastDeliveredAt := Some(now),
            lastDeliveryAttemptAt := Some(now),
           lastDeliveryError := None, deliveryCount := r.deliveryCount + 1)
      else
        r.(fingerprint := fingerprint, resolvedAt := None, lastDeliveryAttemptAt := Some(now),
           deliveryFailures := r.deliveryFailures + 1, lastDeliveryError := Some(Shortened(error.value)))
  }

  /** When the next notification of the same alert is due after an attempt: a cooldown after it if it was delivered,
      otherwise a cooldown after the delivery before it, or at once if there was none. */
  lemma NextSendAfterAttempt(
    row: Option<TargetState>, fingerprint: string, error: Option<string>, now: int, t: int, cooldown: int)
    ensures var told := if error.None? then Some(now) else if row.Some? then row.value.lastDeliveredAt else None;
            ShouldSend(Some(TargetTried(row, fingerprint, error, now)), fingerprint, t, cooldown)
            <==> told.None? || t - told.value >= cooldown
  {
  }

  // ---------------------------------------------------------------- a cycle

  function Kinds(alerts: seq<Alert>): set<Kind> { set a | a in alerts :: a.kind }

  /** loadRelevantStates and loadRelevantTargetStates */
  function Relevant(db: Tables, c: Cycle): Tables {
    var active := Kinds(c.alerts);
    Tables(map k | k in db.alerts && (db.alerts[k].resolvedAt.None? || k in active) :: db.alerts[k],
           map k | k in db.targets
               && (db.targets[k].resolvedAt.None? || k.alertKind in active || k.targetKey in c.targets) ::
               db.targets[k])
  }

  datatype Progress = Progress(db: Tables, delivered: nat, failed: nat)

  function Tried(p: Progress, key: TargetKey, fingerprint: string, c: Cycle): Progress
    requires key.alertKind in p.db.alerts
  {
    var error := c.answer(key);
    Progress(
      Tables(p.db.alerts[key.alertKind := AlertTried(p.db.alerts[key.alertKind], error, c.now)],
             p.db.targets[key := TargetTried(Lookup(p.db.targets, key), fingerprint, error, c.now)]),
      p.delivered + (if error.None? then 1 else 0),
      p.failed + (if error.None? then 0 else 1))
  }

  /** The alert offered to targets one after the other, deciding by the rows as they were loaded. */
  function Offered(
    p: Progress, loaded: map<TargetKey, TargetState>, alert: Alert, targets: seq<Target>, c: Cycle): (r: Progress)
    requires alert.kind in p.db.alerts
    ensures r.db.alerts.Keys == p.db.alerts.Keys
  {
    if targets == [] then p
    else OfferedOne(Offered(p, loaded, alert, targets[..|targets| - 1], c), loaded, alert, targets[|targets| - 1], c)
  }

  function OfferedOne(
    p: Progress, loaded: map<TargetKey, TargetState>, alert: Alert, target: Target, c: Cycle): Progress
    requires alert.kind in p.db.alerts
  {
    var key := TargetKey(alert.kind, target);
    if ShouldSend(Lookup(loaded, key), alert.fingerprint, c.now, c.cooldown)
        then Tried(p, key, alert.fingerprint, c) else p
  }

  function Synced(p: Progress, loaded: Tables, alerts: seq<Alert>, c: Cycle): Progress {
    if alerts == [] then p
    else SyncedOne(Synced(p, loaded, alerts[..|alerts| - 1], c), loaded, alerts[|alerts| - 1], c)
  }

  function SyncedOne(p: Progress, loaded: Tables, alert: Alert, c: Cycle): Progress {
    Offered(p.(db := WithObserved(p.db, loaded, alert, c)), loaded.targets, alert, c.targets, c)
  }

  function WithObserved(db: Tables, loaded: Tables, alert: Alert, c: Cycle): Tables {
    db.(alerts := db.alerts[alert.kind :=
      Observed(Lookup(db.alerts, alert.kind), Lookup(loaded.alerts, alert.kind), alert.fingerprint, c.now)])
  }

  /** The kinds whose alerts have cleared */
  function Cleared(loaded: map<Kind, AlertState>, active: set<Kind>): set<Kind> {
    set k | k in loaded && loaded[k].resolvedAt.None? && k !in active
  }

  function Resolved(db: Tables, kinds: set<Kind>, now: int): Tables {
    Tables(map k | k in db.alerts :: if k in kinds then db.alerts[k].(resolvedAt := Some(now)) else db.alerts[k],
           map k | k in db.targets ::
             if k.alertKind in kinds && db.targets[k].resolvedAt.None? then db.targets[k].(resolvedAt := Some(now))
                 else db.targets[k])
  }

  /** syncOperationalAlerts */
  function AfterCycle(db: Tables, c: Cycle): Progress {
    var loaded := Relevant(db, c);
    var synced := Synced(Progress(db, 0, 0), loaded, c.alerts, c);
    synced.(db := Resolved(synced.db, Cleared(loaded.alerts, Kinds(c.alerts)), c.now))
  }

  class OperationalAlertDelivery {
    var alertStates: map<Kind, AlertState>
    var targetStates: map<TargetKey, TargetState>

    function Db(): Tables
      reads this
    {
      Tables(alertStates, targetStates)
    }

    constructor ()
      ensures Db() == Tables(map[], map[])
    {
      alertStates, targetStates := map[], map[];
    }

    method Deliver(key: TargetKey, fingerprint: string, c: Cycle) returns (ok: bool)
      requires key.alertKind in alertStates
      modifies this
      ensures Db() == Tried(Progress(old(Db()), 0, 0), key, fingerprint, c).db
      ensures ok <==> c.answer(key).None?
      ensures key in targetStates && (ok ==> forall t :: ShouldSend(Some(targetStates[key]), fingerprint, t, c.cooldown)
                                                         <==> t - c.now >= c.cooldown)
      ensures forall k :: k in old(targetStates) && k != key ==>
          k in targetStates && targetStates[k] == old(targetStates[k])
    {
      var error := c.answer(key);
      ok := error.None?;
      alertStates := alertStates[key.alertKind := AlertTried(alertStates[key.alertKind], error, c.now)];
      targetStates := targetStates[key := TargetTried(Lookup(targetStates, key), fingerprint, error, c.now)];
    }

    method OfferToTarget(
      alert: Alert, target: Target, loaded: map<TargetKey, TargetState>, c: Cycle, alreadyDelivered: nat,
          alreadyFailed: nat)
      returns (delivered: nat, failed: nat)
      requires alert.kind in alertStates
      modifies this
      ensures Progress(Db(), delivered, failed)
           == OfferedOne(Progress(old(Db()), alreadyDelivered, alreadyFailed), loaded, alert, target, c)
    {
      delivered, failed := alreadyDelivered, alreadyFailed;
      var key := TargetKey(alert.kind, target);
      if ShouldSend(Lookup(loaded, key), alert.fingerprint, c.now, c.cooldown) {
        var ok := Deliver(key, alert.fingerprint, c);
        if ok {
          delivered := delivered + 1;
        } else {
          failed := failed + 1;
        }
      }
    }

    method OfferToTargets(
      alert: Alert, loaded: map<TargetKey, TargetState>, c: Cycle, alreadyDelivered: nat, alreadyFailed: nat)
      returns (delivered: nat, failed: nat)
      requires alert.kind in alertStates
      modifies this
      ensures Progress(Db(), delivered, failed)
           == Offered(Progress(old(Db()), alreadyDelivered, alreadyFailed), loaded, alert, c.targets, c)
    {
      delivered, failed := alreadyDelivered, alreadyFailed;
      ghost var start := Progress(Db(), delivered, failed);
      for i := 0 to |c.targets|
        invariant alert.kind in alertStates
        invariant Progress(Db(), delivered, failed) == Offered(start, loaded, alert, c.targets[..i], c)
      {
        assert c.targets[..i + 1][..i] == c.targets[..i];
        delivered, failed := OfferToTarget(alert, c.targets[i], loaded, c, delivered, failed);
      }
      assert c.targets[..|c.targets|] == c.targets;
    }

    method ResolveKind(kind: Kind, now: int, ghost start: Tables, ghost done: set<Kind>)
      requires Db() == Resolved(start, done, now)
      modifies this
      ensures Db() == Resolved(start, done + {kind}, now)
    {
      ghost var before := Db();
      if kind in alertStates {
        alertStates := alertStates[kind := alertStates[kind].(resolvedAt := Some(now))];
      }
      targetStates := map k | k in targetStates ::
        if k.alertKind == kind && targetStates[k].resolvedAt.None? then targetStates[k].(resolvedAt := Some(now))
            else targetStates[k];
      ResolvedOneMore(start, before, Db(), done, kind, now);
    }

    /** resolveClearedAlerts; the rows come in no particular order. */
    method ResolveClearedAlerts(loaded: map<Kind, AlertState>, active: set<Kind>, now: int) returns (resolved: nat)
      modifies this
      ensures Db() == Resolved(old(Db()), Cleared(loaded, active), now)
      ensures resolved == |Cleared(loaded, active)|
    {
      resolved := 0;
      ghost var start, done := Db(), {};
      ResolvingNothing(start, now);
      var rows := loaded.Keys;
      while rows != {}
        invariant rows <= loaded.Keys
        invariant done == Cleared(loaded, active) - rows
        invariant Db() == Resolved(start, done, now) && resolved == |done|
        decreases |rows|
      {
        var kind :| kind in rows;
        rows := rows - {kind};
        if loaded[kind].resolvedAt.None? && kind !in active {
          ResolveKind(kind, now, start, done);
          done := done + {kind};
          resolved := resolved + 1;
        }
      }
      assert done == Cleared(loaded, active);
    }

    method SyncAlert(alert: Alert, loaded: Tables, c: Cycle, alreadyDelivered: nat, alreadyFailed: nat)
      returns (delivered: nat, failed: nat)
      modifies this
      ensures Progress(Db(), delivered, failed)
           == SyncedOne(Progress(old(Db()), alreadyDelivered, alreadyFailed), loaded, alert, c)
    {
      alertStates := alertStates[alert.kind :=
        Observed(Lookup(alertStates, alert.kind), Lookup(loaded.alerts, alert.kind), alert.fingerprint, c.now)];
      delivered, failed := OfferToTargets(alert, loaded.targets, c, alreadyDelivered, alreadyFailed);
    }

    method SyncAlerts(loaded: Tables, c: Cycle) returns (delivered: nat, failed: nat)
      modifies this
      ensures Progress(Db(), delivered, failed) == Synced(Progress(old(Db()), 0, 0), loaded, c.alerts, c)
    {
      ghost var start := Progress(Db(), 0, 0);
      delivered, failed := 0, 0;
      for i := 0 to |c.alerts|
        invariant Progress(Db(), delivered, failed) == Synced(start, loaded, c.alerts[..i], c)
      {
        assert c.alerts[..i + 1][..i] == c.alerts[..i];
        delivered, failed := SyncAlert(c.alerts[i], loaded, c, delivered, failed);
      }
      assert c.alerts[..|c.alerts|] == c.alerts;
    }

    method SyncOperationalAlerts(c: Cycle) returns (delivered: nat, failed: nat, resolved: nat)
      modifies this
      ensures Progress(Db(), delivered, failed) == AfterCycle(old(Db()), c)
      ensures resolved == |Cleared(old(alertStates), Kinds(c.alerts))|
    {
      var loaded := Relevant(Db(), c);
      delivered, failed := SyncAlerts(loaded, c);
      resolved := ResolveClearedAlerts(loaded.alerts, Kinds(c.alerts), c.now);
      assert Cleared(loaded.alerts, Kinds(c.alerts)) == Cleared(old(alertStates), Kinds(c.alerts));
    }
  }

  lemma ResolvingNothing(db: Tables, now: int)
    ensures Resolved(db, {}, now) == db
  {
    assert Resolved(db, {}, now).alerts == db.alerts;
  }

  lemma ResolvedOneMore(start: Tables, before: Tables, after: Tables, done: set<Kind>, kind: Kind, now: int)
    requires before == Resolved(start, done, now)
    requires after.alerts == if kind in before.alerts
        then before.alerts[kind := before.alerts[kind].(resolvedAt := Some(now))] else before.alerts
    requires after.targets == map k | k in before.targets ::
               if k.alertKind == kind && before.targets[k].resolvedAt.None?
                   then before.targets[k].(resolvedAt := Some(now)) else before.targets[k]
    ensures after == Resolved(start, done + {kind}, now)
  {
    var both := Resolved(start, done + {kind}, now);
    assert after.alerts == both.alerts;
    assert after.targets == both.targets;
  }
}
