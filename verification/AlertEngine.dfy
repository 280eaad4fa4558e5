/**
 * The alert engine of internal/alert/engine.go: an in-memory map of active alerts
 * beside the alert store, with dedup, severity raise, recovery and entity removal.
 *
 * Each call is one atomic step. The functions compute the state a call leaves; the
 * class runs the same calls in place. Every store call may fail: `Faults` says which.
 */
module AlertEngine {
  import opened Collections

  const LOCAL_AGENT := "00000000-0000-0000-0000-000000000000"

  const INFO := "info"
  const WARNING := "warning"
  const CRITICAL := "critical"

  datatype Key = Key(source: string, alertType: string, entityType: string, entityId: string)

  /** `details` is the JSON text the engine stores, "{}" when the event carries none. */
  datatype Event = Event(key: Key, severity: string, isRecover: bool, message: string, entityName: string,
                         agentId: string, details: string, timestamp: int)

  datatype Status = Active | Resolved | Silenced

  datatype Alert = Alert(id: nat, key: Key, severity: string, status: Status, message: string, entityName: string,
                         agentId: string, details: string, firedAt: int, resolvedAt: Option<int>,
                         resolvedBy: Option<nat>, ackAt: Option<int>, ackBy: string)

  datatype State = State(active: map<Key, Alert>, store: map<nat, Alert>, next: nat)

  datatype Faults = Faults(insert: bool, update: bool, get: bool)

  const NO_FAULTS := Faults(false, false, false)
  const EMPTY_STATE := State(map[], map[], 0)

  function Rank(severity: string): (r: int)
    ensures -1 <= r <= 2
  {
    if severity == INFO then 0 else if severity == WARNING then 1 else if severity == CRITICAL then 2 else -1
  }

  function AgentOf(id: string): (r: string) {
    if id == "" then LOCAL_AGENT else id
  }

  // ---------------------------------------------------------------- one call

  function Opened(id: nat, evt: Event, silenced: bool): (a: Alert) {
    Alert(id, evt.key, evt.severity, if silenced then Silenced else Active, evt.message, evt.entityName,
          AgentOf(evt.agentId), evt.details, evt.timestamp, None, None, None, "")
  }

  /** The record an escalation leaves: every field of the escalating event, none of the earlier one's. */
  function Raised(a: Alert, evt: Event): (r: Alert) {
    a.(severity := evt.severity, message := evt.message, entityName := evt.entityName, details := evt.details)
  }

  /** escalateAlert works on the map's own record, so that changes even when the store refuses. */
  function Escalated(s: State, evt: Event, f: Faults): (r: State)
    requires evt.key in s.active
  {
    var mem := Raised(s.active[evt.key], evt);
    if f.update then s.(active := s.active[evt.key := mem])
    else
      var store := if mem.id in s.store then s.store[mem.id := Raised(s.store[mem.id], evt)] else s.store;
      var known := if f.get || mem.id !in store then mem
                   else mem.(ackAt := store[mem.id].ackAt, ackBy := store[mem.id].ackBy);
      s.(active := s.active[evt.key := known], store := store)
  }

  function Fired(s: State, evt: Event, silenced: bool, f: Faults): (r: State) {
    if evt.key in s.active then
      if Rank(s.active[evt.key].severity) < Rank(evt.severity) then Escalated(s, evt, f) else s
    else if f.insert then s
    else
      var a := Opened(s.next, evt, silenced);
      State(if silenced then s.active else s.active[evt.key := a], s.store[s.next := a], s.next + 1)
  }

  function Closed(a: Alert, at: int, closer: Option<nat>): (r: Alert) {
    a.(status := Resolved, resolvedAt := Some(at), resolvedBy := closer)
  }

  function CloseIn(store: map<nat, Alert>, id: nat, at: int, closer: Option<nat>): (r: map<nat, Alert>) {
    if id in store then store[id := Closed(store[id], at, closer)] else store
  }

  function Recovered(s: State, evt: Event, f: Faults): (r: State) {
    if evt.key !in s.active then s
    else
      var a, rest := s.active[evt.key], s.active - {evt.key};
      if f.insert then s.(active := rest)
      else
        var record := Opened(s.next, evt, false).(status := Resolved, agentId := a.agentId);
        var store := s.store[s.next := record];
        State(rest, if f.update then store else CloseIn(store, a.id, evt.timestamp, Some(s.next)), s.next + 1)
  }

  function Processed(s: State, evt: Event, silenced: bool, f: Faults): (r: State) {
    if evt.isRecover then Recovered(s, evt, f) else Fired(s, evt, silenced, f)
  }

  predicate OfEntity(k: Key, entityType: string, entityId: string) {
    k.entityType == entityType && k.entityId == entityId
  }

  /** The ids a removal of the entity resolves in the store; those in `failing` stay as they are. */
  function ToClose(s: State, entityType: string, entityId: string, failing: set<nat>): (r: set<nat>) {
    set k | k in s.active && OfEntity(k, entityType, entityId) && s.active[k].id !in failing :: s.active[k].id
  }

  function EntityResolved(s: State, entityType: string, entityId: string, at: int, failing: set<nat>): (r: State) {
    var ids := ToClose(s, entityType, entityId, failing);
    s.(active := map k | k in s.active && !OfEntity(k, entityType, entityId) :: s.active[k],
       store := map id | id in s.store :: if id in ids then Closed(s.store[id], at, None) else s.store[id])
  }

  function Acknowledged(s: State, id: nat, who: string, at: int): (r: State) {
    if id in s.store && s.store[id].status.Active? && s.store[id].ackAt.None?
    then s.(store := s.store[id := s.store[id].(ackAt := Some(at), ackBy := who)])
    else s
  }

  /** Reload: the rows in the order the store lists them, a later row of the same key replacing an earlier one. */
  function Indexed(store: map<nat, Alert>, listed: seq<nat>): (r: map<Key, Alert>)
    requires forall i :: i in listed ==> i in store
  {
    if listed == [] then map[]
    else
      var a := store[listed[|listed| - 1]];
      Indexed(store, listed[..|listed| - 1])[a.key := a]
  }

  ghost predicate ListsActive(store: map<nat, Alert>, listed: seq<nat>) {
    forall i :: i in listed <==> i in store && store[i].status.Active?
  }

  // ---------------------------------------------------------------- runs

  /** A restart that cannot read the store starts with an empty map. */
  datatype Op =
    | Process(evt: Event, silenced: bool, f: Faults)
    | Resolve(entityType: string, entityId: string, at: int, failing: set<nat>)
    | Acknowledge(id: nat, who: string, ackTime: int)
    | Restart(listed: seq<nat>)
    | BlindRestart
    | Prune(ids: set<nat>)

  ghost predicate Enabled(s: State, op: Op) {
    match op
    case Restart(listed) => ListsActive(s.store, listed)
    case Prune(ids) => forall i :: i in ids && i in s.store ==> !s.store[i].status.Active?
    case _ => true
  }

  ghost function Apply(s: State, op: Op): (r: State)
    requires Enabled(s, op)
  {
    match op
    case Process(evt, silenced, f) => Processed(s, evt, silenced, f)
    case Resolve(t, i, at, failing) => EntityResolved(s, t, i, at, failing)
    case Acknowledge(id, who, at) => Acknowledged(s, id, who, at)
    case Restart(listed) => s.(active := Indexed(s.store, listed))
    case BlindRestart => s.(active := map[])
    case Prune(ids) => s.(store := s.store - ids)
  }

  ghost predicate Faultless(op: Op) {
    (op.Process? ==> op.f == NO_FAULTS) && (op.Resolve? ==> op.failing == {}) && !op.BlindRestart?
  }

  ghost predicate Path(s: State, ops: seq<Op>, t: State)
    decreases |ops|
  {
    if ops == [] then t == s
    else Enabled(s, ops[0]) && Path(Apply(s, ops[0]), ops[1..], t)
  }

  // ---------------------------------------------------------------- invariants

  /** Every entry of the map names an alert the store holds active under the same key. */
  ghost predicate NamesActive(s: State) {
    && (forall i :: i in s.store ==> s.store[i].id == i && i < s.next)
    && (forall k :: k in s.active ==>
          && s.active[k].key == k && s.active[k].status.Active?
          && s.active[k].id in s.store && s.store[s.active[k].id].key == k && s.store[s.active[k].id].status.Active?)
  }

  /** The same alert; the map does not learn of an acknowledgement before the next escalation or restart. */
  ghost predicate SameButAck(a: Alert, b: Alert) {
    a == b.(ackAt := a.ackAt, ackBy := a.ackBy)
  }

  /** The map is exactly the store's active alerts, so no two of those share a key. */
  ghost predicate MirrorsStore(s: State) {
    && NamesActive(s)
    && (forall k :: k in s.active ==> SameButAck(s.active[k], s.store[s.active[k].id]))
    && (forall i :: i in s.store && s.store[i].status.Active? ==>
         s.store[i].key in s.active && s.active[s.store[i].key].id == i)
  }

  lemma {:induction false} IndexedNames(store: map<nat, Alert>, listed: seq<nat>)
    requires forall i :: i in listed ==> i in store
    ensures forall k :: k in Indexed(store, listed) ==>
              Indexed(store, listed)[k].key == k && exists i :: i in listed && Indexed(store, listed)[k] == store[i]
    ensures forall i :: i in listed ==> store[i].key in Indexed(store, listed)
  {
    if listed != [] {
      var n := |listed| - 1;
      IndexedNames(store, listed[..n]);
      assert listed == listed[..n] + [listed[n]];
      var before, a := Indexed(store, listed[..n]), store[listed[n]];
      forall k | k in Indexed(store, listed)
        ensures Indexed(store, listed)[k].key == k && exists i :: i in listed && Indexed(store, listed)[k] == store[i]
      {
        if k == a.key {
          assert listed[n] in listed;
        } else {
          var i :| i in listed[..n] && before[k] == store[i];
          assert i in listed;
        }
      }
    }
  }

  lemma EscalatedNames(s: State, evt: Event, f: Faults)
    requires NamesActive(s) && evt.key in s.active
    ensures NamesActive(Escalated(s, evt, f))
  {
  }

  lemma RecoveredNames(s: State, evt: Event, f: Faults)
    requires NamesActive(s)
    ensures NamesActive(Recovered(s, evt, f))
  {
  }

  lemma ProcessedNames(s: State, evt: Event, silenced: bool, f: Faults)
    requires NamesActive(s)
    ensures NamesActive(Processed(s, evt, silenced, f))
  {
    if evt.isRecover {
      RecoveredNames(s, evt, f);
    } else if evt.key in s.active {
      EscalatedNames(s, evt, f);
    }
  }

  lemma NamesActiveStep(s: State, op: Op)
    requires NamesActive(s) && Enabled(s, op)
    ensures NamesActive(Apply(s, op))
  {
    match op {
      case Process(evt, silenced, f) => ProcessedNames(s, evt, silenced, f);
      case Restart(listed) => IndexedNames(s.store, listed);
      case Resolve(t, i, at, failing) => EntityNames(s, t, i, at, failing);
      case _ =>
    }
  }

  lemma EntityNames(s: State, entityType: string, entityId: string, at: int, failing: set<nat>)
    requires NamesActive(s)
    ensures NamesActive(EntityResolved(s, entityType, entityId, at, failing))
  {
    var r := EntityResolved(s, entityType, entityId, at, failing);
    forall k | k in r.active
      ensures r.store[r.active[k].id].key == k && r.store[r.active[k].id].status.Active?
    {
      assert s.active[k].id !in ToClose(s, entityType, entityId, failing);
    }
  }

  lemma EscalatedMirrors(s: State, evt: Event)
    requires MirrorsStore(s) && evt.key in s.active
    ensures MirrorsStore(Escalated(s, evt, NO_FAULTS))
  {
    EscalatedNames(s, evt, NO_FAULTS);
  }

  lemma RecoveredMirrors(s: State, evt: Event)
    requires MirrorsStore(s)
    ensures MirrorsStore(Recovered(s, evt, NO_FAULTS))
  {
    RecoveredNames(s, evt, NO_FAULTS);
  }

  lemma ProcessedMirrors(s: State, evt: Event, silenced: bool)
    requires MirrorsStore(s)
    ensures MirrorsStore(Processed(s, evt, silenced, NO_FAULTS))
  {
    if evt.isRecover {
      RecoveredMirrors(s, evt);
    } else if evt.key in s.active {
      EscalatedMirrors(s, evt);
    } else {
      ProcessedNames(s, evt, silenced, NO_FAULTS);
    }
  }

  lemma MirrorsStoreStep(s: State, op: Op)
    requires MirrorsStore(s) && Enabled(s, op) && Faultless(op)
    ensures MirrorsStore(Apply(s, op))
  {
    match op {
      case Process(evt, silenced, _) => ProcessedMirrors(s, evt, silenced);
      case Restart(listed) => IndexedNames(s.store, listed);
      case Resolve(t, i, at, _) => EntityMirrors(s, t, i, at);
      case _ =>
    }
  }

  lemma EntityMirrors(s: State, entityType: string, entityId: string, at: int)
    requires MirrorsStore(s)
    ensures MirrorsStore(EntityResolved(s, entityType, entityId, at, {}))
  {
    EntityNames(s, entityType, entityId, at, {});
    var r := EntityResolved(s, entityType, entityId, at, {});
    var ids := ToClose(s, entityType, entityId, {});
    forall k | k in r.active
      ensures SameButAck(r.active[k], r.store[r.active[k].id])
    {
      assert s.active[k].id !in ids;
    }
    forall i | i in r.store && r.store[i].status.Active?
      ensures r.store[i].key in r.active && r.active[r.store[i].key].id == i
    {
      var k := s.store[i].key;
      assert i !in ids;
    }
  }

  /** Whatever the store refuses along the way, the map never holds an alert the store has closed. */
  lemma {:induction false} EveryRunNamesActive(s: State, ops: seq<Op>, t: State)
    requires NamesActive(s) && Path(s, ops, t)
    ensures NamesActive(t)
    decreases |ops|
  {
    if ops != [] {
      NamesActiveStep(s, ops[0]);
      EveryRunNamesActive(Apply(s, ops[0]), ops[1..], t);
    }
  }

  /** Without store failures the map stays exactly the store's active alerts, one per key, across restarts too. */
  lemma {:induction false} EveryFaultlessRunMirrorsStore(s: State, ops: seq<Op>, t: State)
    requires MirrorsStore(s) && Path(s, ops, t) && forall op :: op in ops ==> Faultless(op)
    ensures MirrorsStore(t)
    ensures forall i, j :: (i in t.store && j in t.store && t.store[i].status.Active? && t.store[j].status.Active?
                            && t.store[i].key == t.store[j].key) ==> i == j
    decreases |ops|
  {
    if ops != [] {
      MirrorsStoreStep(s, ops[0]);
      EveryFaultlessRunMirrorsStore(Apply(s, ops[0]), ops[1..], t);
    }
  }

  /** The faults of one event that cost the engine its agreement with the store. */
  predicate Harmless(s: State, evt: Event, f: Faults) {
    if evt.isRecover then evt.key in s.active ==> !f.insert && !f.update
    else evt.key in s.active && Rank(s.active[evt.key].severity) < Rank(evt.severity) ==> !f.update
  }

  /** Under faults the mirror breaks exactly when a recovery loses a write or an escalation loses its update. */
  lemma MirrorSurvivesFaultsIff(s: State, evt: Event, silenced: bool, f: Faults)
    requires MirrorsStore(s)
    ensures MirrorsStore(Processed(s, evt, silenced, f)) <==> Harmless(s, evt, f)
  {
    var r := Processed(s, evt, silenced, f);
    if evt.isRecover {
      if evt.key in s.active {
        RecoveredFaults(s, evt, f);
      }
    } else if evt.key in s.active {
      if Rank(s.active[evt.key].severity) < Rank(evt.severity) {
        EscalatedFaults(s, evt, f);
      }
    } else {
      ProcessedMirrors(s, evt, silenced);
    }
  }

  lemma RecoveredFaults(s: State, evt: Event, f: Faults)
    requires MirrorsStore(s) && evt.key in s.active
    ensures MirrorsStore(Recovered(s, evt, f)) <==> !f.insert && !f.update
  {
    RecoveredMirrors(s, evt);
    var r := Recovered(s, evt, f);
    var id := s.active[evt.key].id;
    if f.insert || f.update {
      assert r.store[id].status.Active? && r.store[id].key == evt.key && evt.key !in r.active;
    }
  }

  lemma EscalatedFaults(s: State, evt: Event, f: Faults)
    requires MirrorsStore(s) && evt.key in s.active && Rank(s.active[evt.key].severity) < Rank(evt.severity)
    ensures MirrorsStore(Escalated(s, evt, f)) <==> !f.update
  {
    EscalatedNames(s, evt, f);
    EscalatedMirrors(s, evt);
    var r := Escalated(s, evt, f);
    if f.update {
      assert !SameButAck(r.active[evt.key], r.store[r.active[evt.key].id]);
    }
  }

  /** A removal whose store updates all go through. */
  ghost predicate ClosesAll(s: State, entityType: string, entityId: string, failing: set<nat>) {
    forall k :: k in s.active && OfEntity(k, entityType, entityId) ==> s.active[k].id !in failing
  }

  /** A removal that loses an update leaves its alert active in the store and out of the map. */
  lemma EntityFaults(s: State, entityType: string, entityId: string, at: int, failing: set<nat>)
    requires MirrorsStore(s)
    ensures MirrorsStore(EntityResolved(s, entityType, entityId, at, failing)) <==>
            ClosesAll(s, entityType, entityId, failing)
  {
    if ClosesAll(s, entityType, entityId, failing) {
      assert ToClose(s, entityType, entityId, failing) == ToClose(s, entityType, entityId, {});
      EntityMirrors(s, entityType, entityId, at);
    } else {
      var r := EntityResolved(s, entityType, entityId, at, failing);
      var k :| k in s.active && OfEntity(k, entityType, entityId) && s.active[k].id in failing;
      var id := s.active[k].id;
      assert id !in ToClose(s, entityType, entityId, failing);
      assert r.store[id].status.Active? && r.store[id].key == k && k !in r.active;
    }
  }

  /** The store failures an operation can afford. */
  ghost predicate Affords(s: State, op: Op) {
    match op
    case Process(evt, _, f) => Harmless(s, evt, f)
    case Resolve(t, i, _, failing) => ClosesAll(s, t, i, failing)
    case BlindRestart => s.active == map[]
    case _ => true
  }

  /**
   * Any operation, any failures: map and store stay in agreement if and only if no recovery
   * loses a write, no escalation its update, no removal one of its updates and no restart
   * the list of active alerts while there are any.
   */
  lemma MirrorSurvivesIff(s: State, op: Op)
    requires MirrorsStore(s) && Enabled(s, op)
    ensures MirrorsStore(Apply(s, op)) <==> Affords(s, op)
  {
    match op {
      case Process(evt, silenced, f) => MirrorSurvivesFaultsIff(s, evt, silenced, f);
      case Resolve(t, i, at, failing) => EntityFaults(s, t, i, at, failing);
      case BlindRestart => BlindFaults(s);
      case _ => MirrorsStoreStep(s, op);
    }
  }

  lemma BlindFaults(s: State)
    requires MirrorsStore(s)
    ensures MirrorsStore(s.(active := map[])) <==> s.active == map[]
  {
    if s.active != map[] {
      var k :| k in s.active;
      assert s.store[s.active[k].id].status.Active?;
    }
  }

  ghost predicate AffordedPath(s: State, ops: seq<Op>, t: State)
    decreases |ops|
  {
    if ops == [] then t == s
    else Enabled(s, ops[0]) && Affords(s, ops[0]) && AffordedPath(Apply(s, ops[0]), ops[1..], t)
  }

  /** So every run whose failures are affordable keeps the agreement, however many there are. */
  lemma {:induction false} EveryAffordedRunMirrorsStore(s: State, ops: seq<Op>, t: State)
    requires MirrorsStore(s) && AffordedPath(s, ops, t)
    ensures MirrorsStore(t)
    decreases |ops|
  {
    if ops != [] {
      MirrorSurvivesIff(s, ops[0]);
      EveryAffordedRunMirrorsStore(Apply(s, ops[0]), ops[1..], t);
    }
  }

  const STOPPED := Key("container", "container_down", "container", "c1")
  const FIRE := Event(STOPPED, CRITICAL, false, "stopped", "web", "", "{}", 1)
  const OPEN := Process(FIRE, false, NO_FAULTS)
  const LOST_CLOSE :=
    Process(FIRE.(severity := INFO, isRecover := true, timestamp := 2), false, Faults(false, true, false))
  const LOST_REMOVAL := Resolve("container", "c1", 2, {0})

  /** One alert and one lost update, on its recovery or on the removal of its container: only the store still holds it
      active. */
  lemma LostUpdateBreaksMirror(last: Op) returns (t: State)
    requires last == LOST_CLOSE || last == LOST_REMOVAL
    ensures Path(EMPTY_STATE, [OPEN, last], t) && !MirrorsStore(t)
    ensures STOPPED !in t.active && 0 in t.store && t.store[0].status.Active?
  {
    var s := Apply(EMPTY_STATE, OPEN);
    ProcessedMirrors(EMPTY_STATE, FIRE, false);
    assert s.active[STOPPED].id == 0;
    t := Apply(s, last);
    assert [OPEN, last][1..] == [last] && [last][1..] == [];
    assert Path(s, [last], t);
    MirrorSurvivesIff(s, last);
    if last == LOST_REMOVAL {
      assert 0 !in ToClose(s, "container", "c1", {0});
    }
  }

  // ---------------------------------------------------------------- the engine in place

  class Engine {
    var active: map<Key, Alert>
    var store: map<nat, Alert>
    var next: nat

    ghost function View(): (s: State)
      reads this
    {
      State(active, store, next)
    }

    constructor ()
      ensures View() == EMPTY_STATE
    {
      active, store, next := map[], map[], 0;
    }

    method ProcessEvent(evt: Event, silenced: bool, f: Faults)
      modifies this
      ensures View() == Processed(old(View()), evt, silenced, f)
    {
      if evt.isRecover {
        ProcessRecovery(evt, f);
        return;
      }
      if evt.key in active {
        if Rank(evt.severity) > Rank(active[evt.key].severity) {
          EscalateAlert(evt, f);
        }
        return;
      }
      if f.insert {
        return;
      }
      var a := Opened(next, evt, silenced);
      store, next := store[next := a], next + 1;
      if !silenced {
        active := active[evt.key := a];
      }
    }

    method EscalateAlert(evt: Event, f: Faults)
      requires evt.key in active
      modifies `active, `store
      ensures View() == Escalated(old(View()), evt, f)
    {
      var mem := Raised(active[evt.key], evt);
      active := active[evt.key := mem];
      if f.update {
        return;
      }
      if mem.id in store {
        store := store[mem.id := Raised(store[mem.id], evt)];
        if !f.get {
          active := active[evt.key := mem.(ackAt := store[mem.id].ackAt, ackBy := store[mem.id].ackBy)];
        }
      }
    }

    method ProcessRecovery(evt: Event, f: Faults)
      modifies this
      ensures View() == Recovered(old(View()), evt, f)
    {
      if evt.key !in active {
        return;
      }
      var a := active[evt.key];
      active := active - {evt.key};
      if f.insert {
        return;
      }
      var recovery := next;
      store := store[next := Opened(next, evt, false).(status := Resolved, agentId := a.agentId)];
      next := next + 1;
      if !f.update && a.id in store {
        store := store[a.id := Closed(store[a.id], evt.timestamp, Some(recovery))];
      }
    }

    /** The pass under the lock: the entity's alerts leave the map. */
    method Forget(entityType: string, entityId: string) returns (ids: set<nat>)
      modifies `active
      ensures active == map k | k in old(active) && !OfEntity(k, entityType, entityId) :: old(active)[k]
      ensures ids == set k | k in old(active) && OfEntity(k, entityType, entityId) :: old(active)[k].id
    {
      var todo := active.Keys;
      ids := {};
      while todo != {}
        modifies `active
        invariant todo <= old(active).Keys
        invariant active == map k | k in old(active) && (k in todo || !OfEntity(k, entityType, entityId)) ::
                  old(active)[k]
        invariant ids == set k | k in old(active) && k !in todo && OfEntity(k, entityType, entityId) ::
                  old(active)[k].id
        decreases |todo|
      {
        var k :| k in todo;
        if OfEntity(k, entityType, entityId) {
          ids := ids + {active[k].id};
          active := active - {k};
        }
        todo := todo - {k};
      }
    }

    /** The store updates after the lock, any of which may fail. */
    method CloseAll(ids: set<nat>, now: int, failing: set<nat>)
      modifies `store
      ensures store == map i | i in old(store) ::
              if i in ids - failing then Closed(old(store)[i], now, None) else old(store)[i]
    {
      var left := ids;
      while left != {}
        modifies `store
        invariant left <= ids
        invariant store == map i | i in old(store) ::
                  if i in ids - left - failing then Closed(old(store)[i], now, None) else old(store)[i]
        decreases |left|
      {
        var id :| id in left;
        if id !in failing && id in store {
          store := store[id := Closed(store[id], now, None)];
        }
        left := left - {id};
      }
    }

    method ResolveByEntity(entityType: string, entityId: string, now: int, failing: set<nat>)
      modifies `active, `store
      ensures View() == EntityResolved(old(View()), entityType, entityId, now, failing)
    {
      var ids := Forget(entityType, entityId);
      CloseAll(ids, now, failing);
      assert ids - failing == ToClose(old(View()), entityType, entityId, failing);
    }

    method AcknowledgeAlert(id: nat, who: string, at: int) returns (ok: bool)
      modifies `store
      ensures View() == Acknowledged(old(View()), id, who, at)
      ensures ok <==> id in old(store) && old(store)[id].status.Active? && old(store)[id].ackAt.None?
    {
      if id !in store || !store[id].status.Active? || store[id].ackAt.Some? {
        return false;
      }
      store := store[id := store[id].(ackAt := Some(at), ackBy := who)];
      ok := true;
    }

    /** Start: rebuild the map from what the store lists. */
    method ReloadActiveAlerts(listed: seq<nat>)
      requires forall i :: i in listed ==> i in store
      requires active == map[]
      modifies `active
      ensures View() == old(View()).(active := Indexed(store, listed))
    {
      var i := 0;
      while i < |listed|
        modifies `active
        invariant 0 <= i <= |listed|
        invariant active == Indexed(store, listed[..i])
      {
        assert listed[i] in listed;
        assert listed[..i + 1][..i] == listed[..i];
        active := active[store[listed[i]].key := store[listed[i]]];
        i := i + 1;
      }
      assert listed[..i] == listed;
    }
  }
}
