/** The container service in place: event handlers on one record, reconciliation of the local fleet. */
module Containers {
  import opened Collections
  import opened Timeline

  class Record {
    var state: CState
    var health: Option<string>
    var changedAt: int
    var ignored: bool
    var archived: bool
    var rows: seq<Transition>

    ghost function View(): (e: Entry)
      reads this
    {
      Entry(Some(Container(state, health, changedAt, ignored, archived)), rows)
    }

    constructor (c: Container, transitions: seq<Transition>)
      ensures View() == Entry(Some(c), transitions)
    {
      state, health, changedAt, ignored, archived, rows :=
        c.state, c.health, c.changedAt, c.ignored, c.archived, transitions;
    }

    method ProcessEvent(evt: Event, listed: seq<Transition>) returns (emitted: seq<Emission>)
      modifies this
      ensures View() == Processed(old(View()), evt, listed)
      ensures emitted == Emits(old(View()), evt)
    {
      emitted := [];
      match evt.action {
        case "start" => emitted := HandleStateChange(evt, Running, listed);
        case "unpause" => emitted := HandleStateChange(evt, Running, listed);
        case "pause" => emitted := HandleStateChange(evt, Paused, listed);
        case "stop" =>
          if state != Completed {
            emitted := HandleStateChange(evt, Exited, listed);
          }
        case "die" =>
          if evt.exit.Some? && IsCleanExit(evt.exit.value, evt.oomKilled) {
            emitted := HandleStateChange(evt, Completed, listed);
          } else {
            emitted := HandleStateChange(evt, Exited, listed);
          }
        case "destroy" =>
          archived := true;
          emitted := [Archived(evt.at)];
        case "health_status" => emitted := HandleHealthChange(evt, listed);
        case _ =>
      }
    }

    method HandleStateChange(evt: Event, target: CState, listed: seq<Transition>) returns (emitted: seq<Emission>)
      modifies this
      ensures View() == StateChange(old(View()), evt, target, listed)
      ensures emitted ==
              if old(ignored) || evt.replayed || target == old(state) then []
              else [StateChanged(old(state), target, evt.at)]
    {
      emitted := [];
      if ignored {
        return;
      }
      var before := state;
      if evt.replayed {
        var s, _ := TimelineAt(Container(state, health, changedAt, ignored, archived), listed);
        before := s;
      }
      if before == target {
        return;
      }
      if !evt.replayed {
        state, changedAt := target, evt.at;
      }
      rows := Upserted(rows, Transition(IdOf(evt, StateRow), before, target, None, None, evt.at));
      if !evt.replayed {
        emitted := [StateChanged(before, target, evt.at)];
      }
    }

    method HandleHealthChange(evt: Event, listed: seq<Transition>) returns (emitted: seq<Emission>)
      modifies this
      ensures View() == HealthChange(old(View()), evt, listed)
      ensures emitted == if old(ignored) || evt.replayed then [] else [HealthChanged(old(health), evt.health, evt.at)]
    {
      emitted := [];
      if ignored {
        return;
      }
      var s, before := state, health;
      if evt.replayed {
        s, before := TimelineAt(Container(state, health, changedAt, ignored, archived), listed);
        if before == Some(evt.health) {
          return;
        }
      }
      if !evt.replayed {
        health, changedAt := Some(evt.health), evt.at;
      }
      rows := Upserted(rows, Transition(IdOf(evt, HealthRow), s, s, before, Some(evt.health), evt.at));
      if !evt.replayed {
        emitted := [HealthChanged(before, evt.health, evt.at)];
      }
    }
  }

  // ---------------------------------------------------------------- the fleet

  function Get(fleet: map<string, Entry>, id: string): (e: Entry) {
    if id in fleet then fleet[id] else UNSEEN
  }

  /** The last listing of a container, which is the one the stored ones are compared to. */
  function LastFound(found: seq<Found>, id: string): (r: Option<Found>) {
    if found == [] then None
    else if found[|found| - 1].id == id then Some(found[|found| - 1]) else LastFound(found[..|found| - 1], id)
  }

  /** One more insertion for each listing of a container that is not stored. */
  function InsertedAll(e: Entry, found: seq<Found>, id: string, now: int): (r: Entry) {
    if found == [] then e
    else
      var f, before := found[|found| - 1], InsertedAll(e, found[..|found| - 1], id, now);
      if f.id == id then Inserted(before, f, now) else before
  }

  function FleetEntry(e: Entry, found: seq<Found>, id: string, now: int): (r: Entry) {
    if IsStored(e) then Reconciled(e, LastFound(found, id), now) else InsertedAll(e, found, id, now)
  }

  lemma {:induction false} UnlistedIsNotFound(found: seq<Found>, e: Entry, id: string, now: int)
    requires forall i :: 0 <= i < |found| ==> found[i].id != id
    ensures LastFound(found, id) == None && InsertedAll(e, found, id, now) == e
  {
    if found != [] {
      UnlistedIsNotFound(found[..|found| - 1], e, id, now);
    }
  }

  /** When the runtime lists each container once, the pass reconciles each one on its own. */
  lemma {:induction false} ListedOnce(e: Entry, found: seq<Found>, id: string, now: int)
    requires forall i, j :: 0 <= i < j < |found| ==> found[i].id != found[j].id
    ensures FleetEntry(e, found, id, now) == Reconciled(e, LastFound(found, id), now)
  {
    if found != [] {
      var n := |found| - 1;
      if found[n].id == id {
        UnlistedIsNotFound(found[..n], e, id, now);
      } else {
        ListedOnce(e, found[..n], id, now);
      }
    }
  }

  /** Reconcile's first loop: the stored containers against the listing. */
  method ReconcileStored(fleet: map<string, Entry>, found: seq<Found>, now: int) returns (r: map<string, Entry>)
    ensures r.Keys == fleet.Keys
    ensures forall id :: id in fleet ==>
            r[id] == if IsStored(fleet[id]) then Reconciled(fleet[id], LastFound(found, id), now) else fleet[id]
  {
    r := fleet;
    var todo := fleet.Keys;
    while todo != {}
      invariant todo <= fleet.Keys && r.Keys == fleet.Keys
      invariant forall id :: id in fleet ==>
                  r[id] ==
                  if id !in todo && IsStored(fleet[id]) then Reconciled(fleet[id], LastFound(found, id), now)
                  else fleet[id]
      decreases |todo|
    {
      var id :| id in todo;
      if IsStored(fleet[id]) {
        r := r[id := Reconciled(fleet[id], LastFound(found, id), now)];
      }
      todo := todo - {id};
    }
  }

  /** The second loop: what the listing shows and the stored containers do not. */
  method InsertNew(fleet: map<string, Entry>, stored: map<string, Entry>, found: seq<Found>,
                   now: int) returns (r: map<string, Entry>)
    ensures forall id ::
              Get(r, id) == if IsStored(Get(stored, id)) then Get(fleet, id)
                            else InsertedAll(Get(fleet, id), found, id, now)
  {
    r := fleet;
    for i := 0 to |found|
      invariant forall id :: Get(r, id) == if IsStored(Get(stored, id)) then Get(fleet, id)
                                           else InsertedAll(Get(fleet, id), found[..i], id, now)
    {
      var f := found[i];
      assert found[..i + 1][..i] == found[..i];
      if !IsStored(Get(stored, f.id)) {
        r := r[f.id := Inserted(Get(r, f.id), f, now)];
      }
    }
    assert found[..|found|] == found;
  }

  method ReconcileFleet(fleet: map<string, Entry>, found: seq<Found>, now: int) returns (r: map<string, Entry>)
    ensures forall id :: Get(r, id) == FleetEntry(Get(fleet, id), found, id, now)
  {
    var compared := ReconcileStored(fleet, found, now);
    r := InsertNew(compared, fleet, found, now);
  }
}
