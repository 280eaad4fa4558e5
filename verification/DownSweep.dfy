/**
 * The sweep for containers that stay stopped (internal/alert/down.go), with the engine that
 * takes its events. The sweep keeps no memory of its own: what is firing is read back from
 * the alert store on each pass.
 */
module DownSweep {
  import opened Collections
  import opened AlertEngine
  import opened DetectorEvents

  const SOURCE := "container"
  const CONTAINER_DOWN := "container_down"
  const ENTITY := "container"

  /** One row of the container listing; archived and ignored containers are not listed. */
  datatype Container = Container(id: string, name: string, state: string, changedAt: int, severity: string,
                                 agentId: string)

  predicate IsDown(state: string) {
    state == "exited" || state == "dead"
  }

  predicate PastThreshold(c: Container, now: int, after: int) {
    IsDown(c.state) && now - c.changedAt >= after
  }

  function Severity(c: Container): (r: string) {
    if c.severity == INFO then INFO else if c.severity == WARNING then WARNING else CRITICAL
  }

  function DownKey(id: string): (k: Key) {
    Key(SOURCE, CONTAINER_DOWN, ENTITY, id)
  }

  function Fire(c: Container, now: int): (e: Event) {
    Event(DownKey(c.id), Severity(c), false, "Container " + c.name + " has been " + c.state, c.name, c.agentId, "{}",
      now)
  }

  function Recovery(id: string, name: string, agentId: string, now: int): (e: Event) {
    Event(DownKey(id), INFO, true, "Container " + name + " is running again", name, agentId, "{}", now)
  }

  /** The alerts of this type in the store, whoever raised them. */
  predicate Concerns(a: Alert, id: string) {
    a.key.alertType == CONTAINER_DOWN && a.key.entityType == ENTITY && a.key.entityId == id
  }

  // ---------------------------------------------------------------- what a pass sees

  datatype Seen = Seen(down: map<string, Container>, known: map<string, Container>, firing: map<string, Alert>)

  ghost predicate SeesDown(down: map<string, Container>, containers: seq<Container>, now: int, after: int) {
    && (forall id :: id in down ==> down[id] in containers && down[id].id == id && PastThreshold(down[id], now, after))
    && (forall c :: c in containers && PastThreshold(c, now, after) ==> c.id in down)
  }

  ghost predicate SeesKnown(known: map<string, Container>, containers: seq<Container>) {
    && (forall id :: id in known ==> known[id] in containers && known[id].id == id)
    && (forall c :: c in containers ==> c.id in known)
  }

  ghost predicate SeesFiring(firing: map<string, Alert>, active: seq<Alert>) {
    && (forall id :: id in firing ==> firing[id] in active && Concerns(firing[id], id))
    && (forall a, id :: a in active && Concerns(a, id) ==> id in firing)
  }

  ghost predicate Sees(seen: Seen, containers: seq<Container>, active: seq<Alert>, now: int, after: int) {
    SeesDown(seen.down, containers, now, after) && SeesKnown(seen.known, containers) && SeesFiring(seen.firing, active)
  }

  method SeeContainers(containers: seq<Container>, now: int, after: int)
    returns (down: map<string, Container>, known: map<string, Container>)
    ensures SeesDown(down, containers, now, after) && SeesKnown(known, containers)
  {
    down, known := map[], map[];
    for i := 0 to |containers|
      invariant SeesDown(down, containers[..i], now, after) && SeesKnown(known, containers[..i])
    {
      var c := containers[i];
      assert containers[..i + 1] == containers[..i] + [c];
      known := known[c.id := c];
      if PastThreshold(c, now, after) {
        down := down[c.id := c];
      }
    }
    assert containers[..|containers|] == containers;
  }

  method SeeAlerts(active: seq<Alert>) returns (firing: map<string, Alert>)
    ensures SeesFiring(firing, active)
  {
    firing := map[];
    for i := 0 to |active|
      invariant SeesFiring(firing, active[..i])
    {
      var a := active[i];
      assert active[..i + 1] == active[..i] + [a];
      if a.key.alertType == CONTAINER_DOWN && a.key.entityType == ENTITY {
        firing := firing[a.key.entityId := a];
      }
    }
    assert active[..|active|] == active;
  }

  // ---------------------------------------------------------------- what it says

  function NameOf(seen: Seen, id: string): (r: string)
    requires id in seen.firing
  {
    if id in seen.known then seen.known[id].name else seen.firing[id].entityName
  }

  /** What the pass has to say about one container, if anything. */
  function Verdict(seen: Seen, id: string, now: int): (r: Option<Event>) {
    if id in seen.down then if id in seen.firing then None else Some(Fire(seen.down[id], now))
    else if id in seen.firing then Some(Recovery(id, NameOf(seen, id), seen.firing[id].agentId, now))
    else None
  }

  /** Every verdict once, in any order, and nothing else; those on the ids left to do are still to come. */
  ghost predicate Announces(events: seq<Event>, seen: Seen, left: set<string>, now: int) {
    && (forall i :: 0 <= i < |events| ==>
          events[i].key.entityId !in left && Verdict(seen, events[i].key.entityId, now) == Some(events[i]))
    && (forall id :: id !in left && Verdict(seen, id, now).Some? ==> Verdict(seen, id, now).value in events)
    && (forall i, j :: 0 <= i < j < |events| ==> events[i].key != events[j].key)
  }

  function Plus(events: seq<Event>, verdict: Option<Event>): (r: seq<Event>) {
    if verdict.Some? then events + [verdict.value] else events
  }

  lemma AnnouncesMore(events: seq<Event>, seen: Seen, left: set<string>, now: int, id: string)
    requires Announces(events, seen, left, now) && id in left && (id in seen.down ==> seen.down[id].id == id)
    ensures Announces(Plus(events, Verdict(seen, id, now)), seen, left - {id}, now)
  {
  }

  lemma AnnouncesDown(events: seq<Event>, seen: Seen, left: set<string>, now: int, id: string)
    requires Announces(events, seen, left, now) && id in left && id in seen.down && seen.down[id].id == id
    ensures Announces(if id in seen.firing then events else events + [Fire(seen.down[id], now)], seen, left - {id}, now)
  {
    AnnouncesMore(events, seen, left, now, id);
  }

  lemma AnnouncesNone(seen: Seen, now: int)
    ensures Announces([], seen, seen.down.Keys + (seen.firing.Keys - seen.down.Keys), now)
  {
  }

  /** First pass over the maps, in any order: what crossed the threshold. */
  method AnnounceDown(seen: Seen, now: int) returns (events: seq<Event>)
    requires forall id :: id in seen.down ==> seen.down[id].id == id
    ensures Announces(events, seen, seen.firing.Keys - seen.down.Keys, now)
  {
    events := [];
    var todo := seen.down.Keys;
    ghost var back := seen.firing.Keys - seen.down.Keys;
    ghost var left := todo + back;
    AnnouncesNone(seen, now);
    while todo != {}
      invariant todo <= seen.down.Keys
      invariant forall id :: id in left <==> id in todo || id in back
      invariant Announces(events, seen, left, now)
      decreases |todo|
    {
      var id :| id in todo;
      AnnouncesDown(events, seen, left, now, id);
      if id !in seen.firing {
        events := events + [Fire(seen.down[id], now)];
      }
      todo, left := todo - {id}, left - {id};
    }
    assert left == back;
  }

  /** Second pass, in any order: what came back. */
  method AnnounceBack(seen: Seen, now: int, said: seq<Event>) returns (events: seq<Event>)
    requires Announces(said, seen, seen.firing.Keys - seen.down.Keys, now)
    ensures Announces(events, seen, {}, now)
  {
    events := said;
    var todo := seen.firing.Keys - seen.down.Keys;
    while todo != {}
      invariant forall id :: id in todo ==> id in seen.firing && id !in seen.down
      invariant Announces(events, seen, todo, now)
      decreases |todo|
    {
      var id :| id in todo;
      AnnouncesMore(events, seen, todo, now, id);
      events := events + [Recovery(id, NameOf(seen, id), seen.firing[id].agentId, now)];
      todo := todo - {id};
    }
  }

  method Check(containers: seq<Container>, active: seq<Alert>, now: int, after: int) returns (events: seq<Event>,
               seen: Seen)
    ensures Sees(seen, containers, active, now, after)
    ensures Announces(events, seen, {}, now)
  {
    var down, known := SeeContainers(containers, now, after);
    var firing := SeeAlerts(active);
    seen := Seen(down, known, firing);
    events := AnnounceDown(seen, now);
    events := AnnounceBack(seen, now, events);
  }

  // ---------------------------------------------------------------- convergence

  /** The list the alert store gives of its active alerts. */
  ghost predicate Listing(s: State, active: seq<Alert>) {
    && (forall i :: i in s.store && s.store[i].status.Active? ==> s.store[i] in active)
    && (forall a :: a in active ==> a.id in s.store && s.store[a.id] == a && a.status.Active?)
  }

  /** One pass over a listing, as `Check` leaves it. */
  ghost predicate Pass(s: State, containers: seq<Container>, now: int, after: int, seen: Seen, events: seq<Event>) {
    exists active :: Listing(s, active) && Sees(seen, containers, active, now, after)
                     && Announces(events, seen, {}, now)
  }

  ghost predicate Down(containers: seq<Container>, now: int, after: int, id: string) {
    exists c :: c in containers && c.id == id && PastThreshold(c, now, after)
  }

  /** Another source raised this type for a stopped container whose own alert is not active. */
  ghost predicate Shadowed(s: State, id: string) {
    DownKey(id) !in s.active && exists k :: k in s.active && Concerns(s.active[k], id)
  }

  ghost predicate Agrees(s: State, containers: seq<Container>, now: int, after: int) {
    forall id :: DownKey(id) in s.active <==> Down(containers, now, after, id)
  }

  lemma FiringIs(s: State, active: seq<Alert>, firing: map<string, Alert>, id: string)
    requires MirrorsStore(s) && Listing(s, active) && SeesFiring(firing, active)
    ensures id in firing <==> DownKey(id) in s.active || Shadowed(s, id)
  {
    if id in firing {
      var a := firing[id];
      assert s.store[a.id] == a;
      assert Concerns(s.active[a.key], id);
    }
    if DownKey(id) in s.active {
      var a := s.store[s.active[DownKey(id)].id];
      assert Concerns(a, id);
    }
    if k :| k in s.active && Concerns(s.active[k], id) {
      var a := s.store[s.active[k].id];
      assert Concerns(a, id);
    }
  }

  lemma AfterPass(s: State, seen: Seen, events: seq<Event>, now: int, id: string)
    requires Announces(events, seen, {}, now)
    requires forall id :: id in seen.down ==> seen.down[id].id == id
    ensures DownKey(id) in HandleAll(s, events).active <==>
              (if Verdict(seen, id, now).Some? then id in seen.down else DownKey(id) in s.active)
  {
    var k := DownKey(id);
    ActiveAfterAll(s, events, k);
    if Verdict(seen, id, now).Some? {
      var i :| 0 <= i < |events| && events[i] == Verdict(seen, id, now).value;
      SaysOnly(events, k, k in s.active, i);
    } else {
      assert forall e :: e in events ==> e.key != k;
      HandleAllFrame(s, events, k);
    }
  }

  lemma PassOn(s: State, containers: seq<Container>, now: int, after: int, seen: Seen, events: seq<Event>, id: string)
    requires MirrorsStore(s) && Pass(s, containers, now, after, seen, events)
    ensures Down(containers, now, after, id) <==> id in seen.down
    ensures id in seen.firing <==> DownKey(id) in s.active || Shadowed(s, id)
    ensures DownKey(id) in HandleAll(s, events).active <==> Down(containers, now, after, id) && !Shadowed(s, id)
  {
    var active :| Listing(s, active) && Sees(seen, containers, active, now, after);
    FiringIs(s, active, seen.firing, id);
    AfterPass(s, seen, events, now, id);
  }

  /**
   * After one pass and the engine taking its events, the container_down alerts are exactly
   * the containers stopped past the threshold, unless another source already holds an alert
   * of that type for one of them.
   */
  lemma SweepConvergesIff(s: State, containers: seq<Container>, now: int, after: int, seen: Seen, events: seq<Event>)
    requires MirrorsStore(s) && Pass(s, containers, now, after, seen, events)
    ensures Agrees(HandleAll(s, events), containers, now, after)
            <==> forall id :: Down(containers, now, after, id) ==> !Shadowed(s, id)
    ensures MirrorsStore(HandleAll(s, events))
  {
    HandleAllMirrors(s, events);
    forall id
      ensures DownKey(id) in HandleAll(s, events).active <==> Down(containers, now, after, id) && !Shadowed(s, id)
    {
      PassOn(s, containers, now, after, seen, events, id);
    }
  }

  /** The pass leaves every alert of another kind as it was. */
  lemma SweepTouchesOnlyItsOwn(s: State, seen: Seen, events: seq<Event>, now: int, k: Key)
    requires Announces(events, seen, {}, now)
    requires forall id :: id in seen.down ==> seen.down[id].id == id
    requires k != DownKey(k.entityId)
    ensures k in HandleAll(s, events).active <==> k in s.active
    ensures k in s.active ==> HandleAll(s, events).active[k] == s.active[k]
  {
    forall e | e in events
      ensures e.key != k
    {
      var i :| 0 <= i < |events| && events[i] == e;
      assert Verdict(seen, e.key.entityId, now) == Some(e);
    }
    HandleAllFrame(s, events, k);
  }

  /** Once they agree, another pass over the same containers has nothing to say, other sources' alerts of the type
      aside. */
  lemma SecondPassIsSilentIff(s: State, containers: seq<Container>, now: int, after: int, seen: Seen,
                              events: seq<Event>)
    requires MirrorsStore(s) && Agrees(s, containers, now, after) && Pass(s, containers, now, after, seen, events)
    ensures events == [] <==> forall id :: !Shadowed(s, id)
  {
    if events != [] {
      var id := events[0].key.entityId;
      PassOn(s, containers, now, after, seen, events, id);
      assert Verdict(seen, id, now).Some?;
    }
    if id :| Shadowed(s, id) {
      PassOn(s, containers, now, after, seen, events, id);
      assert Verdict(seen, id, now).Some?;
    }
  }
}
