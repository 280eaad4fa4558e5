/**
 * The sweep for stopped containers behind the engine's queue: a pass reads the alert store, which
 * knows nothing of the events that still wait for the engine.
 */
module DownSweepRuns {
  import opened Collections
  import opened AlertEngine
  import opened DetectorEvents
  import opened DownSweep

  /** The engine once it has taken what is queued. */
  function Caught(c: Channel): (s: State) {
    HandleAll(c.engine, c.queue)
  }

  // ---------------------------------------------------------------- one pass, any queue

  /** What the pass says nothing of, the queue and the store must settle. */
  ghost predicate SettlesWell(c: Channel, id: string, down: bool) {
    (DownKey(id) in c.engine.active || Shadowed(c.engine, id)) == down ==>
      if LastWord(c.queue, DownKey(id)).Some? then LastWord(c.queue, DownKey(id)).value == down
      else !(down && Shadowed(c.engine, id))
  }

  lemma PassSays(c: Channel, containers: seq<Container>, now: int, after: int, seen: Seen, events: seq<Event>,
                 id: string)
    requires MirrorsStore(c.engine) && Pass(c.engine, containers, now, after, seen, events)
    ensures LastWord(events, DownKey(id)) ==
              if (DownKey(id) in c.engine.active || Shadowed(c.engine, id)) == Down(containers, now, after, id)
              then None
              else Some(Down(containers, now, after, id))
  {
    PassOn(c.engine, containers, now, after, seen, events, id);
    var k, v := DownKey(id), Verdict(seen, id, now);
    if v.Some? {
      var i :| 0 <= i < |events| && events[i] == v.value;
      assert seen.down.Keys !! {id} || seen.down[id].id == id;
      SaysOnly(events, k, true, i);
      SaysOnly(events, k, false, i);
    } else {
      assert forall e :: e in events ==> e.key != k;
      NoWord(events, k);
    }
    SaysLastWord(events, k, true);
    SaysLastWord(events, k, false);
  }

  /**
   * Whatever is queued: once the engine has caught up with it and with the pass, the container_down
   * alerts are exactly the containers stopped past the threshold if and only if each one the
   * pass says nothing of is settled well by the queue, or with no word there by the store.
   */
  lemma PassSettlesIff(c: Channel, containers: seq<Container>, now: int, after: int, seen: Seen, events: seq<Event>)
    requires MirrorsStore(c.engine) && Pass(c.engine, containers, now, after, seen, events)
    ensures Agrees(Caught(Emitted(c, events)), containers, now, after) <==>
              forall id :: SettlesWell(c, id, Down(containers, now, after, id))
  {
    forall id
      ensures (DownKey(id) in Caught(Emitted(c, events)).active <==> Down(containers, now, after, id)) <==>
              SettlesWell(c, id, Down(containers, now, after, id))
    {
      var k := DownKey(id);
      PassSays(c, containers, now, after, seen, events, id);
      ActiveAfterAll(c.engine, c.queue + events, k);
      SaysLastWord(c.queue + events, k, k in c.engine.active);
      LastWordAppend(c.queue, events, k);
    }
  }

  // ---------------------------------------------------------------- runs

  datatype Action =
    | Sweep(containers: seq<Container>, now: int, after: int, seen: Seen, events: seq<Event>)
    | Elsewhere(evt: Event)
    | Deliver
    | Engine(op: Op)
    | Reboot(listed: seq<nat>)

  /** Alerts of the type that the sweep itself did not raise. */
  predicate Foreign(k: Key) {
    k.alertType == CONTAINER_DOWN && k.entityType == ENTITY && k.source != SOURCE
  }

  /** Nothing but the sweep raises alerts of the type. */
  predicate Homely(evt: Event) {
    !evt.isRecover ==> !Foreign(evt.key)
  }

  ghost predicate Can(c: Channel, a: Action) {
    match a
    case Sweep(containers, now, after, seen, events) => Pass(c.engine, containers, now, after, seen, events)
    case Elsewhere(evt) => Homely(evt)
    case Deliver => c.queue != []
    case Engine(op) => Enabled(c.engine, op) && Faultless(op) && !op.Process? && !op.Restart?
    case Reboot(listed) => ListsActive(c.engine.store, listed)
  }

  ghost function Next(c: Channel, a: Action): (r: Channel)
    requires Can(c, a)
  {
    match a
    case Sweep(_, _, _, _, events) => Emitted(c, events)
    case Elsewhere(evt) => Emitted(c, [evt])
    case Deliver => Delivered(c)
    case Engine(op) => c.(engine := Apply(c.engine, op))
    case Reboot(listed) => Rebooted(c, listed)
  }

  ghost predicate Runs(c: Channel, actions: seq<Action>, d: Channel)
    decreases |actions|
  {
    if actions == [] then d == c else Can(c, actions[0]) && Runs(Next(c, actions[0]), actions[1..], d)
  }

  const IDLE := Channel(EMPTY_STATE, [])

  ghost predicate NoneForeign(s: State) {
    MirrorsStore(s) && forall k :: k in s.active ==> !Foreign(k)
  }

  ghost predicate Inv(c: Channel) {
    NoneForeign(c.engine) && forall e :: e in c.queue ==> Homely(e)
  }

  lemma OpStaysHome(s: State, op: Op)
    requires NoneForeign(s) && Enabled(s, op) && Faultless(op) && !op.Process?
    ensures NoneForeign(Apply(s, op))
  {
    MirrorsStoreStep(s, op);
    if op.Restart? {
      IndexedNames(s.store, op.listed);
      var t := Indexed(s.store, op.listed);
      forall k | k in t
        ensures k in s.active
      {
        var i :| i in op.listed && t[k] == s.store[i];
      }
    }
  }

  lemma HandleStaysHome(s: State, evt: Event)
    requires NoneForeign(s) && Homely(evt)
    ensures NoneForeign(Handle(s, evt))
  {
    ProcessedMirrors(s, evt, false);
  }

  lemma {:induction false} HandleAllStaysHome(s: State, events: seq<Event>)
    requires NoneForeign(s) && forall e :: e in events ==> Homely(e)
    ensures NoneForeign(HandleAll(s, events))
  {
    if events != [] {
      var n := |events| - 1;
      HandleAllStaysHome(s, events[..n]);
      HandleStaysHome(HandleAll(s, events[..n]), events[n]);
    }
  }

  lemma PassStaysHome(s: State, containers: seq<Container>, now: int, after: int, seen: Seen, events: seq<Event>)
    requires Pass(s, containers, now, after, seen, events)
    ensures forall e :: e in events ==> Homely(e)
  {
    forall e | e in events
      ensures Homely(e)
    {
      var i :| 0 <= i < |events| && events[i] == e;
      assert Verdict(seen, e.key.entityId, now) == Some(e);
    }
  }

  lemma StepKeeps(c: Channel, a: Action)
    requires Inv(c) && Can(c, a)
    ensures Inv(Next(c, a))
  {
    match a {
      case Sweep(containers, now, after, seen, events) =>
        PassStaysHome(c.engine, containers, now, after, seen, events);
      case Elsewhere(_) =>
      case Deliver => HandleStaysHome(c.engine, c.queue[0]);
      case Engine(op) => OpStaysHome(c.engine, op);
      case Reboot(listed) => OpStaysHome(c.engine, Restart(listed));
    }
  }

  lemma NoneShadowed(s: State)
    requires NoneForeign(s)
    ensures forall id :: !Shadowed(s, id)
  {
    forall id
      ensures !Shadowed(s, id)
    {
      if DownKey(id) !in s.active {
        forall k | k in s.active
          ensures !Concerns(s.active[k], id)
        {
          assert s.active[k].key == k && !Foreign(k);
        }
      }
    }
  }

  lemma {:induction false} EveryRunKeeps(c: Channel, actions: seq<Action>, d: Channel)
    requires Inv(c) && Runs(c, actions, d)
    ensures Inv(d) && forall id :: !Shadowed(d.engine, id)
    decreases |actions|
  {
    if actions == [] {
      NoneShadowed(d.engine);
    } else {
      StepKeeps(c, actions[0]);
      EveryRunKeeps(Next(c, actions[0]), actions[1..], d);
    }
  }

  /** The store already has the container right, and a queued event will change that. */
  ghost predicate Unsettles(c: Channel, id: string, down: bool) {
    (DownKey(id) in c.engine.active <==> down) && LastWord(c.queue, DownKey(id)) == Some(!down)
  }

  /**
   * After any run of passes, other events, deliveries, engine operations and restarts: a pass
   * brings the alerts into line, once the engine has caught up, if and only if no container the
   * store already has right has a last queued word against it.
   */
  lemma SweepSettlesIff(actions: seq<Action>, c: Channel, containers: seq<Container>, now: int, after: int, seen: Seen,
                        events: seq<Event>)
    requires Runs(IDLE, actions, c) && Pass(c.engine, containers, now, after, seen, events)
    ensures Agrees(Caught(Emitted(c, events)), containers, now, after) <==>
              forall id :: !Unsettles(c, id, Down(containers, now, after, id))
  {
    EveryRunKeeps(IDLE, actions, c);
    PassSettlesIff(c, containers, now, after, seen, events);
  }

  /** So a pass that finds nothing queued brings them into line, and the next one says nothing. */
  lemma SweepConverges(actions: seq<Action>, c: Channel, containers: seq<Container>, now: int, after: int, seen: Seen,
                       events: seq<Event>, again: Seen, more: seq<Event>)
    requires Runs(IDLE, actions, c) && c.queue == [] && Pass(c.engine, containers, now, after, seen, events)
    requires Pass(Caught(Emitted(c, events)), containers, now, after, again, more)
    ensures Agrees(Caught(Emitted(c, events)), containers, now, after) && more == []
  {
    SweepSettlesIff(actions, c, containers, now, after, seen, events);
    EveryRunKeeps(IDLE, actions, c);
    PassStaysHome(c.engine, containers, now, after, seen, events);
    assert c.queue + events == events;
    HandleAllStaysHome(c.engine, events);
    NoneShadowed(HandleAll(c.engine, events));
    SecondPassIsSilentIff(HandleAll(c.engine, events), containers, now, after, again, more);
  }

  // ---------------------------------------------------------------- an input

  const AFTER := 300
  const WEB := Container("c1", "web", "exited", 0, CRITICAL, "")
  const BACK := WEB.(state := "running", changedAt := 310)
  const SEEN := Seen(map["c1" := WEB], map["c1" := WEB], map[])
  const SEEN_BACK := Seen(map[], map["c1" := BACK], map[])

  /** The alert is still queued when the next pass finds the container back: it says nothing, and the alert opens. */
  lemma QueuedFireOpensLate()
    ensures var a, b := Sweep([WEB], 300, AFTER, SEEN, [Fire(WEB, 300)]), Sweep([BACK], 330, AFTER, SEEN_BACK, []);
            && Can(IDLE, a) && Can(Next(IDLE, a), b)
            && var c := Next(Next(IDLE, a), b);
               DownKey("c1") in Caught(c).active && !Agrees(Caught(c), [BACK], 330, AFTER)
  {
    assert Listing(EMPTY_STATE, []);
    FirstLook();
    SecondLook();
    var c := Channel(EMPTY_STATE, [Fire(WEB, 300)]);
    assert c.queue + [] == c.queue && [] + [Fire(WEB, 300)] == c.queue;
    ActiveAfterAll(EMPTY_STATE, c.queue, DownKey("c1"));
    forall d | d in [BACK]
      ensures !PastThreshold(d, 330, AFTER)
    {
    }
  }

  lemma FirstLook()
    ensures Sees(SEEN, [WEB], [], 300, AFTER) && Announces([Fire(WEB, 300)], SEEN, {}, 300)
  {
  }

  lemma SecondLook()
    ensures Sees(SEEN_BACK, [BACK], [], 330, AFTER) && Announces([], SEEN_BACK, {}, 330)
  {
  }
}
