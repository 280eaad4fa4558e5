/**
 * What detector events do to the engine when nothing is silenced and no store call fails:
 * handled in a row, and on the way through the engine's queue, which a restart loses.
 */
module DetectorEvents {
  import opened Collections
  import opened AlertEngine

  function Handle(s: State, evt: Event): (t: State) {
    Processed(s, evt, false, NO_FAULTS)
  }

  function HandleAll(s: State, events: seq<Event>): (t: State) {
    if events == [] then s else Handle(HandleAll(s, events[..|events| - 1]), events[|events| - 1])
  }

  lemma {:induction false} HandleAllMirrors(s: State, events: seq<Event>)
    requires MirrorsStore(s)
    ensures MirrorsStore(HandleAll(s, events))
  {
    if events != [] {
      var n := |events| - 1;
      HandleAllMirrors(s, events[..n]);
      ProcessedMirrors(HandleAll(s, events[..n]), events[n], false);
    }
  }

  /** One event touches the alert of its own key and no other. */
  lemma HandleFrame(s: State, evt: Event, k: Key)
    requires k != evt.key
    ensures k in Handle(s, evt).active <==> k in s.active
    ensures k in s.active ==> Handle(s, evt).active[k] == s.active[k]
  {
  }

  lemma {:induction false} HandleAllFrame(s: State, events: seq<Event>, k: Key)
    requires forall e :: e in events ==> e.key != k
    ensures k in HandleAll(s, events).active <==> k in s.active
    ensures k in s.active ==> HandleAll(s, events).active[k] == s.active[k]
  {
    if events != [] {
      var n := |events| - 1;
      HandleAllFrame(s, events[..n], k);
      HandleFrame(HandleAll(s, events[..n]), events[n], k);
    }
  }

  /** The last event of a key decides whether its alert is active. */
  ghost predicate Says(events: seq<Event>, k: Key, before: bool) {
    if events == [] then before
    else
      var n := |events| - 1;
      if events[n].key == k then !events[n].isRecover else Says(events[..n], k, before)
  }

  lemma {:induction false} ActiveAfterAll(s: State, events: seq<Event>, k: Key)
    ensures k in HandleAll(s, events).active <==> Says(events, k, k in s.active)
  {
    if events != [] {
      var n := |events| - 1;
      ActiveAfterAll(s, events[..n], k);
      if events[n].key != k {
        HandleFrame(HandleAll(s, events[..n]), events[n], k);
      }
    }
  }

  /** An event is the only one of its key, so it decides. */
  lemma {:induction false} SaysOnly(events: seq<Event>, k: Key, before: bool, i: nat)
    requires i < |events| && events[i].key == k
    requires forall j :: 0 <= j < |events| && events[j].key == k ==> j == i
    ensures Says(events, k, before) == !events[i].isRecover
    decreases |events|
  {
    if i < |events| - 1 {
      SaysOnly(events[..|events| - 1], k, before, i);
    }
  }

  lemma {:induction false} SaysAppend(x: seq<Event>, y: seq<Event>, k: Key, before: bool)
    ensures Says(x + y, k, before) == Says(y, k, Says(x, k, before))
    decreases |y|
  {
    if y == [] {
      assert x + y == x;
    } else {
      var n := |y| - 1;
      SaysAppend(x, y[..n], k, before);
      assert (x + y)[..|x| + n] == x + y[..n] && (x + y)[|x| + n] == y[n];
    }
  }

  // ---------------------------------------------------------------- the engine behind its queue

  datatype Channel = Channel(engine: State, queue: seq<Event>)

  function Emitted(c: Channel, events: seq<Event>): (r: Channel) {
    c.(queue := c.queue + events)
  }

  function Delivered(c: Channel): (r: Channel)
    requires c.queue != []
  {
    Channel(Handle(c.engine, c.queue[0]), c.queue[1..])
  }

  /** The map is read back from the store; what was queued is gone. */
  function Rebooted(c: Channel, listed: seq<nat>): (r: Channel)
    requires forall i :: i in listed ==> i in c.engine.store
  {
    Channel(c.engine.(active := Indexed(c.engine.store, listed)), [])
  }

  /** Whether the key's alert is active once the engine has taken what is queued. */
  ghost predicate Settled(c: Channel, k: Key) {
    Says(c.queue, k, k in c.engine.active)
  }

  /** What the last queued event of the key says, if there is one. */
  function LastWord(events: seq<Event>, k: Key): (r: Option<bool>) {
    if events == [] then None
    else
      var n := |events| - 1;
      if events[n].key == k then Some(!events[n].isRecover) else LastWord(events[..n], k)
  }

  /** A restart now would lose an event that raises the key's alert or clears it. */
  predicate LosesWord(c: Channel, k: Key) {
    LastWord(c.queue, k) == Some(k !in c.engine.active)
  }

  lemma {:induction false} SaysLastWord(events: seq<Event>, k: Key, before: bool)
    ensures Says(events, k, before) == if LastWord(events, k).Some? then LastWord(events, k).value else before
  {
    if events != [] {
      SaysLastWord(events[..|events| - 1], k, before);
    }
  }

  lemma {:induction false} LastWordAppend(x: seq<Event>, y: seq<Event>, k: Key)
    ensures LastWord(x + y, k) == if LastWord(y, k).Some? then LastWord(y, k) else LastWord(x, k)
    decreases |y|
  {
    if y == [] {
      assert x + y == x;
    } else {
      var n := |y| - 1;
      LastWordAppend(x, y[..n], k);
      assert (x + y)[..|x| + n] == x + y[..n] && (x + y)[|x| + n] == y[n];
    }
  }

  lemma {:induction false} NoWord(events: seq<Event>, k: Key)
    requires forall i :: 0 <= i < |events| ==> events[i].key != k
    ensures LastWord(events, k) == None
  {
    if events != [] {
      NoWord(events[..|events| - 1], k);
    }
  }

  lemma SettledEmitted(c: Channel, events: seq<Event>, k: Key)
    ensures Settled(Emitted(c, events), k) == Says(events, k, Settled(c, k))
  {
    SaysAppend(c.queue, events, k, k in c.engine.active);
  }

  lemma SettledDelivered(c: Channel, k: Key)
    requires c.queue != []
    ensures Settled(Delivered(c), k) == Settled(c, k)
    ensures LastWord(c.queue, k).None? ==> LastWord(Delivered(c).queue, k).None?
  {
    var e, rest := c.queue[0], c.queue[1..];
    assert c.queue == [e] + rest;
    SaysAppend([e], rest, k, k in c.engine.active);
    LastWordAppend([e], rest, k);
    assert HandleAll(c.engine, [e]) == Handle(c.engine, e) by { assert [e][..0] == []; }
    ActiveAfterAll(c.engine, [e], k);
  }

  lemma DeliveredMirrors(c: Channel)
    requires MirrorsStore(c.engine) && c.queue != []
    ensures MirrorsStore(Delivered(c).engine)
  {
    ProcessedMirrors(c.engine, c.queue[0], false);
  }

  lemma SettledRebooted(c: Channel, listed: seq<nat>, k: Key)
    requires MirrorsStore(c.engine) && ListsActive(c.engine.store, listed)
    ensures MirrorsStore(Rebooted(c, listed).engine)
    ensures Settled(Rebooted(c, listed), k) <==> k in c.engine.active
  {
    MirrorsStoreStep(c.engine, Restart(listed));
    IndexedNames(c.engine.store, listed);
    var t := Indexed(c.engine.store, listed);
    if k in c.engine.active {
      assert c.engine.active[k].id in listed;
    }
    if k in t {
      var i :| i in listed && t[k] == c.engine.store[i];
    }
  }

  /** A restart changes what a key settles at if and only if it loses the last word on it. */
  lemma RestartKeepsIff(c: Channel, listed: seq<nat>, k: Key)
    requires MirrorsStore(c.engine) && ListsActive(c.engine.store, listed)
    ensures Settled(Rebooted(c, listed), k) == Settled(c, k) <==> !LosesWord(c, k)
  {
    SettledRebooted(c, listed, k);
    SaysLastWord(c.queue, k, k in c.engine.active);
  }

  // ---------------------------------------------------------------- a detector that remembers what it said

  /** The key settles at what the detector remembers, unless a restart lost that word and nothing was said since. */
  ghost predicate Tracks(c: Channel, k: Key, memory: bool, lost: bool) {
    (Settled(c, k) == memory <==> !lost) && (lost ==> LastWord(c.queue, k).None?)
  }

  /** The detector says nothing of the key and remembers what it did, or says what it then remembers. */
  ghost predicate Speaks(events: seq<Event>, k: Key, memory: bool, next: bool) {
    if LastWord(events, k).None? then next == memory else LastWord(events, k) == Some(next)
  }

  lemma EmittedTracks(c: Channel, k: Key, memory: bool, lost: bool, events: seq<Event>, next: bool)
    requires Tracks(c, k, memory, lost) && Speaks(events, k, memory, next)
    ensures Tracks(Emitted(c, events), k, next, lost && LastWord(events, k).None?)
  {
    SettledEmitted(c, events, k);
    SaysLastWord(events, k, Settled(c, k));
    LastWordAppend(c.queue, events, k);
  }

  lemma DeliveredTracks(c: Channel, k: Key, memory: bool, lost: bool)
    requires Tracks(c, k, memory, lost) && c.queue != []
    ensures Tracks(Delivered(c), k, memory, lost)
  {
    SettledDelivered(c, k);
  }

  lemma RebootedTracks(c: Channel, k: Key, memory: bool, lost: bool, listed: seq<nat>)
    requires MirrorsStore(c.engine) && ListsActive(c.engine.store, listed) && Tracks(c, k, memory, lost)
    ensures Tracks(Rebooted(c, listed), k, memory, lost || LosesWord(c, k))
  {
    RestartKeepsIff(c, listed, k);
  }
}
