/** The end-of-support alerts over whole runs. */
module EndOfLifeRuns {
  import opened Collections
  import opened AlertEngine
  import opened DetectorEvents
  import opened EndOfLife

  datatype Action =
    | Evaluate(agent: Agent, table: Os.Table, now: int)
    | Forget(host: string, now: int)
    | Deliver
    | OtherDetector(evt: Event)
    | Removal(entityType: string, entityId: string, at: int)
    | Acknowledgement(id: nat, who: string, at: int)
    | Retention(ids: set<nat>)
    | Reboot(listed: seq<nat>)

  ghost predicate Can(w: World, a: Action) {
    match a
    case Deliver => w.queue != []
    case OtherDetector(evt) => !Ours(evt.key)
    case Retention(ids) => AlertEngine.Enabled(w.engine, Prune(ids))
    case Reboot(listed) => ListsActive(w.engine.store, listed)
    case _ => true
  }

  ghost function Next(w: World, a: Action): (v: World)
    requires Can(w, a)
  {
    match a
    case Evaluate(agent, table, now) => EvaluateStep(w, agent, SeverityOf(agent, table, now), now)
    case Forget(h, now) => ForgetStep(w, h, now)
    case Deliver => w.(engine := Handle(w.engine, w.queue[0]), queue := w.queue[1..])
    case OtherDetector(evt) => Queued(w, [evt], w.last)
    case Removal(t, i, at) => w.(engine := EntityResolved(w.engine, t, i, at, {}))
    case Acknowledgement(id, who, at) => w.(engine := Acknowledged(w.engine, id, who, at))
    case Retention(ids) => w.(engine := AlertEngine.Apply(w.engine, Prune(ids)))
    case Reboot(listed) =>
      World(w.engine.(active := Indexed(w.engine.store, listed)), [], Seeded(w.engine.store, listed))
  }

  ghost predicate Runs(w: World, actions: seq<Action>, v: World)
    decreases |actions|
  {
    if actions == [] then v == w else Can(w, actions[0]) && Runs(Next(w, actions[0]), actions[1..], v)
  }

  // ---------------------------------------------------------------- each step keeps it

  lemma EvaluateKeeps(w: World, a: Agent, severity: string, now: int)
    requires Inv(w) && (severity == "" || AlertSeverity(severity))
    ensures Inv(EvaluateStep(w, a, severity, now))
  {
    var v, events := EvaluateStep(w, a, severity, now), Evaluated(w.last, a, severity, now);
    forall h
      ensures HostInv(v, h)
    {
      assert HostInv(w, h);
      if h == a.id {
        EvaluatedHost(w, a, severity, now);
      } else {
        OtherHostEmits(w, events, v.last, h);
      }
    }
    OnlyAgentsEmit(w, events, v.last);
  }

  lemma EvaluatedHost(w: World, a: Agent, severity: string, now: int)
    requires HostInv(w, a.id) && (severity == "" || AlertSeverity(severity))
    requires (a.id in w.last ==> AlertSeverity(w.last[a.id]))
    ensures HostInv(EvaluateStep(w, a, severity, now), a.id)
  {
    var events, last := Evaluated(w.last, a, severity, now), Remembered(w.last, a.id, severity);
    forall held | Fits(held, w.last, a.id)
      ensures Fits(TakenAll(held, a.id, events), last, a.id)
    {
      EvaluatedTakes(w.last, a, severity, now, held);
    }
    forall j | 0 <= j <= |events|
      ensures Fits(TakenAll(None, a.id, events[j..]), last, a.id)
    {
      if j == 0 {
        assert events[j..] == events;
        EvaluatedTakes(w.last, a, severity, now, None);
      } else if j < |events| {
        assert events[j..] == [Fire(a, severity, now)];
        OneTaken(None, a.id, Fire(a, severity, now));
      } else {
        assert events[j..] == [];
      }
    }
    EmittedHost(w, events, last, a.id);
  }

  lemma OtherHostEmits(w: World, events: seq<Event>, last: map<string, string>, h: string)
    requires HostInv(w, h) && (h in w.last <==> h in last) && (h in last ==> last[h] == w.last[h])
    requires forall i :: 0 <= i < |events| ==> events[i].key != HostKey(h)
    ensures HostInv(Queued(w, events, last), h)
  {
    forall held | Fits(held, w.last, h)
      ensures Fits(TakenAll(held, h, events), last, h)
    {
      OtherHostTakes(held, h, events);
    }
    forall j | 0 <= j <= |events|
      ensures Fits(TakenAll(None, h, events[j..]), last, h)
    {
      OtherHostTakes(None, h, events[j..]);
    }
    EmittedHost(w, events, last, h);
  }

  lemma OnlyAgentsEmit(w: World, events: seq<Event>, last: map<string, string>)
    requires OnlyAgents(w)
    requires forall i :: 0 <= i < |events| && Ours(events[i].key) ==>
               events[i].key.entityType == AGENT && (events[i].isRecover || AlertSeverity(events[i].severity))
    ensures OnlyAgents(Queued(w, events, last))
  {
    var v := Queued(w, events, last);
    forall i | 0 <= i < |v.queue| && Ours(v.queue[i].key)
      ensures v.queue[i].key.entityType == AGENT && (v.queue[i].isRecover || AlertSeverity(v.queue[i].severity))
    {
      if i >= |w.queue| {
        assert v.queue[i] == events[i - |w.queue|];
      }
    }
  }

  lemma ForgetKeeps(w: World, host: string, now: int)
    requires Inv(w)
    ensures Inv(ForgetStep(w, host, now))
  {
    var v, events := ForgetStep(w, host, now), Forgotten(w.last, host, now);
    forall h
      ensures HostInv(v, h)
    {
      assert HostInv(w, h);
      if h == host {
        ForgottenHost(w, host, now);
      } else {
        OtherHostEmits(w, events, v.last, h);
      }
    }
    OnlyAgentsEmit(w, events, v.last);
  }

  lemma ForgottenTakes(last: map<string, string>, h: string, now: int, held: Option<string>)
    requires Fits(held, last, h)
    ensures TakenAll(held, h, Forgotten(last, h, now)) == None
  {
    OneTaken(held, h, Gone(h, now));
  }

  lemma ForgottenHost(w: World, h: string, now: int)
    requires HostInv(w, h)
    ensures HostInv(ForgetStep(w, h, now), h)
  {
    var events := Forgotten(w.last, h, now);
    forall held | Fits(held, w.last, h)
      ensures TakenAll(held, h, events) == None
    {
      ForgottenTakes(w.last, h, now, held);
    }
    forall j | 0 <= j <= |events|
      ensures TakenAll(None, h, events[j..]) == None
    {
      if j == 0 {
        assert events[j..] == events;
      } else {
        assert events[j..] == [];
      }
    }
    EmittedHost(w, events, w.last - {h}, h);
  }

  lemma DeliverHost(w: World, h: string)
    requires HostInv(w, h) && w.queue != []
    ensures HostInv(Next(w, Deliver), h)
    ensures SettlesAt(Next(w, Deliver), h) == SettlesAt(w, h)
  {
    var v, e := Next(w, Deliver), w.queue[0];
    assert w.queue == [e] + w.queue[1..];
    TakenAppend(Held(w.engine, h), h, [e], w.queue[1..]);
    OneTaken(Held(w.engine, h), h, e);
    assert HandleAll(w.engine, [e]) == Handle(w.engine, e) by { assert [e][..0] == []; }
    TakenIsHeld(w.engine, h, [e]);
    forall i | 0 <= i <= |v.queue|
      ensures Fits(TakenAll(None, h, v.queue[i..]), v.last, h)
    {
      assert v.queue[i..] == w.queue[i + 1..];
    }
  }

  lemma DeliverKeeps(w: World)
    requires Inv(w) && w.queue != []
    ensures Inv(Next(w, Deliver))
  {
    ProcessedMirrors(w.engine, w.queue[0], false);
    forall h
      ensures HostInv(Next(w, Deliver), h)
    {
      DeliverHost(w, h);
    }
    DeliverOnlyAgents(w);
  }

  lemma DeliverOnlyAgents(w: World)
    requires OnlyAgents(w) && w.queue != []
    ensures OnlyAgents(Next(w, Deliver))
  {
    var v, e := Next(w, Deliver), w.queue[0];
    forall k | k in v.engine.active && Ours(k)
      ensures k.entityType == AGENT && AlertSeverity(v.engine.active[k].severity)
    {
      if k != e.key {
        HandleFrame(w.engine, e, k);
      }
    }
  }

  lemma OtherDetectorKeeps(w: World, evt: Event)
    requires Inv(w) && !Ours(evt.key)
    ensures Inv(Queued(w, [evt], w.last))
  {
    forall h
      ensures HostInv(Queued(w, [evt], w.last), h)
    {
      OtherHostEmits(w, [evt], w.last, h);
    }
    OnlyAgentsEmit(w, [evt], w.last);
  }

  lemma RemovalKeeps(w: World, t: string, i: string, at: int)
    requires Inv(w)
    ensures Inv(Next(w, Removal(t, i, at)))
  {
    var v := Next(w, Removal(t, i, at));
    EntityMirrors(w.engine, t, i, at);
    forall h
      ensures HostInv(v, h)
    {
      assert HostInv(w, h);
      assert Held(v.engine, h) == Held(w.engine, h) || Held(v.engine, h) == None;
      assert w.queue[0..] == w.queue;
    }
  }

  lemma SameAlertsKeep(w: World, v: World)
    requires Inv(w) && v.queue == w.queue && v.last == w.last && v.engine.active == w.engine.active
    requires MirrorsStore(v.engine)
    ensures Inv(v)
  {
    forall h
      ensures HostInv(v, h)
    {
      assert HostInv(w, h);
    }
  }

  // ---------------------------------------------------------------- restart

  lemma {:induction false} SeededNames(store: map<nat, Alert>, listed: seq<nat>)
    requires forall i :: i in listed ==> i in store
    ensures forall h :: h in Seeded(store, listed) ==>
              exists i ::
                i in listed && Ours(store[i].key) && store[i].key.entityId == h
                && store[i].severity == Seeded(store, listed)[h]
    ensures forall i :: i in listed && Ours(store[i].key) ==> store[i].key.entityId in Seeded(store, listed)
  {
    if listed != [] {
      var n := |listed| - 1;
      SeededNames(store, listed[..n]);
      assert listed == listed[..n] + [listed[n]];
      var seeds, before := Seeded(store, listed), Seeded(store, listed[..n]);
      forall h | h in seeds
        ensures exists i ::
                  i in listed && Ours(store[i].key) && store[i].key.entityId == h && store[i].severity == seeds[h]
      {
        if Ours(store[listed[n]].key) && h == store[listed[n]].key.entityId {
          assert listed[n] in listed;
        } else {
          var i :| i in listed[..n] && Ours(store[i].key) && store[i].key.entityId == h
            && store[i].severity == before[h];
          assert i in listed;
        }
      }
    }
  }

  /** A restart remembers exactly the alerts that are active. */
  lemma SeedsMatch(w: World, listed: seq<nat>, h: string)
    requires MirrorsStore(w.engine) && OnlyAgents(w) && ListsActive(w.engine.store, listed)
    ensures var v := Next(w, Reboot(listed));
            && (h in v.last <==> Held(v.engine, h).Some?)
            && (h in v.last ==> Held(v.engine, h) == Some(v.last[h]) && AlertSeverity(v.last[h]))
  {
    var s, v := w.engine, Next(w, Reboot(listed));
    MirrorsStoreStep(s, Restart(listed));
    SeededNames(s.store, listed);
    IndexedNames(s.store, listed);
    if h in v.last {
      var i :| i in listed && Ours(s.store[i].key) && s.store[i].key.entityId == h && s.store[i].severity == v.last[h];
      assert s.store[i].key == HostKey(h);
      assert v.engine.active[HostKey(h)].id == i;
    }
    if HostKey(h) in v.engine.active {
      var i :| i in listed && v.engine.active[HostKey(h)] == s.store[i];
      assert Ours(s.store[i].key);
    }
  }

  lemma RebootKeeps(w: World, listed: seq<nat>)
    requires Inv(w) && ListsActive(w.engine.store, listed)
    ensures Inv(Next(w, Reboot(listed)))
  {
    var v := Next(w, Reboot(listed));
    MirrorsStoreStep(w.engine, Restart(listed));
    forall h
      ensures HostInv(v, h) && (h in v.last ==> AlertSeverity(v.last[h]))
    {
      SeedsMatch(w, listed, h);
      assert v.queue[0..] == [];
    }
    IndexedNames(w.engine.store, listed);
  }

  // ---------------------------------------------------------------- runs

  lemma StepKeeps(w: World, a: Action)
    requires Inv(w) && Can(w, a)
    ensures Inv(Next(w, a))
  {
    match a {
      case Evaluate(agent, table, now) => EvaluateKeeps(w, agent, SeverityOf(agent, table, now), now);
      case Forget(h, now) => ForgetKeeps(w, h, now);
      case Deliver => DeliverKeeps(w);
      case OtherDetector(evt) => OtherDetectorKeeps(w, evt);
      case Removal(t, i, at) => RemovalKeeps(w, t, i, at);
      case Acknowledgement(id, who, at) =>
        MirrorsStoreStep(w.engine, Acknowledge(id, who, at));
        SameAlertsKeep(w, Next(w, a));
      case Retention(ids) =>
        MirrorsStoreStep(w.engine, Prune(ids));
        SameAlertsKeep(w, Next(w, a));
      case Reboot(listed) => RebootKeeps(w, listed);
    }
  }

  const EMPTY_WORLD := World(EMPTY_STATE, [], map[])

  lemma {:induction false} EveryRunKeeps(w: World, actions: seq<Action>, v: World)
    requires Inv(w) && Runs(w, actions, v)
    ensures Inv(v)
    decreases |actions|
  {
    if actions != [] {
      StepKeeps(w, actions[0]);
      EveryRunKeeps(Next(w, actions[0]), actions[1..], v);
    }
  }

  lemma EmptyHolds()
    ensures Inv(EMPTY_WORLD)
  {
    forall h
      ensures HostInv(EMPTY_WORLD, h)
    {
    }
  }

  /**
   * After any run, evaluating a host leaves it, once the engine has taken what is queued, with
   * an alert exactly when its state is ending soon or ended, at exactly that state's severity,
   * and no other host's outcome changes.
   */
  lemma EvaluationSettlesHost(actions: seq<Action>, w: World, a: Agent, table: Os.Table, now: int)
    requires Runs(EMPTY_WORLD, actions, w)
    ensures var v, state := Next(w, Evaluate(a, table, now)), Os.Evaluate(IdentityOf(a), table, now);
            && SettlesAt(v, a.id) == (if state.Ended? then Some(CRITICAL) else if state.EndingSoon? then Some(WARNING)
               else None)
            && Held(HandleAll(v.engine, v.queue), a.id) == SettlesAt(v, a.id)
            && forall h :: h != a.id ==> SettlesAt(v, h) == SettlesAt(w, h)
  {
    EmptyHolds();
    EveryRunKeeps(EMPTY_WORLD, actions, w);
    var severity := SeverityOf(a, table, now);
    var v, events := EvaluateStep(w, a, severity, now), Evaluated(w.last, a, severity, now);
    assert HostInv(w, a.id);
    EvaluatedTakes(w.last, a, severity, now, SettlesAt(w, a.id));
    TakenAppend(Held(w.engine, a.id), a.id, w.queue, events);
    TakenIsHeld(v.engine, a.id, v.queue);
    forall h | h != a.id
      ensures SettlesAt(v, h) == SettlesAt(w, h)
    {
      TakenAppend(Held(w.engine, h), h, w.queue, events);
      OtherHostTakes(SettlesAt(w, h), h, events);
    }
  }
}
