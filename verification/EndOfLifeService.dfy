/** The end-of-support service in place: its memory of severities and its passes over the fleet. */
module EndOfLifeService {
  import opened Collections
  import opened AlertEngine
  import opened DetectorEvents
  import opened EndOfLife
  import opened EndOfLifeRuns

  /** The severity the fleet's list calls for, none for a host that is not on it. */
  function Wanted(agents: seq<Agent>, table: Os.Table, now: int, h: string): (r: Option<string>) {
    if agents == [] then None
    else
      var n := |agents| - 1;
      if agents[n].id != h then Wanted(agents[..n], table, now, h)
      else if SeverityOf(agents[n], table, now) == "" then None
      else Some(SeverityOf(agents[n], table, now))
  }

  predicate Listed(agents: seq<Agent>, h: string) {
    exists i :: 0 <= i < |agents| && agents[i].id == h
  }

  /** Whatever alert the host may have, the events leave it with the one wanted. */
  ghost predicate Drives(events: seq<Event>, last: map<string, string>, h: string, want: Option<string>) {
    forall held :: Fits(held, last, h) ==> TakenAll(held, h, events) == want
  }

  ghost predicate Keeps(events: seq<Event>, h: string) {
    forall held :: TakenAll(held, h, events) == held
  }

  ghost predicate Recalls(last: map<string, string>, h: string, want: Option<string>) {
    (h in last <==> want.Some?) && (h in last ==> last[h] == want.value)
  }

  ghost predicate Known(last: map<string, string>) {
    forall h :: h in last ==> AlertSeverity(last[h])
  }

  /** Where a pass stands for one host after part of the list. */
  ghost predicate PartWay(events: seq<Event>, before: map<string, string>, last: map<string, string>,
                          agents: seq<Agent>, table: Os.Table, now: int, h: string)
  {
    if Listed(agents, h)
    then Drives(events, before, h, Wanted(agents, table, now, h)) && Recalls(last, h, Wanted(agents, table, now, h))
    else Keeps(events, h) && (h in last <==> h in before) && (h in last ==> last[h] == before[h])
  }

  lemma WantedFits(events: seq<Event>, before: map<string, string>, last: map<string, string>, agents: seq<Agent>,
                   table: Os.Table, now: int, h: string, held: Option<string>)
    requires PartWay(events, before, last, agents, table, now, h) && Fits(held, before, h)
    ensures Fits(TakenAll(held, h, events), last, h)
  {
  }

  lemma {:induction false} PartWayNext(events: seq<Event>, before: map<string, string>, last: map<string, string>,
                                       agents: seq<Agent>, a: Agent, table: Os.Table, now: int, h: string)
    requires PartWay(events, before, last, agents, table, now, h) && Known(last)
    ensures var severity := SeverityOf(a, table, now);
            PartWay(events + Evaluated(last, a, severity, now), before, Remembered(last, a.id, severity), agents + [a],
              table, now, h)
  {
    var severity, more := SeverityOf(a, table, now), agents + [a];
    var added := Evaluated(last, a, severity, now);
    assert more[..|agents|] == agents;
    if h == a.id {
      assert more[|agents|].id == h;
      forall held | Fits(held, before, h)
        ensures TakenAll(held, h, events + added) == Wanted(more, table, now, h)
      {
        WantedFits(events, before, last, agents, table, now, h, held);
        TakenAppend(held, h, events, added);
        EvaluatedTakes(last, a, severity, now, TakenAll(held, h, events));
      }
    } else {
      ListedMore(agents, a, h);
      forall held
        ensures TakenAll(held, h, events + added) == TakenAll(held, h, events)
      {
        TakenAppend(held, h, events, added);
        OtherHostTakes(TakenAll(held, h, events), h, added);
      }
    }
  }

  lemma ListedMore(agents: seq<Agent>, a: Agent, h: string)
    requires h != a.id
    ensures Listed(agents + [a], h) <==> Listed(agents, h)
  {
    if i :| 0 <= i < |agents| && agents[i].id == h {
      assert (agents + [a])[i] == agents[i];
    }
    if i :| 0 <= i < |agents + [a]| && (agents + [a])[i].id == h {
      assert agents[i].id == h;
    }
  }

  /** The pass is over for this host. */
  ghost predicate Done(events: seq<Event>, before: map<string, string>, last: map<string, string>, agents: seq<Agent>,
                       table: Os.Table, now: int, h: string)
  {
    Drives(events, before, h, Wanted(agents, table, now, h)) && Recalls(last, h, Wanted(agents, table, now, h))
  }

  /** Still on record but no longer in the fleet. */
  ghost predicate Stale(events: seq<Event>, before: map<string, string>, last: map<string, string>, agents: seq<Agent>,
                        h: string) {
    !Listed(agents, h) && Keeps(events, h) && h in last && h in before && last[h] == before[h]
  }

  lemma {:induction false} UnlistedWantsNone(agents: seq<Agent>, table: Os.Table, now: int, h: string)
    requires !Listed(agents, h)
    ensures Wanted(agents, table, now, h) == None
  {
    if agents != [] {
      var n := |agents| - 1;
      forall i | 0 <= i < n
        ensures agents[..n][i].id != h
      {
        assert agents[i].id != h;
      }
      UnlistedWantsNone(agents[..n], table, now, h);
    }
  }

  /** After the listed hosts, each host is done or stale. */
  lemma DoneOrStale(events: seq<Event>, before: map<string, string>, last: map<string, string>, agents: seq<Agent>,
                    table: Os.Table, now: int, h: string)
    requires PartWay(events, before, last, agents, table, now, h)
    ensures if h in last && !Listed(agents, h) then Stale(events, before, last, agents, h)
            else Done(events, before, last, agents, table, now, h)
  {
    if !Listed(agents, h) {
      UnlistedWantsNone(agents, table, now, h);
    }
  }

  lemma ForgetDoes(events: seq<Event>, before: map<string, string>, last: map<string, string>, agents: seq<Agent>,
                   table: Os.Table, now: int, id: string)
    requires Stale(events, before, last, agents, id)
    ensures Done(events + Forgotten(last, id, now), before, last - {id}, agents, table, now, id)
  {
    UnlistedWantsNone(agents, table, now, id);
    forall held | Fits(held, before, id)
      ensures TakenAll(held, id, events + Forgotten(last, id, now)) == None
    {
      TakenAppend(held, id, events, Forgotten(last, id, now));
      ForgottenTakes(last, id, now, held);
    }
  }

  lemma ForgetSpares(events: seq<Event>, before: map<string, string>, last: map<string, string>, agents: seq<Agent>,
                     table: Os.Table, now: int, id: string, h: string)
    requires h != id
    ensures Stale(events, before, last, agents, h) ==>
            Stale(events + Forgotten(last, id, now), before, last - {id}, agents, h)
    ensures Done(events, before, last, agents, table, now, h) ==>
              Done(events + Forgotten(last, id, now), before, last - {id}, agents, table, now, h)
  {
    var more := Forgotten(last, id, now);
    forall held
      ensures TakenAll(held, h, events + more) == TakenAll(held, h, events)
    {
      TakenAppend(held, h, events, more);
      OtherHostTakes(TakenAll(held, h, events), h, more);
    }
  }

  /** Where the second half of a pass stands: the hosts still to forget, and the rest. */
  ghost predicate Forgetting(events: seq<Event>, before: map<string, string>, last: map<string, string>,
                             agents: seq<Agent>, table: Os.Table, now: int, gone: set<string>)
  {
    forall h :: if h in gone then Stale(events, before, last, agents, h)
      else Done(events, before, last, agents, table, now, h)
  }

  lemma ForgettingNext(events: seq<Event>, before: map<string, string>, last: map<string, string>, agents: seq<Agent>,
                       table: Os.Table, now: int, gone: set<string>, id: string)
    requires Forgetting(events, before, last, agents, table, now, gone) && id in gone
    ensures Forgetting(events + Forgotten(last, id, now), before, last - {id}, agents, table, now, gone - {id})
  {
    forall h
      ensures if h in gone - {id} then Stale(events + Forgotten(last, id, now), before, last - {id}, agents, h)
              else Done(events + Forgotten(last, id, now), before, last - {id}, agents, table, now, h)
    {
      if h == id {
        ForgetDoes(events, before, last, agents, table, now, id);
      } else {
        ForgetSpares(events, before, last, agents, table, now, id, h);
      }
    }
  }

  lemma StartForgetting(events: seq<Event>, before: map<string, string>, last: map<string, string>, agents: seq<Agent>,
                        table: Os.Table, now: int, gone: set<string>)
    requires forall h :: PartWay(events, before, last, agents, table, now, h)
    requires forall h :: h in gone <==> h in last && !Listed(agents, h)
    ensures Forgetting(events, before, last, agents, table, now, gone)
  {
    forall h
      ensures if h in gone then Stale(events, before, last, agents, h)
              else Done(events, before, last, agents, table, now, h)
    {
      DoneOrStale(events, before, last, agents, table, now, h);
    }
  }

  class Service {
    var lastSeverity: map<string, string>

    constructor ()
      ensures lastSeverity == map[]
    {
      lastSeverity := map[];
    }

    method Evaluate(a: Agent, table: Os.Table, now: int) returns (events: seq<Event>)
      modifies this
      ensures events == Evaluated(old(lastSeverity), a, SeverityOf(a, table, now), now)
      ensures lastSeverity == Remembered(old(lastSeverity), a.id, SeverityOf(a, table, now))
    {
      var severity := SeverityOf(a, table, now);
      var wasCritical := a.id in lastSeverity && lastSeverity[a.id] == CRITICAL;
      if severity == "" {
        lastSeverity := lastSeverity - {a.id};
        return [Recovery(a, now)];
      }
      lastSeverity := lastSeverity[a.id := severity];
      events := [];
      if wasCritical && severity == WARNING {
        events := [Recovery(a, now)];
      }
      events := events + [Fire(a, severity, now)];
    }

    method Forget(h: string, now: int) returns (events: seq<Event>)
      modifies this
      ensures events == Forgotten(old(lastSeverity), h, now) && lastSeverity == old(lastSeverity) - {h}
    {
      if h !in lastSeverity {
        return [];
      }
      lastSeverity := lastSeverity - {h};
      events := [Gone(h, now)];
    }

    method SeedSeverities(store: map<nat, Alert>, listed: seq<nat>)
      requires lastSeverity == map[] && forall i :: i in listed ==> i in store
      modifies this
      ensures lastSeverity == Seeded(store, listed)
    {
      for i := 0 to |listed|
        invariant lastSeverity == Seeded(store, listed[..i])
      {
        assert listed[..i + 1][..i] == listed[..i];
        assert listed[i] in listed;
        var a := store[listed[i]];
        if a.key.source == HOST && a.key.alertType == OS_EOL {
          lastSeverity := lastSeverity[a.key.entityId := a.severity];
        }
      }
      assert listed[..|listed|] == listed;
    }

    /** The first half of a pass: every listed host. */
    method EvaluateListed(agents: seq<Agent>, table: Os.Table, now: int) returns (events: seq<Event>)
      requires Known(lastSeverity)
      modifies this
      ensures Known(lastSeverity)
      ensures forall h :: PartWay(events, old(lastSeverity), lastSeverity, agents, table, now, h)
    {
      events := [];
      for i := 0 to |agents|
        invariant Known(lastSeverity)
        invariant forall h :: PartWay(events, old(lastSeverity), lastSeverity, agents[..i], table, now, h)
      {
        forall h
          ensures var severity := SeverityOf(agents[i], table, now);
                  PartWay(events + Evaluated(lastSeverity, agents[i], severity, now), old(lastSeverity),
                          Remembered(lastSeverity, agents[i].id, severity), agents[..i] + [agents[i]], table, now, h)
        {
          PartWayNext(events, old(lastSeverity), lastSeverity, agents[..i], agents[i], table, now, h);
        }
        assert agents[..i + 1] == agents[..i] + [agents[i]];
        var more := Evaluate(agents[i], table, now);
        events := events + more;
      }
      assert agents[..|agents|] == agents;
    }

    method Present(agents: seq<Agent>) returns (ids: set<string>)
      ensures forall h :: h in ids <==> Listed(agents, h)
    {
      ids := {};
      for i := 0 to |agents|
        invariant forall h :: h in ids <==> exists j :: 0 <= j < i && agents[j].id == h
      {
        ids := ids + {agents[i].id};
      }
    }

    method ForgetGone(agents: seq<Agent>, ghost table: Os.Table, now: int, gone: set<string>, said: seq<Event>,
                      ghost before: map<string, string>)
      returns (events: seq<Event>)
      requires Forgetting(said, before, lastSeverity, agents, table, now, gone)
      modifies this
      ensures Forgetting(events, before, lastSeverity, agents, table, now, {})
    {
      events := said;
      var left := gone;
      while left != {}
        invariant Forgetting(events, before, lastSeverity, agents, table, now, left)
        decreases |left|
      {
        var id :| id in left;
        ForgettingNext(events, before, lastSeverity, agents, table, now, left, id);
        var more := Forget(id, now);
        events := events + more;
        left := left - {id};
      }
    }

    /**
     * A whole pass: whatever alerts the hosts have, the events leave every host of the fleet
     * with exactly the alert its state calls for and every other host without one, and that
     * is what the service remembers.
     */
    method EvaluateAll(agents: seq<Agent>, table: Os.Table, now: int) returns (events: seq<Event>)
      requires Known(lastSeverity)
      modifies this
      ensures Forgetting(events, old(lastSeverity), lastSeverity, agents, table, now, {})
    {
      events := EvaluateListed(agents, table, now);
      var present := Present(agents);
      var gone := lastSeverity.Keys - present;
      StartForgetting(events, old(lastSeverity), lastSeverity, agents, table, now, gone);
      events := ForgetGone(agents, table, now, gone, events, old(lastSeverity));
    }

    /** One host: found in the list, or forgotten. */
    method EvaluateAgent(agents: seq<Agent>, id: string, table: Os.Table, now: int) returns (events: seq<Event>)
      modifies this
      ensures Listed(agents, id) ==>
                exists i :: 0 <= i < |agents| && agents[i].id == id
                            && events == Evaluated(old(lastSeverity), agents[i], SeverityOf(agents[i], table, now), now)
                            && lastSeverity == Remembered(old(lastSeverity), id, SeverityOf(agents[i], table, now))
      ensures !Listed(agents, id) ==>
                events == Forgotten(old(lastSeverity), id, now) && lastSeverity == old(lastSeverity) - {id}
    {
      for i := 0 to |agents|
        invariant lastSeverity == old(lastSeverity)
        invariant forall j :: 0 <= j < i ==> agents[j].id != id
      {
        if agents[i].id == id {
          events := Evaluate(agents[i], table, now);
          return;
        }
      }
      events := Forget(id, now);
    }
  }

  /** After any run, a whole pass settles every host, in the fleet or gone from it. */
  lemma PassSettlesFleet(actions: seq<Action>, w: World, agents: seq<Agent>, table: Os.Table, now: int,
                         events: seq<Event>, last: map<string, string>, h: string)
    requires Runs(EMPTY_WORLD, actions, w) && Forgetting(events, w.last, last, agents, table, now, {})
    ensures Held(HandleAll(w.engine, w.queue + events), h) == Wanted(agents, table, now, h)
  {
    EmptyHolds();
    EveryRunKeeps(EMPTY_WORLD, actions, w);
    assert HostInv(w, h) && Done(events, w.last, last, agents, table, now, h);
    TakenIsHeld(w.engine, h, w.queue + events);
    TakenAppend(Held(w.engine, h), h, w.queue, events);
  }
}
