/** What a restart costs the channels: two runs, each of one alert and its recovery. */
module NotificationRestarts {
  import opened AlertEngine
  import opened Dispatch
  import opened Notifications

  const CHANNEL := "c"
  const ROUTES := Routes([Trigger("", "", "", true, [CHANNEL])], map[CHANNEL := true], {})
  const RECOVER := Process(FIRE.(severity := INFO, isRecover := true, timestamp := 2), false, NO_FAULTS)

  lemma EveryoneIsTold(m: Sent)
    ensures Reaches(ROUTES, m, [CHANNEL])
  {
    assert Matches(ROUTES.triggers[0], m.routeBy) && CHANNEL in ROUTES.triggers[0].channelIds;
  }

  /** One alert is active, and the store and the map hold it. */
  ghost predicate Firing(s: State) {
    && s.active.Keys == {STOPPED} && s.store == map[0 := s.active[STOPPED]]
    && s.store[0].id == 0 && s.store[0].key == STOPPED && s.store[0].status.Active?
  }

  lemma FiresFirst(names: Names) returns (v: World)
    ensures Reachable(ROUTES, names, v) && Firing(v.engine) && v.lives == L.FIRST
    ensures |v.ledger.sent| == 1 && v.ledger == Ledger(v.ledger.sent, [CHANNEL], [], {})
    ensures v.ledger.sent[0].payload.id == 0
  {
    var a := Handles(OPEN, [CHANNEL]);
    EveryoneIsTold(Sends(EMPTY_STATE, OPEN)[0]);
    assert Runs(ROUTES, names, FIRST, [], FIRST);
    ReachableNext(ROUTES, names, FIRST, a);
    v := Next(ROUTES, names, FIRST, a);
  }

  lemma RestartsFiring(names: Names, w: World) returns (v: World)
    requires Reachable(ROUTES, names, w) && Firing(w.engine) && N.WellFormed(w.lives.now)
    ensures Reachable(ROUTES, names, v) && Firing(v.engine)
    ensures v.lives == L.Rebooted(w.lives) && v.ledger == CutOff(w.ledger)
  {
    IndexedNames(w.engine.store, [0]);
    assert Indexed(w.engine.store, [0]) == map[STOPPED := w.engine.store[0]];
    ReachableNext(ROUTES, names, w, Reboot([0]));
    v := Next(ROUTES, names, w, Reboot([0]));
  }

  lemma Recovers(names: Names, w: World) returns (v: World)
    requires Reachable(ROUTES, names, w) && Firing(w.engine) && N.WellFormed(w.lives.now) && w.ledger.todo == []
    ensures Reachable(ROUTES, names, v) && v.lives == w.lives
    ensures |v.ledger.sent| == |w.ledger.sent| + 1 && w.ledger.sent <= v.ledger.sent
    ensures v.ledger == w.ledger.(sent := v.ledger.sent, todo := [CHANNEL])
    ensures var m := v.ledger.sent[|w.ledger.sent|]; m.payload.id == 0 && m.routeBy.status.Resolved?
  {
    var a := Handles(RECOVER, [CHANNEL]);
    EveryoneIsTold(Sends(w.engine, RECOVER)[0]);
    ReachableNext(ROUTES, names, w, a);
    v := Next(ROUTES, names, w, a);
  }

  /** An idle notifier takes the delivery that is due. */
  lemma OffersIdle(names: Names, w: World, next: nat) returns (v: World)
    requires Reachable(ROUTES, names, w)
    requires w.ledger.todo == [CHANNEL] && w.ledger.sent != [] && w.lives.now == L.Restarted(next)
    ensures Reachable(ROUTES, names, v) && v.engine == w.engine && v.lives == w.lives.(now := v.lives.now)
    ensures var t, now := Due(w.ledger, names, next), v.lives.now;
            && v.ledger == w.ledger.(todo := [], told := w.ledger.told + [t])
            && N.WellFormed(now) && now.accepted == [t.job] && now.next == next + 1 && now.log == []
            && now.lanes[N.LaneOf(t.job.stream)] == N.IDLE.(queue := [t.job])
  {
    ReachableNext(ROUTES, names, w, Offer);
    v := Next(ROUTES, names, w, Offer);
    assert w.ledger.todo[1..] == [];
  }

  lemma TakesUp(names: Names, w: World, b: N.Job) returns (v: World)
    requires Reachable(ROUTES, names, w)
    requires var now := w.lives.now;
             N.WellFormed(now) && now.log == [] && now.lanes[N.LaneOf(b.stream)] == N.IDLE.(queue := [b])
    ensures Reachable(ROUTES, names, v) && v.ledger == w.ledger && v.lives == w.lives.(now := v.lives.now)
    ensures v.lives.now.log == [N.Started(b)] && v.lives.now.accepted == w.lives.now.accepted
  {
    var take := Worker(N.Take(N.LaneOf(b.stream), N.Clear));
    ReachableNext(ROUTES, names, w, take);
    v := Next(ROUTES, names, w, take);
  }

  /** The job that waits alone when the process restarts is lost. */
  lemma WaitingIsLost(v: L.Lives, a: N.Job)
    requires N.WellFormed(v.now) && v.now.accepted == [a] && v.gone == []
    requires a in v.now.lanes[N.LaneOf(a.stream)].queue
    ensures a in L.Rebooted(v).lost && a in L.Rebooted(v).gone
  {
    assert L.HeldIn(v.now.lanes[N.LaneOf(a.stream)], a);
  }

  lemma Overtaken(names: Names, v: World, a: N.Job, b: N.Job)
    requires Inv(ROUTES, names, v) && v.lives.now.log == [N.Started(b)] && v.lives.now.accepted == [b]
    requires a in v.lives.lost && a in v.lives.gone && a.stream == b.stream && a.id < b.id
    ensures O.HasMark(L.Log(v.lives), b) && !O.WhollyBefore(L.Log(v.lives), a, b)
  {
    var log := L.Log(v.lives);
    assert log[|log| - 1].job == b;
    L.OrderIff(v.lives, a, b);
  }

  /** Fired, accepted, restarted, recovered: both dispatches made, the first delivery lost, the second due. */
  lemma LosesFirst(names: Names) returns (v: World, a: N.Job)
    ensures Reachable(ROUTES, names, v) && v.lives.now == L.Restarted(1) && a in v.lives.lost && a in v.lives.gone
    ensures v.ledger.todo == [CHANNEL] && |v.ledger.sent| == 2 && v.ledger.told == [Told(a, 0, CHANNEL)]
    ensures v.ledger.sent[0].payload.id == v.ledger.sent[1].payload.id == 0
    ensures v.ledger.sent[1].routeBy.status.Resolved?
    ensures a == N.Job(0, StreamFor(names, v.ledger.sent[0], CHANNEL), false)
  {
    var w1 := FiresFirst(names);
    assert w1.lives.now == L.Restarted(0);
    var w2 := OffersIdle(names, w1, 0);
    a := w2.ledger.told[0].job;
    var w3 := RestartsFiring(names, w2);
    WaitingIsLost(w2.lives, a);
    v := Recovers(names, w3);
  }

  /**
   * The alert's delivery is accepted and waits when the process restarts; the recovery's delivery
   * is taken up by the new process, and the first one is never over.
   */
  lemma RestartOvertakes(names: Names) returns (v: World)
    ensures Reachable(ROUTES, names, v) && Successive(v, 0, 1)
    ensures v.ledger.told[1].dispatch == 1 && v.ledger.sent[1].routeBy.status.Resolved?
    ensures !O.WhollyBefore(L.Log(v.lives), v.ledger.told[0].job, v.ledger.told[1].job)
  {
    var w, a := LosesFirst(names);
    var u := OffersIdle(names, w, 1);
    var b := u.ledger.told[1].job;
    v := TakesUp(names, u, b);
    ReachableInv(ROUTES, names, v);
    Overtaken(names, v, a, b);
  }

  /** The process restarts before the alert's dispatch reached the channel: the recovery is all the channel hears. */
  lemma RestartSilencesAlert(names: Names) returns (v: World)
    ensures Reachable(ROUTES, names, v) && |v.ledger.told| == 1 && |v.ledger.sent| == 2
    ensures v.ledger.told[0].dispatch == 1 && v.ledger.sent[1].routeBy.status.Resolved?
    ensures v.ledger.told[0].channel == CHANNEL && v.ledger.told[0].job in v.lives.now.accepted
  {
    var w1 := FiresFirst(names);
    var w2 := RestartsFiring(names, w1);
    var w3 := Recovers(names, w2);
    v := OffersIdle(names, w3, 0);
  }
}
