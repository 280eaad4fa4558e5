/**
 * From an event to the channels: the engine's dispatches (internal/alert/engine.go) feed the
 * notifier's queues (internal/alert/notifier.go) one delivery at a time, while its workers run
 * and the process may restart.
 */
module Notifications {
  import opened AlertEngine
  import opened Dispatch
  import N = Notifier
  import O = NotifierOrder
  import L = NotifierLives

  /** How alert and channel ids are written as bytes. */
  datatype Names = Names(alert: nat -> seq<bv8>, channel: string -> seq<bv8>)

  /** One delivery handed to the notifier: its job, the dispatch it belongs to and its channel. */
  datatype Told = Told(job: N.Job, dispatch: nat, channel: string)

  /**
   * The dispatches so far; the channels the last one has still to reach; the deliveries made, in
   * order; and the dispatches and channels a restart cut off.
   */
  datatype Ledger = Ledger(sent: seq<Sent>, todo: seq<string>, told: seq<Told>, cut: set<(int, string)>)

  datatype World = World(engine: State, lives: L.Lives, ledger: Ledger)

  const FIRST := World(EMPTY_STATE, L.FIRST, Ledger([], [], [], {}))

  function StreamFor(names: Names, m: Sent, channel: string): (s: N.Stream) {
    N.OfAlert(names.alert(m.payload.id), names.channel(channel))
  }

  /** The delivery next in turn. */
  function Due(b: Ledger, names: Names, next: nat): (t: Told)
    requires b.todo != [] && b.sent != []
  {
    var k := |b.sent| - 1;
    Told(N.Job(next, StreamFor(names, b.sent[k], b.todo[0]), false), k, b.todo[0])
  }

  function Made(b: Ledger, t: Told): (r: Ledger)
    requires b.todo != []
  {
    b.(todo := b.todo[1..], told := b.told + [t])
  }

  function Begun(b: Ledger, m: Sent, channels: seq<string>): (r: Ledger) {
    b.(sent := b.sent + [m], todo := channels)
  }

  function CutOff(b: Ledger): (r: Ledger) {
    b.(todo := [], cut := b.cut + set c | c in b.todo :: (|b.sent| - 1, c))
  }

  datatype Action =
    | Handles(op: Op, channels: seq<string>)
    | Offer
    | Worker(step: N.Action)
    | Reboot(listed: seq<nat>)

  /** The engine takes one event after the other; its other operations may come while it dispatches. */
  ghost predicate CanHandle(r: Routes, w: World, op: Op, channels: seq<string>) {
    && Enabled(w.engine, op) && Faultless(op) && !op.Restart?
    && (op.Process? ==> w.ledger.todo == [])
    && (if Sends(w.engine, op) == [] then channels == [] else Reaches(r, Sends(w.engine, op)[0], channels))
  }

  ghost predicate Can(r: Routes, w: World, a: Action) {
    && N.WellFormed(w.lives.now)
    && match a
       case Handles(op, channels) => CanHandle(r, w, op, channels)
       case Offer => w.ledger.todo != [] && w.ledger.sent != []
       case Worker(step) => N.Enabled(w.lives.now, step)
       case Reboot(listed) => ListsActive(w.engine.store, listed)
  }

  /** What a dispatch goes through: each recipient once. */
  ghost predicate Reaches(r: Routes, m: Sent, channels: seq<string>) {
    Distinct(channels) && forall c :: c in channels <==> Recipient(r, m.routeBy, c)
  }

  ghost function Next(r: Routes, names: Names, w: World, a: Action): (v: World)
    requires Can(r, w, a)
  {
    match a
    case Handles(op, channels) =>
      var out := Sends(w.engine, op);
      w.(engine := Apply(w.engine, op), ledger := if out == [] then w.ledger else Begun(w.ledger, out[0], channels))
    case Offer =>
      var t := Due(w.ledger, names, w.lives.now.next);
      w.(lives := L.Next(w.lives, L.Step(N.Enqueue(t.job.stream, false))), ledger := Made(w.ledger, t))
    case Worker(step) => w.(lives := L.Next(w.lives, L.Step(step)))
    case Reboot(listed) =>
      World(Apply(w.engine, Restart(listed)), L.Next(w.lives, L.Reboot), CutOff(w.ledger))
  }

  ghost predicate Runs(r: Routes, names: Names, w: World, actions: seq<Action>, v: World)
    decreases |actions|
  {
    if actions == [] then v == w
    else Can(r, w, actions[0]) && Runs(r, names, Next(r, names, w, actions[0]), actions[1..], v)
  }

  lemma {:induction false} RunsOn(r: Routes, names: Names, w: World, actions: seq<Action>, u: World, a: Action)
    requires Runs(r, names, w, actions, u) && Can(r, u, a)
    ensures Runs(r, names, w, actions + [a], Next(r, names, u, a))
    decreases |actions|
  {
    if actions == [] {
      assert [a][1..] == [];
    } else {
      RunsOn(r, names, Next(r, names, w, actions[0]), actions[1..], u, a);
      assert (actions + [a])[1..] == actions[1..] + [a];
    }
  }

  ghost predicate Reachable(r: Routes, names: Names, v: World) {
    exists actions :: Runs(r, names, FIRST, actions, v)
  }

  lemma ReachableNext(r: Routes, names: Names, w: World, a: Action)
    requires Reachable(r, names, w) && Can(r, w, a)
    ensures Reachable(r, names, Next(r, names, w, a))
  {
    var actions :| Runs(r, names, FIRST, actions, w);
    RunsOn(r, names, FIRST, actions, w, a);
  }

  // ---------------------------------------------------------------- what a run loses

  /** A restart of the run finds the job waiting or in a worker's hands. */
  ghost predicate LosesJob(r: Routes, names: Names, w: World, actions: seq<Action>, j: N.Job)
    decreases |actions|
  {
    && actions != [] && Can(r, w, actions[0])
    && ((actions[0].Reboot? && j in w.lives.now.accepted && L.Held(w.lives.now, j))
        || LosesJob(r, names, Next(r, names, w, actions[0]), actions[1..], j))
  }

  /** The dispatch has still to reach the channel. */
  predicate Pending(b: Ledger, k: int, c: string) {
    k == |b.sent| - 1 && c in b.todo
  }

  /** A restart of the run comes before the dispatch reached the channel. */
  ghost predicate CutsShort(r: Routes, names: Names, w: World, actions: seq<Action>, k: nat, c: string)
    decreases |actions|
  {
    && actions != [] && Can(r, w, actions[0])
    && ((actions[0].Reboot? && Pending(w.ledger, k, c))
        || CutsShort(r, names, Next(r, names, w, actions[0]), actions[1..], k, c))
  }

  lemma {:induction false} LostIff(r: Routes, names: Names, w: World, actions: seq<Action>, v: World, j: N.Job)
    requires Runs(r, names, w, actions, v)
    ensures j in v.lives.lost <==> j in w.lives.lost || LosesJob(r, names, w, actions, j)
    decreases |actions|
  {
    if actions != [] {
      LostIff(r, names, Next(r, names, w, actions[0]), actions[1..], v, j);
    }
  }

  lemma {:induction false} CutIff(r: Routes, names: Names, w: World, actions: seq<Action>, v: World, k: nat, c: string)
    requires Runs(r, names, w, actions, v)
    ensures (k, c) in v.ledger.cut <==> (k, c) in w.ledger.cut || CutsShort(r, names, w, actions, k, c)
    decreases |actions|
  {
    if actions != [] {
      CutIff(r, names, Next(r, names, w, actions[0]), actions[1..], v, k, c);
    }
  }

  // ---------------------------------------------------------------- the ledger

  ghost predicate Delivered(told: seq<Told>, k: nat, c: string) {
    exists i :: 0 <= i < |told| && told[i].dispatch == k && told[i].channel == c
  }

  /** Each dispatch has a delivery for exactly its recipients, those not yet reached or cut off apart. */
  ghost predicate Exact(r: Routes, b: Ledger) {
    forall k, c :: 0 <= k < |b.sent| ==>
      (Delivered(b.told, k, c) <==> Recipient(r, b.sent[k].routeBy, c) && !Pending(b, k, c) && (k, c) !in b.cut)
  }

  /** Deliveries come dispatch by dispatch, each channel once. */
  ghost predicate Once(told: seq<Told>) {
    forall i, j :: 0 <= i < j < |told| ==>
      told[i].dispatch < told[j].dispatch
      || (told[i].dispatch == told[j].dispatch && told[i].channel != told[j].channel)
  }

  ghost predicate Sound(r: Routes, b: Ledger) {
    && (forall i :: 0 <= i < |b.told| ==> b.told[i].dispatch < |b.sent|)
    && (forall k, c :: (k, c) in b.cut ==> k < |b.sent| && !Pending(b, k, c))
    && Distinct(b.todo) && (b.todo != [] ==> b.sent != [])
    && (forall c :: c in b.todo ==> Recipient(r, b.sent[|b.sent| - 1].routeBy, c))
  }

  ghost predicate LedgerInv(r: Routes, b: Ledger) {
    Exact(r, b) && Once(b.told) && Sound(r, b)
  }

  lemma BegunKeeps(r: Routes, b: Ledger, m: Sent, channels: seq<string>)
    requires LedgerInv(r, b) && b.todo == [] && Reaches(r, m, channels)
    ensures LedgerInv(r, Begun(b, m, channels))
  {
    var n := Begun(b, m, channels);
    forall k, c | 0 <= k < |n.sent|
      ensures Delivered(n.told, k, c) <==> Recipient(r, n.sent[k].routeBy, c) && !Pending(n, k, c) && (k, c) !in n.cut
    {
      if k < |b.sent| {
        assert n.sent[k] == b.sent[k];
      }
    }
  }

  lemma DeliveredMore(told: seq<Told>, t: Told, k: nat, c: string)
    ensures Delivered(told + [t], k, c) <==> Delivered(told, k, c) || (t.dispatch == k && t.channel == c)
  {
    if Delivered(told, k, c) {
      var i :| 0 <= i < |told| && told[i].dispatch == k && told[i].channel == c;
      assert (told + [t])[i] == told[i];
    }
    assert (told + [t])[|told|] == t;
  }

  lemma MadeKeeps(r: Routes, b: Ledger, t: Told)
    requires LedgerInv(r, b) && b.todo != [] && t.dispatch == |b.sent| - 1 && t.channel == b.todo[0]
    ensures LedgerInv(r, Made(b, t))
  {
    var n := Made(b, t);
    forall k, c | 0 <= k < |n.sent|
      ensures Delivered(n.told, k, c) <==> Recipient(r, n.sent[k].routeBy, c) && !Pending(n, k, c) && (k, c) !in n.cut
    {
      DeliveredMore(b.told, t, k, c);
      assert c in b.todo <==> c == b.todo[0] || c in n.todo;
    }
    assert forall c :: c in n.todo ==> c in b.todo;
    forall i | 0 <= i < |b.told|
      ensures b.told[i].dispatch < t.dispatch || (b.told[i].dispatch == t.dispatch && b.told[i].channel != t.channel)
    {
      assert Delivered(b.told, b.told[i].dispatch, b.told[i].channel);
    }
  }

  lemma CutOffKeeps(r: Routes, b: Ledger)
    requires LedgerInv(r, b)
    ensures LedgerInv(r, CutOff(b))
  {
    var n := CutOff(b);
    forall k, c | 0 <= k < |n.sent|
      ensures (k, c) in n.cut <==> (k, c) in b.cut || Pending(b, k, c)
    {
    }
  }

  // ---------------------------------------------------------------- the dispatches

  /** A dispatch shows the alert it is routed by, and that of a recovery follows one that announced the alert. */
  ghost predicate SentInv(sent: seq<Sent>) {
    forall d :: 0 <= d < |sent| ==> SentWell(sent, d)
  }

  ghost predicate SentWell(sent: seq<Sent>, d: nat)
    requires d < |sent|
  {
    && sent[d].payload.id == sent[d].routeBy.id
    && (sent[d].routeBy.status.Resolved? ==> exists k :: 0 <= k < d && Announces(sent[k], sent[d].routeBy))
  }

  lemma SendsAtMostOne(s: State, op: Op)
    requires MirrorsStore(s)
    ensures |Sends(s, op)| <= 1
    ensures Sends(s, op) != [] ==> op.Process? && Sends(s, op)[0].payload.id == Sends(s, op)[0].routeBy.id
  {
  }

  /** Only a recovery routes by a resolved alert. */
  lemma ResolvedIsRecovery(s: State, op: Op)
    requires MirrorsStore(s) && Sends(s, op) != [] && Sends(s, op)[0].routeBy.status.Resolved?
    ensures op.Process? && op.evt.isRecover && op.evt.key in s.active
    ensures Sends(s, op)[0] == RecoveryNotice(s.active[op.evt.key], op.evt, s.next)
  {
  }

  lemma SentMore(s: State, op: Op, sent: seq<Sent>)
    requires MirrorsStore(s) && AllTold(sent, s) && SentInv(sent) && Sends(s, op) != []
    ensures SentInv(sent + [Sends(s, op)[0]])
  {
    var m, more := Sends(s, op)[0], sent + [Sends(s, op)[0]];
    SendsAtMostOne(s, op);
    forall d | 0 <= d < |more|
      ensures SentWell(more, d)
    {
      if d < |sent| {
        assert SentWell(sent, d) && more[d] == sent[d];
        if m0 :| 0 <= m0 < d && Announces(sent[m0], sent[d].routeBy) {
          assert more[m0] == sent[m0];
        }
      } else if m.routeBy.status.Resolved? {
        ResolvedIsRecovery(s, op);
        var a := s.active[op.evt.key];
        var k :| 0 <= k < |sent| && Announces(sent[k], a);
        assert more[k] == sent[k] && Announces(more[k], m.routeBy);
      }
    }
  }

  // ---------------------------------------------------------------- the invariant

  /** Deliveries carry ever higher job ids, each on the stream of its alert and channel. */
  ghost predicate JobInv(names: Names, b: Ledger, next: nat) {
    && (forall i, j :: 0 <= i < j < |b.told| ==> b.told[i].job.id < b.told[j].job.id)
    && (forall i :: 0 <= i < |b.told| ==>
          && b.told[i].job.id < next && b.told[i].dispatch < |b.sent|
          && b.told[i].job.stream == StreamFor(names, b.sent[b.told[i].dispatch], b.told[i].channel))
  }

  ghost predicate Inv(r: Routes, names: Names, w: World) {
    && L.LivesInv(w.lives) && LedgerInv(r, w.ledger) && JobInv(names, w.ledger, w.lives.now.next)
    && MirrorsStore(w.engine) && AllTold(w.ledger.sent, w.engine) && SentInv(w.ledger.sent)
  }

  lemma FirstInv(r: Routes, names: Names)
    ensures Inv(r, names, FIRST)
  {
    L.FirstInv();
  }

  lemma HandlesKeeps(r: Routes, names: Names, w: World, op: Op, channels: seq<string>)
    requires Inv(r, names, w) && Can(r, w, Handles(op, channels))
    ensures Inv(r, names, Next(r, names, w, Handles(op, channels)))
  {
    var b, out := w.ledger, Sends(w.engine, op);
    StepTold(w.engine, op, b.sent);
    SendsAtMostOne(w.engine, op);
    if out == [] {
      assert b.sent + out == b.sent;
    } else {
      assert out == [out[0]];
      BegunKeeps(r, b, out[0], channels);
      SentMore(w.engine, op, b.sent);
    }
  }

  lemma JobMore(names: Names, b: Ledger, next: nat)
    requires JobInv(names, b, next) && b.todo != [] && b.sent != []
    ensures JobInv(names, Made(b, Due(b, names, next)), next + 1)
  {
  }

  lemma OfferKeeps(r: Routes, names: Names, w: World)
    requires Inv(r, names, w) && Can(r, w, Offer)
    ensures Inv(r, names, Next(r, names, w, Offer))
  {
    var t := Due(w.ledger, names, w.lives.now.next);
    L.StepKeeps(w.lives, N.Enqueue(t.job.stream, false));
    MadeKeeps(r, w.ledger, t);
    JobMore(names, w.ledger, w.lives.now.next);
    EnqueuedNext(w.lives.now, t.job.stream);
  }

  lemma EnqueuedNext(w: N.World, stream: N.Stream)
    requires |w.lanes| == N.WORKERS
    ensures N.Enqueued(w, stream, false).next == w.next + 1
  {
  }

  lemma WorkerKeeps(r: Routes, names: Names, w: World, step: N.Action)
    requires Inv(r, names, w) && Can(r, w, Worker(step))
    ensures Inv(r, names, Next(r, names, w, Worker(step)))
  {
    L.StepKeeps(w.lives, step);
    L.StepMarks(w.lives.now, step);
  }

  lemma RebootKeeps(r: Routes, names: Names, w: World, listed: seq<nat>)
    requires Inv(r, names, w) && Can(r, w, Reboot(listed))
    ensures Inv(r, names, Next(r, names, w, Reboot(listed)))
  {
    L.RebootKeeps(w.lives);
    CutOffKeeps(r, w.ledger);
    StepTold(w.engine, Restart(listed), w.ledger.sent);
    assert w.ledger.sent + [] == w.ledger.sent;
  }

  lemma {:induction false} EveryRunKeeps(r: Routes, names: Names, w: World, actions: seq<Action>, v: World)
    requires Inv(r, names, w) && Runs(r, names, w, actions, v)
    ensures Inv(r, names, v)
    decreases |actions|
  {
    if actions != [] {
      match actions[0] {
        case Handles(op, channels) => HandlesKeeps(r, names, w, op, channels);
        case Offer => OfferKeeps(r, names, w);
        case Worker(step) => WorkerKeeps(r, names, w, step);
        case Reboot(listed) => RebootKeeps(r, names, w, listed);
      }
      EveryRunKeeps(r, names, Next(r, names, w, actions[0]), actions[1..], v);
    }
  }

  lemma ReachableInv(r: Routes, names: Names, v: World)
    requires Reachable(r, names, v)
    ensures Inv(r, names, v)
  {
    var actions :| Runs(r, names, FIRST, actions, v);
    FirstInv(r, names);
    EveryRunKeeps(r, names, FIRST, actions, v);
  }

  // ---------------------------------------------------------------- end to end

  /**
   * After any run of events, workers and restarts: a dispatch has made a delivery to a channel,
   * and one only, if and only if the channel is a recipient, its turn has come, and no restart
   * came before that.
   */
  lemma EveryRecipientIsToldIff(r: Routes, names: Names, actions: seq<Action>, v: World, k: nat, c: string)
    requires Runs(r, names, FIRST, actions, v) && k < |v.ledger.sent|
    ensures Delivered(v.ledger.told, k, c) <==>
              && Recipient(r, v.ledger.sent[k].routeBy, c) && !Pending(v.ledger, k, c)
              && !CutsShort(r, names, FIRST, actions, k, c)
    ensures Once(v.ledger.told)
  {
    FirstInv(r, names);
    EveryRunKeeps(r, names, FIRST, actions, v);
    CutIff(r, names, FIRST, actions, v, k, c);
  }

  /** A delivery of dispatch `k` to the channel comes before delivery `j`. */
  ghost predicate ToldBefore(told: seq<Told>, j: nat, k: nat)
    requires j < |told|
  {
    exists i :: 0 <= i < j && told[i].dispatch == k && told[i].channel == told[j].channel
  }

  /** A recovery's delivery follows one of dispatch `k`, which announced the alert, unless a restart cut that off. */
  lemma FollowsUnlessCut(r: Routes, names: Names, w: World, j: nat, k: nat)
    requires Inv(r, names, w) && j < |w.ledger.told|
    requires var b := w.ledger; var d := b.told[j].dispatch;
             b.sent[d].routeBy.status.Resolved? && k < d && Announces(b.sent[k], b.sent[d].routeBy)
    ensures ToldBefore(w.ledger.told, j, k) <==> (k, w.ledger.told[j].channel) !in w.ledger.cut
  {
    var b := w.ledger;
    var c, closed := b.told[j].channel, b.sent[b.told[j].dispatch].routeBy;
    assert Delivered(b.told, b.told[j].dispatch, c);
    ClosedMatchesLess(r, b.sent[k].routeBy, closed);
    assert Recipient(r, b.sent[k].routeBy, c);
    if Delivered(b.told, k, c) {
      var i :| 0 <= i < |b.told| && b.told[i].dispatch == k && b.told[i].channel == c;
      assert i < j;
    }
  }

  /**
   * Every delivery of a recovery: the alert was announced, at its final severity, by an earlier
   * dispatch, and each such dispatch had reached the channel before, if and only if no restart
   * cut it short there.
   */
  lemma RecoveryFollowsAlertIff(r: Routes, names: Names, actions: seq<Action>, v: World, j: nat)
    requires Runs(r, names, FIRST, actions, v) && j < |v.ledger.told|
    ensures v.ledger.told[j].dispatch < |v.ledger.sent|
    ensures var b := v.ledger;
            var d, c := b.told[j].dispatch, b.told[j].channel;
            b.sent[d].routeBy.status.Resolved? ==>
              && (exists k :: 0 <= k < d && Announces(b.sent[k], b.sent[d].routeBy))
              && (forall k :: 0 <= k < d && Announces(b.sent[k], b.sent[d].routeBy) ==>
                    (ToldBefore(b.told, j, k) <==> !CutsShort(r, names, FIRST, actions, k, c)))
  {
    FirstInv(r, names);
    EveryRunKeeps(r, names, FIRST, actions, v);
    var b := v.ledger;
    var d, c := b.told[j].dispatch, b.told[j].channel;
    assert SentWell(b.sent, d);
    if b.sent[d].routeBy.status.Resolved? {
      forall k | 0 <= k < d && Announces(b.sent[k], b.sent[d].routeBy)
        ensures ToldBefore(b.told, j, k) <==> !CutsShort(r, names, FIRST, actions, k, c)
      {
        FollowsUnlessCut(r, names, v, j, k);
        CutIff(r, names, FIRST, actions, v, k, c);
      }
    }
  }

  /** Two deliveries of one alert to one channel, the first accepted, the second with a sign. */
  ghost predicate Successive(w: World, i: nat, j: nat) {
    && i < j < |w.ledger.told|
    && var b := w.ledger;
       && b.told[i].dispatch < |b.sent| && b.told[j].dispatch < |b.sent|
       && b.told[i].channel == b.told[j].channel
       && b.sent[b.told[i].dispatch].payload.id == b.sent[b.told[j].dispatch].payload.id
       && b.told[i].job in L.Accepted(w.lives) && O.HasMark(L.Log(w.lives), b.told[j].job)
  }

  /**
   * Of two deliveries of one alert to one channel, a recovery and its alert among them, in any
   * run: once the later one shows a sign, the earlier accepted one is wholly over if and only if
   * no restart found it waiting or in a worker's hands.
   */
  lemma RecoveryComesLastIff(r: Routes, names: Names, actions: seq<Action>, v: World, i: nat, j: nat)
    requires Runs(r, names, FIRST, actions, v) && Successive(v, i, j)
    ensures var a, b := v.ledger.told[i].job, v.ledger.told[j].job;
            O.WhollyBefore(L.Log(v.lives), a, b) <==> !LosesJob(r, names, FIRST, actions, a)
  {
    FirstInv(r, names);
    EveryRunKeeps(r, names, FIRST, actions, v);
    var a, b := v.ledger.told[i].job, v.ledger.told[j].job;
    L.MarkedIsKnown(v.lives, b);
    L.OrderIff(v.lives, a, b);
    LostIff(r, names, FIRST, actions, v, a);
  }

  /** So within one process the later one always waits. */
  lemma RecoveryComesLastWithin(r: Routes, names: Names, actions: seq<Action>, v: World, i: nat, j: nat)
    requires Runs(r, names, FIRST, actions, v) && Successive(v, i, j) && v.ledger.told[i].job in v.lives.now.accepted
    ensures O.WhollyBefore(L.Log(v.lives), v.ledger.told[i].job, v.ledger.told[j].job)
  {
    FirstInv(r, names);
    EveryRunKeeps(r, names, FIRST, actions, v);
    L.MarkedIsKnown(v.lives, v.ledger.told[j].job);
    L.OrderIff(v.lives, v.ledger.told[i].job, v.ledger.told[j].job);
  }
}
