/**
 * When a refused row stops a stream's acknowledgements for good.
 *
 * A refusal freezes the tracker below the refused row until the agent replays from
 * there (internal/commercial/multihost/ack.go). The agent replays from its own ack,
 * and nothing keeps that ack below the refused row.
 */
module DeliveryFreeze {
  import opened RowLog
  import opened Spools
  import opened Delivery
  import opened DeliverySafety
  import opened DeliveryTheorems

  predicate KeepsStream(actions: seq<Action>) {
    HangUp !in actions && Crash !in actions
  }

  /** Nothing the agent stores above `floor`, holds or has in flight is readable and at or below the refused row. */
  ghost predicate Stuck(decodes: Payload -> bool, w: World, floor: int) {
    && w.link.Some?
    && var l, refused := w.link.value, w.link.value.tracker.refused;
    && 0 < refused < w.log.next
    && floor <= w.agent.ackSeq && floor <= w.agent.sendSeq
    && (forall r :: r in w.log.rows && floor < r.num && decodes(r.event.payload) ==> refused < r.num)
    && (forall j :: l.received <= j < |l.sent| ==> refused < l.sent[j].num)
    && (w.drain.Reading? ==> floor <= w.drain.after)
    && (InHand(w) ==> forall i :: 0 <= i < |w.drain.batch| ==>
          floor <= w.drain.batch[i].num && (decodes(w.drain.batch[i].event.payload) ==> refused < w.drain.batch[i].num))
    && (w.drain.Checked? ==> w.drain.batch != [] && decodes(w.drain.batch[0].event.payload))
  }

  ghost predicate SameTracker(w: World, u: World) {
    && w.link.Some? && u.link.Some?
    && u.link.value.tracker.refused == w.link.value.tracker.refused
    && u.link.value.tracker.highest == w.link.value.tracker.highest
  }

  lemma StuckReads(decodes: Payload -> bool, w: World, floor: int)
    requires Stuck(decodes, w, floor) && w.drain.Reading?
    ensures Stuck(decodes, Apply(decodes, w, Read), floor)
  {
    var all := Above(w.log.rows, w.drain.after);
    forall i | 0 <= i < |all|
      ensures all[i] in w.log.rows && w.drain.after < all[i].num
    {
      assert all[i] in all;
    }
  }

  lemma StuckMoves(decodes: Payload -> bool, w: World, floor: int)
    requires Stuck(decodes, w, floor) && (w.drain.Sending? || w.drain.Sent?) && w.drain.batch != []
    ensures Stuck(decodes, Moved(w), floor) && SameTracker(w, Moved(w))
  {
  }

  lemma StuckDrains(decodes: Payload -> bool, w: World, a: Action, floor: int)
    requires Stuck(decodes, w, floor) && Enabled(decodes, w, a) && ValidLog(w.log)
    requires a.Begin? || a.Check? || a.Push? || a.PushFails? || a.Stop?
    ensures Stuck(decodes, Apply(decodes, w, a), floor) && SameTracker(w, Apply(decodes, w, a))
  {
  }

  /** Rows above the refused one leave the tracker as it is, taken or refused. */
  lemma StuckHandles(decodes: Payload -> bool, w: World, accepts: bool, floor: int)
    requires Stuck(decodes, w, floor) && w.link.value.received < |w.link.value.sent|
    ensures Stuck(decodes, Handled(w, accepts), floor) && SameTracker(w, Handled(w, accepts))
  {
  }

  lemma StuckReceives(decodes: Payload -> bool, w: World, retryAfter: int, at: int, floor: int)
    requires Stuck(decodes, w, floor) && w.link.value.down != []
    ensures Stuck(decodes, Received(w, retryAfter, at), floor) && SameTracker(w, Received(w, retryAfter, at))
  {
  }

  lemma StuckStream(decodes: Payload -> bool, w: World, a: Action, floor: int)
    requires Stuck(decodes, w, floor) && Enabled(decodes, w, a)
    requires a.Attach? || a.Detach? || a.Cut? || a.Accept? || a.Refuse? || a.RefuseSnapshot? || a.SendAck? || a.Receive?
    ensures Stuck(decodes, Apply(decodes, w, a), floor) && SameTracker(w, Apply(decodes, w, a))
  {
    if a.Accept? || a.Refuse? {
      StuckHandles(decodes, w, a.Accept?, floor);
    } else if a.Receive? {
      StuckReceives(decodes, w, a.retryAfter, a.at, floor);
    }
  }

  lemma StuckStep(decodes: Payload -> bool, w: World, a: Action, floor: int)
    requires Stuck(decodes, w, floor) && Enabled(decodes, w, a) && !a.HangUp? && !a.Crash? && ValidLog(w.log)
    ensures Stuck(decodes, Apply(decodes, w, a), floor) && SameTracker(w, Apply(decodes, w, a))
  {
    if a.Read? {
      StuckReads(decodes, w, floor);
    } else if a.Skip? || a.Advance? {
      StuckMoves(decodes, w, floor);
    } else if a.Begin? || a.Check? || a.Push? || a.PushFails? || a.Stop? {
      StuckDrains(decodes, w, a, floor);
    } else if a.Attach? || a.Detach? || a.Cut? || a.Accept? || a.Refuse? || a.RefuseSnapshot? || a.SendAck?
      || a.Receive? {
      StuckStream(decodes, w, a, floor);
    } else {
      StepEvolves(decodes, w, a);
    }
  }

  /** Once stuck, no run on this stream moves the ack again, whatever the agent sends and the server takes. */
  lemma {:induction false} StuckForever(decodes: Payload -> bool, w: World, actions: seq<Action>, u: World, floor: int)
    requires Inv(decodes, w) && Stuck(decodes, w, floor) && Path(decodes, w, actions, u) && KeepsStream(actions)
    ensures Stuck(decodes, u, floor)
    ensures u.link.value.tracker.refused == w.link.value.tracker.refused
    ensures u.link.value.tracker.highest == w.link.value.tracker.highest
    decreases |actions|
  {
    if actions != [] {
      StuckStep(decodes, w, actions[0], floor);
      Step(decodes, w, actions[0]);
      StuckForever(decodes, Apply(decodes, w, actions[0]), actions[1..], u, floor);
    }
  }

  // ---------------------------------------------------------------- the way back

  /** A live, attached stream with nothing under way. */
  ghost predicate Quiet(w: World) {
    && w.attached && Live(w) && w.drain.Idle? && w.purge.None?
    && w.link.value.received == |w.link.value.sent| && w.link.value.down == []
  }

  ghost predicate Thaws(decodes: Payload -> bool, w: World) {
    exists actions, u :: KeepsStream(actions) && Path(decodes, w, actions, u) && u.link.Some?
      && u.link.value.tracker.refused == 0
  }

  lemma ThawsAfter(decodes: Payload -> bool, w: World, a: Action)
    requires Enabled(decodes, w, a) && !a.HangUp? && !a.Crash? && Thaws(decodes, Apply(decodes, w, a))
    ensures Thaws(decodes, w)
  {
    var actions, u :| KeepsStream(actions) && Path(decodes, Apply(decodes, w, a), actions, u)
      && u.link.Some? && u.link.value.tracker.refused == 0;
    var longer := [a] + actions;
    assert longer[1..] == actions;
    assert KeepsStream(longer) && Path(decodes, w, longer, u);
  }

  lemma ThawsNow(decodes: Payload -> bool, w: World)
    requires w.link.Some? && w.link.value.tracker.refused == 0
    ensures Thaws(decodes, w)
  {
    assert KeepsStream([]) && Path(decodes, w, [], w);
  }

  lemma InHandThaws(decodes: Payload -> bool, w: World)
    requires Live(w) && w.drain.Sending? && w.drain.batch != [] && decodes(w.drain.batch[0].event.payload)
    requires w.drain.gen == w.agent.generation && w.link.value.received == |w.link.value.sent|
    requires 0 < w.drain.batch[0].num <= w.link.value.tracker.refused
    ensures Thaws(decodes, w)
  {
    var w1 := Apply(decodes, w, Check);
    assert w1 == w.(drain := Checked(w.drain.gen, w.drain.batch));
    var w2 := Apply(decodes, w1, Push);
    assert w2.link.value.sent[w2.link.value.received] == w.drain.batch[0];
    ThawsNow(decodes, Handled(w2, true));
    ThawsAfter(decodes, w2, Accept);
    ThawsAfter(decodes, w1, Push);
    ThawsAfter(decodes, w, Check);
  }

  /** The batch in hand leads to `r`: it holds the row, or ends before it. */
  ghost predicate LeadsTo(w: World, r: Row) {
    && w.drain.Sending? && w.drain.batch != [] && Increasing(w.drain.batch)
    && (forall i :: 0 <= i < |w.drain.batch| ==> 0 < w.drain.batch[i].num && w.agent.sendSeq < w.drain.batch[i].num)
    && (r in w.drain.batch || forall i :: 0 <= i < |w.drain.batch| ==> w.drain.batch[i].num < r.num)
  }

  /** The rows a drain reads next lead to every stored row above its cursor. */
  lemma ReadLeads(decodes: Payload -> bool, w: World, r: Row)
    requires ValidLog(w.log) && w.drain.Reading? && w.drain.after == w.agent.sendSeq
    requires r in w.log.rows && w.agent.sendSeq < r.num
    ensures LeadsTo(Apply(decodes, w, Read), r)
  {
    var after := w.agent.sendSeq;
    var all := Above(w.log.rows, after);
    FilterIncreasing(w.log.rows, (x: Row) => after < x.num);
    assert r in all;
    var k :| 0 <= k < |all| && all[k] == r;
    var batch := Prefix(all, DRAIN_BATCH);
    forall i | 0 <= i < |batch|
      ensures 0 < batch[i].num && after < batch[i].num
    {
      assert batch[i] in all;
    }
    if k < |batch| {
      assert batch[k] == r;
    }
  }

  /** The unreadable row in hand is skipped, and the drain is one row further in its batch. */
  lemma SkipLeads(decodes: Payload -> bool, w: World, r: Row)
    requires LeadsTo(w, r) && w.drain.gen == w.agent.generation && r != w.drain.batch[0]
    ensures var v := Moved(w);
            && v.agent.sendSeq == w.drain.batch[0].num < r.num
            && (v.drain.Idle? || (LeadsTo(v, r) && v.drain.gen == v.agent.generation))
  {
    var batch := w.drain.batch;
    if r in batch {
      var i :| 0 <= i < |batch| && batch[i] == r;
      assert |batch| > 1 && r == batch[1..][i - 1];
    }
  }

  ghost predicate QuietOrSending(w: World) {
    && w.attached && Live(w) && (w.drain.Idle? || w.drain.Sending?) && w.purge.None?
    && w.link.value.received == |w.link.value.sent| && w.link.value.down == []
  }

  /** Row after row of the batch in hand, and then of the next one, until a readable row at or below the refused one
      goes out. */
  lemma {:induction false} ReplayThaws(decodes: Payload -> bool, w: World, r: Row)
    requires QuietOrSending(w) && ValidLog(w.log) && r in w.log.rows && decodes(r.event.payload)
    requires w.agent.sendSeq < r.num <= w.link.value.tracker.refused
    requires w.drain.Sending? ==> LeadsTo(w, r) && w.drain.gen == w.agent.generation
    ensures Thaws(decodes, w)
    decreases r.num - w.agent.sendSeq, if w.drain.Idle? then 1 else 0
  {
    if w.drain.Idle? {
      var begin := Begin(w.agent.pausedUntil);
      var w1 := Apply(decodes, w, begin);
      ReadLeads(decodes, w1, r);
      ReplayThaws(decodes, Apply(decodes, w1, Read), r);
      ThawsAfter(decodes, w1, Read);
      ThawsAfter(decodes, w, begin);
    } else {
      BatchStartsBelow(w, r);
      if decodes(w.drain.batch[0].event.payload) {
        InHandThaws(decodes, w);
      } else {
        SkipLeads(decodes, w, r);
        ReplayThaws(decodes, Moved(w), r);
        ThawsAfter(decodes, w, Skip);
      }
    }
  }

  lemma BatchStartsBelow(w: World, r: Row)
    requires LeadsTo(w, r)
    ensures w.drain.batch[0].num <= r.num
  {
    if r in w.drain.batch {
      var i :| 0 <= i < |w.drain.batch| && w.drain.batch[i] == r;
    }
  }

  /** A refused snapshot sends the cursor back to the ack, and the replay starts there. */
  lemma RewoundThaws(decodes: Payload -> bool, w: World, r: Row)
    requires Quiet(w) && ValidLog(w.log) && r in w.log.rows && decodes(r.event.payload)
    requires w.agent.ackSeq < r.num <= w.link.value.tracker.refused
    ensures Thaws(decodes, w)
  {
    var w1 := Apply(decodes, w, RefuseSnapshot);
    var w2 := Received(w1, 0, 0);
    ReplayThaws(decodes, w2, r);
    ThawsAfter(decodes, w1, Receive(0, 0));
    ThawsAfter(decodes, w, RefuseSnapshot);
  }

  lemma QuietStuck(decodes: Payload -> bool, w: World, floor: int)
    requires Inv(decodes, w) && Quiet(w) && 0 < w.link.value.tracker.refused
    requires floor <= w.agent.sendSeq && floor <= w.agent.ackSeq
    requires forall r :: r in w.log.rows && floor < r.num && decodes(r.event.payload) ==>
             w.link.value.tracker.refused < r.num
    ensures Stuck(decodes, w, floor)
  {
    assert Names(w, w.link.value.sent[w.link.value.received - 1]);
  }

  /**
   * The tracker waits for a replay from the refused row; the agent provides one exactly
   * when it still stores a readable row at or below it and above one of its two cursors.
   */
  lemma AcksResumeIff(decodes: Payload -> bool, w: World)
    requires Inv(decodes, w) && Quiet(w) && 0 < w.link.value.tracker.refused
    ensures Thaws(decodes, w) <==>
      exists r :: r in w.log.rows && decodes(r.event.payload) && r.num <= w.link.value.tracker.refused
                  && (w.agent.sendSeq < r.num || w.agent.ackSeq < r.num)
  {
    var refused := w.link.value.tracker.refused;
    var floor := if w.agent.sendSeq < w.agent.ackSeq then w.agent.sendSeq else w.agent.ackSeq;
    if r :| r in w.log.rows && decodes(r.event.payload) && r.num <= refused && floor < r.num {
      if w.agent.sendSeq < r.num {
        ReplayThaws(decodes, w, r);
      } else {
        RewoundThaws(decodes, w, r);
      }
    } else {
      QuietStuck(decodes, w, floor);
      if Thaws(decodes, w) {
        var actions, u :| KeepsStream(actions) && Path(decodes, w, actions, u) && u.link.Some?
          && u.link.value.tracker.refused == 0;
        StuckForever(decodes, w, actions, u, floor);
      }
    }
  }
}
