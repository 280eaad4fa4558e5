/**
 * A run that ends with acknowledgements stopped although everything is connected:
 * two rows refused in a row, the first of them taken on replay, refused again on the
 * replay the second refusal asks for, and acknowledged all the same.
 */
module DeliveryFreezeRun {
  import opened Collections
  import opened RowLog
  import opened Spools
  import opened AckTracking
  import opened Delivery
  import opened DeliveryTheorems
  import opened DeliveryFreeze

  const Any: Payload -> bool := (p: Payload) => true

  const E1 := Pending("a", 0, [])
  const E2 := Pending("b", 0, [])
  const R1 := Row(1, E1)
  const R2 := Row(2, E2)

  const MILLISECOND := 1_000_000

  function Stage(send: int, ack: int, gen: nat, until: int, rows: seq<Row>, link: Link, taken: set<Row>,
                 purged: seq<Row>, base: int, advanced: seq<Row>): (w: World)
  {
    World(Agent([], send, ack, gen, until), [], Log(rows, 3), Idle, true, Some(link), None,
          History(multiset{E1, E2}, taken, purged, [], [], multiset{}, base, advanced))
  }

  const CONNECTED := Stage(0, 0, 1, 0, [R1, R2], Link([], 0, [], FRESH_TRACKER, false), {}, [], 0, [])
  const PUSHED := Stage(2, 0, 1, 0, [R1, R2], Link([R1, R2], 0, [], FRESH_TRACKER, false), {}, [], 0, [R1, R2])
  const REFUSED_TWICE := Stage(0, 0, 2, MILLISECOND, [R1, R2], Link([R1, R2], 2, [RateLimit], Tracker(0, 1, 0), false),
    {}, [], 0, [])
  const REPLAYED :=
    Stage(1, 0, 2, MILLISECOND, [R1, R2], Link([R1, R2, R1], 3, [RateLimit], Tracker(1, 0, 0), false), {R1}, [], 0,
      [R1])
    .(drain := Sending(2, [R2]))
  const REFUSED_AGAIN :=
    Stage(1, 0, 3, 2 * MILLISECOND, [R1, R2], Link([R1, R2, R1, R1], 4, [RateLimit, Ack(1)], Tracker(1, 1, 1), false),
          {R1}, [], 0, [R1]).(drain := Sending(3, [R2]))
  const FROZEN :=
    Stage(0, 1, 4, 3 * MILLISECOND, [R2], Link([R1, R2, R1, R1], 4, [], Tracker(1, 1, 1), false), {R1}, [R1], 0, [])

  lemma BothRows(after: int)
    requires after <= 0
    ensures Prefix(Above([R1, R2], after), DRAIN_BATCH) == [R1, R2]
  {
    FilterAll([R1, R2], (x: Row) => after < x.num);
  }

  lemma SplitsAtOne()
    ensures Above([R1, R2], 1) == [R2] && UpTo([R1, R2], 1) == [R1]
  {
    assert [R1, R2] == [R1] + [R2];
    FilterAppend([R1], [R2], (x: Row) => 1 < x.num);
    FilterAppend([R1], [R2], (x: Row) => x.num <= 1);
    FilterNone([R1], (x: Row) => 1 < x.num);
    FilterAll([R2], (x: Row) => 1 < x.num);
    FilterAll([R1], (x: Row) => x.num <= 1);
    FilterNone([R2], (x: Row) => x.num <= 1);
  }

  lemma Handles(w: World, accepts: bool, u: World)
    requires Reachable(Any, w) && Live(w) && w.link.value.received < |w.link.value.sent| && u == Handled(w, accepts)
    ensures Reachable(Any, u)
  {
    ReachableStep(Any, w, if accepts then Accept else Refuse);
  }

  lemma Hears(w: World, retryAfter: int, at: int, u: World)
    requires Reachable(Any, w) && w.link.Some? && w.link.value.down != [] && w.purge.None?
    requires u == Received(w, retryAfter, at)
    ensures Reachable(Any, u)
  {
    ReachableStep(Any, w, Receive(retryAfter, at));
  }

  lemma Connects()
    ensures Reachable(Any, CONNECTED)
  {
    assert Path(Any, INITIAL, [], INITIAL);
    ReachableStep(Any, INITIAL, Offer(E1));
    var w1 := Apply(Any, INITIAL, Offer(E1));
    ReachableStep(Any, w1, Offer(E2));
    var w2 := Apply(Any, w1, Offer(E2));
    assert w1.agent.buf == [E1] && w2.agent.buf == [E1, E2];
    ReachableStep(Any, w2, TakeBatch);
    var w3 := Apply(Any, w2, TakeBatch);
    assert w3.flights == [[E1, E2]];
    Stores(w3);
  }

  lemma Stores(w: World)
    requires Reachable(Any, w) && w.flights == [[E1, E2]] && w.log == EMPTY_LOG
    requires w == INITIAL.(flights := w.flights, hist := INITIAL.hist.(offered := multiset{E1, E2}))
    ensures Reachable(Any, CONNECTED)
  {
    ReachableStep(Any, w, AppendBatch(0));
    var w4 := Apply(Any, w, AppendBatch(0));
    assert Numbered([E1, E2], 1) == [R1, R2];
    assert w4.log == Log([R1, R2], 3) && w4.flights == [];
    ReachableStep(Any, w4, Dial);
    ReachableStep(Any, Apply(Any, w4, Dial), Attach);
  }

  /** The drain wakes up at the cursor and reads both rows. */
  lemma ReadsBoth(w: World)
    requires Reachable(Any, w) && w.attached && w.link.Some? && w.drain.Idle? && w.agent.sendSeq == 0
    requires w.log.rows == [R1, R2]
    ensures Reachable(Any, w.(drain := Sending(w.agent.generation, [R1, R2])))
  {
    BothRows(0);
    ReachableStep(Any, w, Begin(w.agent.pausedUntil));
    ReachableStep(Any, w.(drain := Reading(0, w.agent.generation)), Read);
  }

  /** One turn of the drain loop for the row in hand. */
  lemma SendsRow(w: World)
    requires Reachable(Any, w) && w.drain.Sending? && w.drain.batch != [] && w.link.Some?
    requires w.drain.gen == w.agent.generation
    ensures var l := w.link.value;
            Reachable(Any, Moved(OnLink(w, l.(sent := l.sent + [w.drain.batch[0]]))
                                 .(drain := Sent(w.drain.gen, w.drain.batch))))
  {
    ReachableStep(Any, w, Check);
    var w1 := w.(drain := Checked(w.drain.gen, w.drain.batch));
    ReachableStep(Any, w1, Push);
    ReachableStep(Any, Apply(Any, w1, Push), Advance);
  }

  lemma PushesBoth()
    ensures Reachable(Any, PUSHED)
  {
    Connects();
    ReadsBoth(CONNECTED);
    SendsRow(CONNECTED.(drain := Sending(1, [R1, R2])));
    var w3 := Stage(1, 0, 1, 0, [R1, R2], Link([R1], 0, [], FRESH_TRACKER, false), {}, [], 0, [R1])
              .(drain := Sending(1, [R2]));
    assert [R1, R2][1..] == [R2] && [] + [R1] == [R1] && CONNECTED.hist.advanced + [R1] == [R1];
    SendsRow(w3);
    assert [R1] + [R2] == [R1, R2];
  }

  const REFUSED_ONE := OnLink(PUSHED, Link([R1, R2], 1, [RateLimit], Tracker(0, 1, 0), false))
  const REFUSED_TWO := OnLink(PUSHED, Link([R1, R2], 2, [RateLimit, RateLimit], Tracker(0, 1, 0), false))

  lemma RefusesBoth()
    ensures Reachable(Any, REFUSED_TWICE)
  {
    PushesBoth();
    assert [RateLimit] + [RateLimit] == [RateLimit, RateLimit] && [] + [RateLimit] == [RateLimit];
    Handles(PUSHED, false, REFUSED_ONE);
    Handles(REFUSED_ONE, false, REFUSED_TWO);
    assert [RateLimit, RateLimit][1..] == [RateLimit];
    Hears(REFUSED_TWO, MILLISECOND, 0, REFUSED_TWICE);
  }

  /** From a rewound stage, the drain reads again, sends the first row and has the second in hand. */
  lemma ReplaysFirst(gen: nat, until: int, link: Link, taken: set<Row>)
    requires Reachable(Any, Stage(0, 0, gen, until, [R1, R2], link, taken, [], 0, []))
    ensures Reachable(Any, Stage(1, 0, gen, until, [R1, R2], link.(sent := link.sent + [R1]), taken, [], 0, [R1])
                           .(drain := Sending(gen, [R2])))
  {
    var w := Stage(0, 0, gen, until, [R1, R2], link, taken, [], 0, []);
    ReadsBoth(w);
    SendsRow(w.(drain := Sending(gen, [R1, R2])));
    assert [R1, R2][1..] == [R2] && w.hist.advanced + [R1] == [R1];
  }

  /** A rewind has ended the generation of the row in hand: the drain finds out before it sends it. */
  lemma LetsGo(w: World)
    requires Reachable(Any, w) && w.drain.Sending? && w.drain.batch == [R2] && w.drain.gen != w.agent.generation
    ensures Reachable(Any, w.(drain := Idle))
  {
    ReachableStep(Any, w, Check);
  }

  lemma TakesTheFirst()
    ensures Reachable(Any, REPLAYED)
  {
    RefusesBoth();
    var link := Link([R1, R2], 2, [RateLimit], Tracker(0, 1, 0), false);
    ReplaysFirst(2, MILLISECOND, link, {});
    assert link.sent + [R1] == [R1, R2, R1];
    var v := Stage(1, 0, 2, MILLISECOND, [R1, R2], link.(sent := [R1, R2, R1]), {}, [], 0, [R1])
             .(drain := Sending(2, [R2]));
    Handles(v, true, REPLAYED);
  }

  const REWOUND :=
    Stage(0, 0, 3, 2 * MILLISECOND, [R1, R2], Link([R1, R2, R1], 3, [], Tracker(1, 0, 0), false), {R1}, [], 0, [])
  const RESENT :=
    Stage(1, 0, 3, 2 * MILLISECOND, [R1, R2], Link([R1, R2, R1, R1], 3, [], Tracker(1, 0, 0), false), {R1}, [], 0, [R1])
    .(drain := Sending(3, [R2]))
  const REFUSED_THRICE := OnLink(RESENT, Link([R1, R2, R1, R1], 4, [RateLimit], Tracker(1, 1, 0), false))

  lemma Rewinds()
    ensures Reachable(Any, REWOUND)
  {
    TakesTheFirst();
    assert [RateLimit][1..] == [];
    Hears(REPLAYED, MILLISECOND, MILLISECOND, REWOUND.(drain := Sending(2, [R2])));
    LetsGo(REWOUND.(drain := Sending(2, [R2])));
  }

  lemma Resends()
    ensures Reachable(Any, RESENT)
  {
    Rewinds();
    var link := Link([R1, R2, R1], 3, [], Tracker(1, 0, 0), false);
    ReplaysFirst(3, 2 * MILLISECOND, link, {R1});
    assert link.sent + [R1] == [R1, R2, R1, R1];
  }

  lemma RefusesTheReplay()
    ensures Reachable(Any, REFUSED_THRICE)
  {
    Resends();
    assert [] + [RateLimit] == [RateLimit];
    Handles(RESENT, false, REFUSED_THRICE);
  }

  lemma RefusesTheFirstAgain()
    ensures Reachable(Any, REFUSED_AGAIN)
  {
    RefusesTheReplay();
    ReachableStep(Any, REFUSED_THRICE, SendAck);
    assert [RateLimit] + [Ack(1)] == [RateLimit, Ack(1)];
    assert REFUSED_AGAIN == Apply(Any, REFUSED_THRICE, SendAck);
  }

  const HELD :=
    Stage(0, 0, 4, 3 * MILLISECOND, [R1, R2], Link([R1, R2, R1, R1], 4, [Ack(1)], Tracker(1, 1, 1), false), {R1}, [], 0,
      [])
  const ACKED :=
    Stage(0, 1, 4, 3 * MILLISECOND, [R1, R2], Link([R1, R2, R1, R1], 4, [], Tracker(1, 1, 1), false), {R1}, [], 0, [])
    .(purge := Some(1))

  lemma HearsRefusal()
    ensures Reachable(Any, HELD)
  {
    RefusesTheFirstAgain();
    assert [RateLimit, Ack(1)][1..] == [Ack(1)];
    Hears(REFUSED_AGAIN, MILLISECOND, 2 * MILLISECOND, HELD.(drain := Sending(3, [R2])));
    LetsGo(HELD.(drain := Sending(3, [R2])));
  }

  lemma HearsRefusalAndAck()
    ensures Reachable(Any, ACKED)
  {
    HearsRefusal();
    assert [Ack(1)][1..] == [];
    Hears(HELD, 0, 0, ACKED);
  }

  lemma AcksTheFirst()
    ensures Reachable(Any, FROZEN)
  {
    HearsRefusalAndAck();
    ReachableStep(Any, ACKED, Purge(true));
    SplitsAtOne();
    assert [] + [R1] == [R1];
    assert FROZEN == Apply(Any, ACKED, Purge(true));
  }

  /**
   * The promise that a frozen ack thaws with the agent's replay does not hold: some run
   * reaches a connected, idle stream on which a stored, readable, untaken row can be sent
   * and taken over and over, and no later run on the stream ever acknowledges it.
   */
  lemma FreezeIsReachable()
    ensures Reachable(Any, FROZEN) && Quiet(FROZEN)
    ensures R2 in FROZEN.log.rows && R2 !in FROZEN.hist.taken
    ensures !Thaws(Any, FROZEN)
    ensures forall more, u :: KeepsStream(more) && Path(Any, FROZEN, more, u) ==>
            u.link.Some? && u.link.value.tracker.highest == 1
  {
    AcksTheFirst();
    ReachableIsGood(Any, FROZEN);
    AcksResumeIff(Any, FROZEN);
    assert Stuck(Any, FROZEN, 0);
    forall more, u | KeepsStream(more) && Path(Any, FROZEN, more, u)
      ensures u.link.Some? && u.link.value.tracker.highest == 1
    {
      StuckForever(Any, FROZEN, more, u, 0);
    }
  }
}
