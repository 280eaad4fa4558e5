/**
 * The promises of the spool, over every run.
 */
module DeliveryTheorems {
  import opened Collections
  import opened RowLog
  import opened Spools
  import opened Delivery
  import opened DeliverySafety

  // ---------------------------------------------------------------- conservation

  /** Events no row holds yet: buffered, or in a batch some flush took. */
  ghost function InMemory(w: World): (m: multiset<Pending>) {
    multiset(w.agent.buf) + Flatten(w.flights)
  }

  ghost function InStore(w: World): (m: multiset<Pending>) {
    multiset(Events(w.log.rows))
  }

  /** Events that left: acknowledged, dropped, expired, or lost with the process before any row held them. */
  ghost function Gone(h: History): (m: multiset<Pending>) {
    (multiset(Events(h.purged)) + multiset(Events(h.dropped))) + (multiset(Events(h.expired)) + h.crashed)
  }

  /** Every event a caller offered is in exactly one place. */
  ghost predicate Conserved(w: World) {
    w.hist.offered == InMemory(w) + InStore(w) + Gone(w.hist)
  }

  lemma Transfer<T>(m: multiset<T>, s: multiset<T>, g: multiset<T>, t: multiset<T>, h: multiset<T>, d: multiset<T>)
    requires s == t + d && h == g + d
    ensures m + s + g == m + t + h
  {
  }

  lemma {:induction false} EventsSplit(rows: seq<Row>, p: Row -> bool, q: Row -> bool)
    requires forall x :: x in rows ==> (p(x) <==> !q(x))
    ensures multiset(Events(rows)) == multiset(Events(Filter(rows, p))) + multiset(Events(Filter(rows, q)))
  {
    if rows != [] {
      var rest := rows[1..];
      EventsSplit(rest, p, q);
      assert rows == [rows[0]] + rest;
      EventsAppend([rows[0]], rest);
      EventsAppend([rows[0]], Filter(rest, p));
      EventsAppend([rows[0]], Filter(rest, q));
      assert Events([rows[0]]) == [rows[0].event];
    }
  }

  lemma Regroup<T>(a: multiset<T>, b: multiset<T>, c: multiset<T>, d: multiset<T>, x: multiset<T>)
    ensures ((a + x) + b) + (c + d) == ((a + b) + (c + d)) + x
    ensures (a + (b + x)) + (c + d) == ((a + b) + (c + d)) + x
    ensures (a + b) + ((c + x) + d) == ((a + b) + (c + d)) + x
  {
  }

  lemma GoneGrows(h: History, g: History, gone: seq<Row>)
    requires
      || g == h.(purged := h.purged + gone)
      || g == h.(dropped := h.dropped + gone)
      || g == h.(expired := h.expired + gone)
    ensures Gone(g) == Gone(h) + multiset(Events(gone))
  {
    var p, d, e, x := multiset(Events(h.purged)), multiset(Events(h.dropped)), multiset(Events(h.expired)),
      multiset(Events(gone));
    Regroup(p, d, e, h.crashed, x);
    if g == h.(purged := h.purged + gone) {
      EventsAppend(h.purged, gone);
      assert multiset(Events(g.purged)) == p + x;
    } else if g == h.(dropped := h.dropped + gone) {
      EventsAppend(h.dropped, gone);
      assert multiset(Events(g.dropped)) == d + x;
    } else {
      EventsAppend(h.expired, gone);
      assert multiset(Events(g.expired)) == e + x;
    }
  }

  /** Rows that leave the store join the events that left. */
  lemma Leaves(w: World, u: World, gone: seq<Row>)
    requires Conserved(w) && InMemory(u) == InMemory(w) && u.hist.offered == w.hist.offered
    requires InStore(w) == InStore(u) + multiset(Events(gone))
    requires Gone(u.hist) == Gone(w.hist) + multiset(Events(gone))
    ensures Conserved(u)
  {
    Transfer(InMemory(w), InStore(w), Gone(w.hist), InStore(u), Gone(u.hist), multiset(Events(gone)));
  }

  /** The steps that move events from one place to another. */
  predicate MovesEvents(a: Action) {
    a.Offer? || a.TakeBatch? || a.AppendBatch? || a.PutBack? || a.TrimDisk? || a.Expire? || a.Purge? || a.Crash?
  }

  ghost predicate SameEvents(w: World, u: World) {
    && u.agent.buf == w.agent.buf && u.flights == w.flights && u.log == w.log
    && u.hist.offered == w.hist.offered && u.hist.purged == w.hist.purged && u.hist.dropped == w.hist.dropped
    && u.hist.expired == w.hist.expired && u.hist.crashed == w.hist.crashed
  }

  lemma OthersMoveNone(decodes: Payload -> bool, w: World, a: Action)
    requires Enabled(decodes, w, a) && !MovesEvents(a)
    ensures SameEvents(w, Apply(decodes, w, a))
  {
  }

  lemma OfferConserves(w: World, ev: Pending)
    requires Conserved(w)
    ensures Conserved(w.(agent := w.agent.(buf := w.agent.buf + [ev]),
                         hist := w.hist.(offered := w.hist.offered + multiset{ev})))
  {
    var u := w.(agent := w.agent.(buf := w.agent.buf + [ev]),
                hist := w.hist.(offered := w.hist.offered + multiset{ev}));
    assert InMemory(u) == InMemory(w) + multiset{ev};
    Transfer(InStore(w) + Gone(w.hist), InMemory(u), multiset{}, InMemory(w), multiset{ev}, multiset{ev});
  }

  lemma AppendConserves(w: World, u: World, i: nat)
    requires Conserved(w) && ValidLog(w.log) && i < |w.flights|
    requires u == w.(flights := w.flights[..i] + w.flights[i + 1..], log := Appended(w.log, w.flights[i]))
    ensures Conserved(u)
  {
    FlattenRemove(w.flights, i);
    AppendedValid(w.log, w.flights[i]);
    assert InStore(u) == InStore(w) + multiset(w.flights[i]);
    assert InMemory(w) == InMemory(u) + multiset(w.flights[i]);
    Transfer(Gone(w.hist), InMemory(w), InStore(w), InMemory(u), InStore(u), multiset(w.flights[i]));
  }

  lemma CrashConserves(w: World, u: World)
    requires Conserved(w) && InMemory(u) == multiset{} && InStore(u) == InStore(w) && u.hist.offered == w.hist.offered
    requires Gone(u.hist) == Gone(w.hist) + InMemory(w)
    ensures Conserved(u)
  {
    Transfer(InStore(w), InMemory(w), Gone(w.hist), InMemory(u), Gone(u.hist), InMemory(w));
  }

  lemma CrashGone(w: World, u: World)
    requires u.hist == w.hist.(crashed := w.hist.crashed + multiset(w.agent.buf) + Flatten(w.flights),
                                base := 0, advanced := [])
    ensures Gone(u.hist) == Gone(w.hist) + InMemory(w)
  {
  }

  lemma MemoryConserves(decodes: Payload -> bool, w: World, a: Action)
    requires Enabled(decodes, w, a) && Conserved(w) && ValidLog(w.log)
    requires a.Offer? || a.TakeBatch? || a.AppendBatch? || a.PutBack? || a.Crash?
    ensures Conserved(Apply(decodes, w, a))
  {
    var u := Apply(decodes, w, a);
    match a {
      case Offer(ev) => OfferConserves(w, ev);
      case TakeBatch =>
        FlattenAppend(w.flights, [w.agent.buf]);
        assert InMemory(u) == InMemory(w);
      case AppendBatch(i) => AppendConserves(w, u, i);
      case PutBack(i) =>
        FlattenRemove(w.flights, i);
        assert InMemory(u) == InMemory(w);
      case Crash =>
        CrashGone(w, u);
        CrashConserves(w, u);
    }
  }

  lemma TrimConserves(decodes: Payload -> bool, w: World, a: Action)
    requires Enabled(decodes, w, a) && Conserved(w) && a.TrimDisk?
    ensures Conserved(Apply(decodes, w, a))
  {
    var rows, k := w.log.rows, a.k;
    assert rows == rows[..k] + rows[k..];
    EventsAppend(rows[..k], rows[k..]);
    GoneGrows(w.hist, Apply(decodes, w, a).hist, rows[..k]);
    Leaves(w, Apply(decodes, w, a), rows[..k]);
  }

  lemma ExpireConserves(decodes: Payload -> bool, w: World, a: Action)
    requires Conserved(w) && a.Expire?
    ensures Conserved(Apply(decodes, w, a))
  {
    var c := a.cutoff;
    EventsSplit(w.log.rows, (x: Row) => c <= x.event.observedAt, (x: Row) => x.event.observedAt < c);
    GoneGrows(w.hist, Apply(decodes, w, a).hist, Before(w.log.rows, c));
    Leaves(w, Apply(decodes, w, a), Before(w.log.rows, c));
  }

  lemma PurgeConserves(decodes: Payload -> bool, w: World, a: Action)
    requires Enabled(decodes, w, a) && Conserved(w) && a.Purge?
    ensures Conserved(Apply(decodes, w, a))
  {
    if a.deleted {
      var n := w.purge.value;
      EventsSplit(w.log.rows, (x: Row) => n < x.num, (x: Row) => x.num <= n);
      GoneGrows(w.hist, Apply(decodes, w, a).hist, UpTo(w.log.rows, n));
      Leaves(w, Apply(decodes, w, a), UpTo(w.log.rows, n));
    }
  }

  lemma ConservedStep(decodes: Payload -> bool, w: World, a: Action)
    requires Inv(decodes, w) && Enabled(decodes, w, a) && Conserved(w)
    ensures Conserved(Apply(decodes, w, a))
  {
    if !MovesEvents(a) {
      OthersMoveNone(decodes, w, a);
    } else if a.TrimDisk? {
      TrimConserves(decodes, w, a);
    } else if a.Expire? {
      ExpireConserves(decodes, w, a);
    } else if a.Purge? {
      PurgeConserves(decodes, w, a);
    } else {
      MemoryConserves(decodes, w, a);
    }
  }

  // ---------------------------------------------------------------- generations

  /**
   * Since the last rewind, the rows that moved the cursor are exactly those stored
   * above the ack it rewound to and up to the cursor, in order.
   */
  ghost predicate GenerationPrefix(w: World) {
    && Increasing(w.hist.advanced)
    && (forall r :: r in w.hist.advanced ==> w.hist.base < r.num <= w.agent.sendSeq)
    && (forall r :: r in w.log.rows && w.hist.base < r.num <= w.agent.sendSeq ==> r in w.hist.advanced)
    && (w.hist.advanced == [] ==> w.agent.sendSeq == w.hist.base)
    && (w.hist.advanced != [] ==> w.hist.advanced[|w.hist.advanced| - 1].num == w.agent.sendSeq)
  }

  ghost predicate InHand(w: World) {
    w.drain.Sending? || w.drain.Checked? || w.drain.Sent?
  }

  ghost predicate GenInv(w: World) {
    && GenerationPrefix(w)
    && w.hist.base < w.log.next
    && (InHand(w) && w.drain.gen == w.agent.generation ==>
          w.drain.batch != [] && w.agent.sendSeq < w.drain.batch[0].num
            && NoRow(w, w.agent.sendSeq, w.drain.batch[0].num))
  }

  lemma GenEvolves(w: World, u: World)
    requires GenInv(w) && Evolves(w, u) && u.agent.sendSeq == w.agent.sendSeq < w.log.next
    requires u.hist.base == w.hist.base && u.hist.advanced == w.hist.advanced
    requires w.agent.generation == u.agent.generation
    requires !InHand(u) || (InHand(w) && InHand(u) && u.drain.gen == w.drain.gen && u.drain.batch == w.drain.batch)
    requires InHand(w) ==> forall i :: 0 <= i < |w.drain.batch| ==> w.drain.batch[i].num < w.log.next
    ensures GenInv(u)
  {
  }

  lemma GenMoves(decodes: Payload -> bool, w: World)
    requires Inv(decodes, w) && GenInv(w) && (w.drain.Sending? || w.drain.Sent?) && w.attached
    ensures w.drain.batch != [] && GenInv(Moved(w))
  {
    var batch := w.drain.batch;
    assert BatchOk(w, batch) && Names(w, batch[0]);
    if w.agent.generation == w.drain.gen {
      if 1 < |batch| { assert NoRow(w, batch[0].num, batch[1].num) && batch[0].num < batch[1].num; }
    }
  }

  /** The steps that neither move the cursor nor hand the drain a row. */
  predicate KeepsCursor(w: World, a: Action) {
    && !a.Skip? && !a.Advance? && !a.Read? && !a.Attach? && !a.Crash?
    && (a.Receive? ==> w.link.Some? && w.link.value.down != [] && w.link.value.down[0].Ack?)
  }

  lemma CursorKept(decodes: Payload -> bool, w: World, a: Action)
    requires Enabled(decodes, w, a) && KeepsCursor(w, a)
    ensures var u := Apply(decodes, w, a);
            && u.agent.sendSeq == w.agent.sendSeq && u.agent.generation == w.agent.generation
            && u.hist.base == w.hist.base && u.hist.advanced == w.hist.advanced
            && (!InHand(u) || (InHand(w) && InHand(u) && u.drain.gen == w.drain.gen && u.drain.batch == w.drain.batch))
  {
  }

  lemma StepEvolves(decodes: Payload -> bool, w: World, a: Action)
    requires Enabled(decodes, w, a) && ValidLog(w.log)
    ensures Evolves(w, Apply(decodes, w, a))
  {
    match a {
      case AppendBatch(i) => AppendedValid(w.log, w.flights[i]);
      case _ =>
    }
  }

  lemma BatchNumbers(decodes: Payload -> bool, w: World)
    requires Inv(decodes, w) && InHand(w)
    ensures forall i :: 0 <= i < |w.drain.batch| ==> w.drain.batch[i].num < w.log.next
  {
    assert BatchOk(w, w.drain.batch);
    forall i | 0 <= i < |w.drain.batch| ensures w.drain.batch[i].num < w.log.next { assert Names(w, w.drain.batch[i]); }
  }

  lemma GenKept(decodes: Payload -> bool, w: World, a: Action)
    requires Inv(decodes, w) && Enabled(decodes, w, a) && GenInv(w) && KeepsCursor(w, a)
    ensures GenInv(Apply(decodes, w, a))
  {
    CursorKept(decodes, w, a);
    StepEvolves(decodes, w, a);
    if InHand(w) { BatchNumbers(decodes, w); }
    GenEvolves(w, Apply(decodes, w, a));
  }

  /** A rewind starts a generation at the ack, and the drain's batch no longer counts. */
  lemma GenRestarts(u: World)
    requires u.hist.advanced == [] && u.hist.base == u.agent.sendSeq < u.log.next
    requires InHand(u) ==> u.drain.gen != u.agent.generation
    ensures GenInv(u)
  {
  }

  lemma GenRead(decodes: Payload -> bool, w: World)
    requires Inv(decodes, w) && GenInv(w) && w.drain.Reading?
    ensures GenInv(Apply(decodes, w, Read))
  {
    ReadFacts(w, w.drain.after, DRAIN_BATCH);
    var u := Apply(decodes, w, Read);
    assert GenerationPrefix(u);
  }

  lemma Rewinds(decodes: Payload -> bool, w: World, a: Action)
    requires Inv(decodes, w) && Enabled(decodes, w, a)
    requires a.Attach? || a.Crash? || (a.Receive? && w.link.value.down[0].RateLimit?)
    ensures GenInv(Apply(decodes, w, a))
  {
    GenRestarts(Apply(decodes, w, a));
  }

  lemma GenStep(decodes: Payload -> bool, w: World, a: Action)
    requires Inv(decodes, w) && Enabled(decodes, w, a) && GenInv(w)
    ensures GenInv(Apply(decodes, w, a))
  {
    if KeepsCursor(w, a) {
      GenKept(decodes, w, a);
    } else if a.Skip? || a.Advance? {
      GenMoves(decodes, w);
    } else if a.Read? {
      GenRead(decodes, w);
    } else {
      Rewinds(decodes, w, a);
    }
  }

  // ---------------------------------------------------------------- no loss

  /** Nothing was purged on an acknowledgement that the server had not taken. */
  ghost predicate NoLoss(decodes: Payload -> bool, w: World) {
    forall r :: r in w.hist.purged && decodes(r.event.payload) ==> r in w.hist.taken
  }

  ghost predicate Good(decodes: Payload -> bool, w: World) {
    Inv(decodes, w) && Conserved(w) && GenInv(w) && NoLoss(decodes, w)
  }

  /** How a readable row can leave the store. */
  lemma RowLeaves(decodes: Payload -> bool, w: World, a: Action, r: Row)
    requires Inv(decodes, w) && Enabled(decodes, w, a)
    requires r in w.log.rows && r !in Apply(decodes, w, a).log.rows && decodes(r.event.payload)
    ensures
      || (a.Purge? && r in w.hist.taken)
      || (a.TrimDisk? && r in w.log.rows[..a.k])
      || (a.Expire? && r.event.observedAt < a.cutoff)
  {
    if !MovesEvents(a) {
      OthersMoveNone(decodes, w, a);
    } else if a.TrimDisk? {
      assert w.log.rows == w.log.rows[..a.k] + w.log.rows[a.k..];
    }
  }

  lemma NoLossStep(decodes: Payload -> bool, w: World, a: Action)
    requires Inv(decodes, w) && NoLoss(decodes, w) && Enabled(decodes, w, a)
    ensures NoLoss(decodes, Apply(decodes, w, a))
  {
    StepEvolves(decodes, w, a);
    if !MovesEvents(a) { OthersMoveNone(decodes, w, a); }
  }

  lemma GoodStep(decodes: Payload -> bool, w: World, a: Action)
    requires Good(decodes, w) && Enabled(decodes, w, a)
    ensures Good(decodes, Apply(decodes, w, a))
  {
    Step(decodes, w, a);
    ConservedStep(decodes, w, a);
    GenStep(decodes, w, a);
    NoLossStep(decodes, w, a);
  }

  lemma {:induction false} GoodPath(decodes: Payload -> bool, w: World, actions: seq<Action>, u: World)
    requires Good(decodes, w) && Path(decodes, w, actions, u)
    ensures Good(decodes, u)
    decreases |actions|
  {
    if actions != [] {
      GoodStep(decodes, w, actions[0]);
      GoodPath(decodes, Apply(decodes, w, actions[0]), actions[1..], u);
    }
  }

  lemma GoodInitially(decodes: Payload -> bool)
    ensures Good(decodes, INITIAL)
  {
  }

  lemma ReachableIsGood(decodes: Payload -> bool, w: World)
    requires Reachable(decodes, w)
    ensures Good(decodes, w)
  {
    var actions :| Path(decodes, INITIAL, actions, w);
    GoodInitially(decodes);
    GoodPath(decodes, INITIAL, actions, w);
  }

  /**
   * No acknowledged-away loss. At any point of any run, a stored event that decodes
   * leaves the store in one of three ways: the server has taken it, the disk budget
   * dropped it, or it was older than the retention cutoff.
   */
  lemma OnlyTakenDroppedOrExpiredRowsLeave(decodes: Payload -> bool, w: World, a: Action, r: Row)
    requires Reachable(decodes, w) && Enabled(decodes, w, a)
    requires r in w.log.rows && r !in Apply(decodes, w, a).log.rows && decodes(r.event.payload)
    ensures
      || (a.Purge? && r in w.hist.taken)
      || (a.TrimDisk? && r in w.log.rows[..a.k])
      || (a.Expire? && r.event.observedAt < a.cutoff)
  {
    ReachableIsGood(decodes, w);
    RowLeaves(decodes, w, a, r);
  }

  /** Conservation over any run, with any number of flushes under way and any of them failing. */
  lemma EveryOfferedEventIsAccountedFor(decodes: Payload -> bool, w: World)
    requires Reachable(decodes, w)
    ensures Conserved(w)
    ensures forall r :: r in w.hist.purged && decodes(r.event.payload) ==> r in w.hist.taken
  {
    ReachableIsGood(decodes, w);
  }

  /** A rewind that races a drain never lets the cursor jump over a stored row. */
  lemma EveryGenerationAdvancesAPrefix(decodes: Payload -> bool, w: World)
    requires Reachable(decodes, w)
    ensures GenerationPrefix(w)
    ensures forall r :: r in w.log.rows && w.hist.base < r.num ==> (r.num <= w.agent.sendSeq <==> r in w.hist.advanced)
  {
    ReachableIsGood(decodes, w);
  }

  /** The ack cursor only moves forward while the process lives. */
  lemma {:induction false} AckNeverRetreats(decodes: Payload -> bool, w: World, actions: seq<Action>, u: World)
    requires Path(decodes, w, actions, u) && Crash !in actions
    ensures w.agent.ackSeq <= u.agent.ackSeq
    decreases |actions|
  {
    if actions != [] {
      AckNeverRetreats(decodes, Apply(decodes, w, actions[0]), actions[1..], u);
    }
  }
}
