/**
 * What every interleaving of the delivery protocol keeps.
 */
module DeliverySafety {
  import opened RowLog
  import opened Spools
  import opened AckTracking
  import opened Delivery

  // ---------------------------------------------------------------- store steps

  lemma RemovalEvolves(w: World, u: World)
    requires ValidLog(w.log) && u.log.next == w.log.next && u.hist.taken == w.hist.taken
    requires Increasing(u.log.rows) && forall r :: r in u.log.rows ==> r in w.log.rows
    ensures Evolves(w, u) && ValidLog(u.log)
  {
  }

  lemma StoreStep(decodes: Payload -> bool, w: World, a: Action)
    requires Inv(decodes, w) && Enabled(decodes, w, a)
    requires a.Offer? || a.TakeBatch? || a.AppendBatch? || a.PutBack? || a.TrimDisk? || a.Expire? || a.Purge?
    ensures Inv(decodes, Apply(decodes, w, a))
  {
    var u := Apply(decodes, w, a);
    match a {
      case AppendBatch(i) => AppendedValid(w.log, w.flights[i]);
      case TrimDisk(_, k) => RemovalEvolves(w, u);
      case Expire(c) =>
        FilterIncreasing(w.log.rows, (x: Row) => c <= x.event.observedAt);
        RemovalEvolves(w, u);
      case Purge(deleted) =>
        if deleted {
          var n := w.purge.value;
          FilterIncreasing(w.log.rows, (x: Row) => n < x.num);
          RemovalEvolves(w, u);
        }
      case _ =>
    }
    QuietStep(decodes, w, u);
  }

  // ---------------------------------------------------------------- stream steps

  /** Cursors at the ack: nothing below them is owed, whatever the stream has carried. */
  lemma AtAck(decodes: Payload -> bool, w: World, u: World)
    requires Inv(decodes, w) && u.log == w.log && u.hist.taken == w.hist.taken
    requires u.agent.ackSeq == u.agent.sendSeq == w.agent.ackSeq
    ensures Covered(decodes, u, u.agent.sendSeq)
  {
  }

  lemma StreamStep(decodes: Payload -> bool, w: World, a: Action)
    requires Inv(decodes, w) && Enabled(decodes, w, a)
    requires a.Dial? || a.Detach? || a.Cut? || a.HangUp? || a.Crash?
    ensures Inv(decodes, Apply(decodes, w, a))
  {
    var u := Apply(decodes, w, a);
    assert Evolves(w, u);
    if w.link.Some? { LinkStays(decodes, w, u, w.link.value); }
    match a {
      case Cut => CutStep(decodes, w);
      case _ =>
    }
  }

  lemma CutStep(decodes: Payload -> bool, w: World)
    requires Inv(decodes, w) && w.link.Some?
    ensures Inv(decodes, OnLink(w, w.link.value.(dead := true)))
  {
    var u := OnLink(w, w.link.value.(dead := true));
    assert Evolves(w, u);
    LinkStays(decodes, w, u, w.link.value);
    DrainKept(decodes, w, u);
  }

  lemma AttachStep(decodes: Payload -> bool, w: World)
    requires Inv(decodes, w) && Enabled(decodes, w, Attach)
    ensures Inv(decodes, Apply(decodes, w, Attach))
  {
    var u := Apply(decodes, w, Attach);
    assert Evolves(w, u);
    LinkStays(decodes, w, u, w.link.value);
    AtAck(decodes, w, u);
  }

  // ---------------------------------------------------------------- drain steps

  /** What one read of the table gives a drain: the next rows above `after`, none left out between them. */
  lemma ReadFacts(w: World, after: int, limit: nat)
    requires ValidLog(w.log)
    ensures var batch := Prefix(Above(w.log.rows, after), limit);
            batch == [] || (BatchOk(w, batch) && after < batch[0].num && NoRow(w, after, batch[0].num))
  {
    var all := Above(w.log.rows, after);
    FilterIncreasing(w.log.rows, (x: Row) => after < x.num);
    var batch := Prefix(all, limit);
    forall i | 0 <= i < |batch|
      ensures Names(w, batch[i]) && after < batch[i].num
    {
      assert batch[i] in all;
      NumbersName(w, batch[i]);
    }
    if batch != [] {
      NoRowBelow(w, all, after);
      forall i | 0 < i < |batch|
        ensures NoRow(w, batch[i - 1].num, batch[i].num)
      {
        NoRowBetween(w, all, after, i);
      }
    }
  }

  lemma NumbersName(w: World, row: Row)
    requires ValidLog(w.log) && row in w.log.rows
    ensures Names(w, row)
  {
    var rows := w.log.rows;
    var i :| 0 <= i < |rows| && rows[i] == row;
    forall r | r in rows && r.num == row.num
      ensures r == row
    {
      var j :| 0 <= j < |rows| && rows[j] == r;
      assert !(i < j) && !(j < i);
    }
  }

  lemma NoRowBelow(w: World, all: seq<Row>, after: int)
    requires all == Above(w.log.rows, after) && Increasing(all) && all != []
    ensures NoRow(w, after, all[0].num)
  {
    forall r | r in w.log.rows
      ensures !(after < r.num < all[0].num)
    {
      if after < r.num {
        assert r in all;
        var j :| 0 <= j < |all| && all[j] == r;
        assert j == 0 || all[0].num < all[j].num;
      }
    }
  }

  lemma NoRowBetween(w: World, all: seq<Row>, after: int, i: nat)
    requires all == Above(w.log.rows, after) && Increasing(all) && 0 < i < |all|
    ensures NoRow(w, all[i - 1].num, all[i].num)
  {
    assert all[i - 1] in all;
    forall r | r in w.log.rows
      ensures !(all[i - 1].num < r.num < all[i].num)
    {
      if all[i - 1].num < r.num {
        assert r in all;
        var j :| 0 <= j < |all| && all[j] == r;
        assert i <= j;
        assert i < j ==> all[i].num < all[j].num;
      }
    }
  }

  lemma BatchTail(w: World, batch: seq<Row>)
    requires BatchOk(w, batch) && 1 < |batch|
    ensures BatchOk(w, batch[1..])
  {
    var rest := batch[1..];
    forall i | 0 < i < |rest|
      ensures NoRow(w, rest[i - 1].num, rest[i].num)
    {
      assert NoRow(w, batch[i].num, batch[i + 1].num);
    }
  }

  /** After the row in hand, the drain may go on to the next one of its batch. */
  lemma FrontierNext(decodes: Payload -> bool, w: World, sent: seq<Row>, batch: seq<Row>)
    requires BatchOk(w, batch) && 1 < |batch| && Frontier(decodes, w, sent, batch[0].num)
    ensures Frontier(decodes, w, sent, batch[1].num - 1)
  {
    assert NoRow(w, batch[0].num, batch[1].num);
    assert batch[0].num < batch[1].num;
  }

  lemma FrontierSkip(decodes: Payload -> bool, w: World, sent: seq<Row>, row: Row)
    requires Frontier(decodes, w, sent, row.num - 1) && !decodes(row.event.payload)
    requires forall r :: r in w.log.rows && r.num == row.num ==> r == row
    ensures Frontier(decodes, w, sent, row.num)
  {
  }

  lemma MovedStep(decodes: Payload -> bool, w: World)
    requires Inv(decodes, w) && (w.drain.Sending? || w.drain.Sent?) && w.drain.batch != [] && w.attached
    requires Frontier(decodes, w, w.link.value.sent, w.drain.batch[0].num) || w.drain.gen != w.agent.generation
    ensures Inv(decodes, Moved(w))
  {
    var u := Moved(w);
    assert Evolves(w, u);
    LinkStays(decodes, w, u, w.link.value);
    var batch, sent := w.drain.batch, w.link.value.sent;
    if w.agent.generation == w.drain.gen {
      FrontierStays(decodes, w, u, sent, batch[0].num);
      if 1 < |batch| {
        BatchTail(w, batch);
        BatchStays(w, u, batch[1..]);
        FrontierNext(decodes, w, sent, batch);
        FrontierStays(decodes, w, u, sent, batch[1].num - 1);
      }
    } else {
      CoveredStays(decodes, w, u, w.agent.sendSeq);
    }
  }

  lemma SkipStep(decodes: Payload -> bool, w: World)
    requires Inv(decodes, w) && Enabled(decodes, w, Skip)
    ensures Inv(decodes, Moved(w))
  {
    assert Names(w, w.drain.batch[0]);
    FrontierSkip(decodes, w, w.link.value.sent, w.drain.batch[0]);
    MovedStep(decodes, w);
  }

  lemma PauseStep(decodes: Payload -> bool, w: World, a: Action)
    requires Inv(decodes, w) && Enabled(decodes, w, a)
    requires a.Begin? || a.Read? || a.Check? || a.PushFails? || a.Stop?
    ensures Inv(decodes, Apply(decodes, w, a))
  {
    var u := Apply(decodes, w, a);
    assert Evolves(w, u);
    LinkStays(decodes, w, u, w.link.value);
    if a.Read? {
      ReadStep(decodes, w);
    } else {
      BackToIdle(decodes, w, u);
    }
  }

  lemma ReadStep(decodes: Payload -> bool, w: World)
    requires Inv(decodes, w) && w.drain.Reading?
    ensures DrainInv(decodes, Apply(decodes, w, Read))
  {
    var u := Apply(decodes, w, Read);
    assert Evolves(w, u);
    var after, sent := w.drain.after, w.link.value.sent;
    ReadFacts(w, after, DRAIN_BATCH);
    FrontierStays(decodes, w, u, sent, after);
    FrontierSend(decodes, w, sent);
    FrontierStays(decodes, w, u, sent, w.agent.sendSeq);
    if u.drain.Sending? {
      var batch := u.drain.batch;
      BatchStays(w, u, batch);
      assert NoRow(u, after, batch[0].num);
    }
  }

  /** Outside the moment between a push and its advance, the drain may restart at the send cursor. */
  lemma FrontierSend(decodes: Payload -> bool, w: World, sent: seq<Row>)
    requires DrainInv(decodes, w) && w.attached && sent == w.link.value.sent && !w.drain.Sent? && !w.drain.Ended?
    ensures Frontier(decodes, w, sent, w.agent.sendSeq)
  {
  }

  lemma BackToIdle(decodes: Payload -> bool, w: World, u: World)
    requires Inv(decodes, w) && w.attached && !w.drain.Sent? && !w.drain.Ended?
    requires u == w.(drain := u.drain)
    requires u.drain.Idle? || u.drain.Ended?
      || u.drain == Reading(w.agent.sendSeq, w.agent.generation)
      || (w.drain.Sending? && u.drain == Checked(w.drain.gen, w.drain.batch))
    ensures DrainInv(decodes, u)
  {
    assert Evolves(w, u);
    var sent := w.link.value.sent;
    FrontierSend(decodes, w, sent);
    FrontierStays(decodes, w, u, sent, w.agent.sendSeq);
    if u.drain.Checked? {
      DrainStays(decodes, w, u, sent, w.drain.batch);
      if Covered(decodes, w, w.agent.sendSeq) { CoveredStays(decodes, w, u, w.agent.sendSeq); }
    }
  }

  lemma JustifiedPrefix(decodes: Payload -> bool, w: World, sent: seq<Row>, row: Row, j: nat)
    requires j < |sent| && Justified(decodes, w, sent, j)
    ensures Justified(decodes, w, sent + [row], j)
  {
    var longer := sent + [row];
    assert longer[j] == sent[j];
    if 0 < j { assert longer[j - 1] == sent[j - 1]; }
  }

  lemma JustifiedLast(decodes: Payload -> bool, w: World, sent: seq<Row>, row: Row)
    requires Frontier(decodes, w, sent, row.num - 1)
    ensures Justified(decodes, w, sent + [row], |sent|)
  {
  }

  /** A row pushed from the frontier is justified by what the stream carried before it. */
  lemma PushJustified(decodes: Payload -> bool, w: World, l: Link, row: Row)
    requires LinkInv(decodes, w, l) && Names(w, row) && Frontier(decodes, w, l.sent, row.num - 1)
    ensures LinkInv(decodes, w, l.(sent := l.sent + [row]))
  {
    var longer := l.sent + [row];
    JustifiedLast(decodes, w, l.sent, row);
    forall j | 0 <= j < |longer|
      ensures Names(w, longer[j]) && Justified(decodes, w, longer, j)
    {
      if j < |l.sent| {
        assert Names(w, l.sent[j]);
        JustifiedPrefix(decodes, w, l.sent, row, j);
      }
    }
  }

  lemma PushStep(decodes: Payload -> bool, w: World)
    requires Inv(decodes, w) && Enabled(decodes, w, Push)
    ensures Inv(decodes, Apply(decodes, w, Push))
  {
    var u := Apply(decodes, w, Push);
    assert Evolves(w, u);
    var batch := w.drain.batch;
    BatchStays(w, u, batch);
    assert Names(w, batch[0]);
    PushJustified(decodes, w, w.link.value, batch[0]);
    LinkStays(decodes, w, u, u.link.value);
    if Covered(decodes, w, w.agent.sendSeq) { CoveredStays(decodes, w, u, w.agent.sendSeq); }
  }

  // ---------------------------------------------------------------- server steps

  /** The heart of the protocol: accepting a justified row keeps everything up to the ack covered. */
  lemma AcceptCovers(decodes: Payload -> bool, w: World, u: World, l: Link)
    requires LinkInv(decodes, w, l) && l.received < |l.sent|
    requires u.log == w.log && u.hist.taken == w.hist.taken + {l.sent[l.received]}
    ensures var t := Accepted(l.tracker, l.sent[l.received].num);
            Covered(decodes, u, t.highest) && t.highest < w.log.next
  {
    var row := l.sent[l.received];
    assert Names(w, row) && Justified(decodes, w, l.sent, l.received);
    if Covered(decodes, w, row.num - 1) {
      assert Covered(decodes, u, row.num);
    }
  }

  lemma ServerKeeps(l: Link, accepts: bool)
    requires ServerInv(l) && l.received < |l.sent| && 0 < l.sent[l.received].num
    ensures var n := l.sent[l.received].num;
            ServerInv(l.(received := l.received + 1,
                         tracker := if accepts then Accepted(l.tracker, n) else Refused(l.tracker, n)))
  {
  }

  /** A step of the server session alone. */
  lemma SessionStep(decodes: Payload -> bool, w: World, u: World)
    requires Inv(decodes, w) && w.link.Some? && u.link.Some? && u.link.value.sent == w.link.value.sent
    requires u == w.(link := u.link, hist := u.hist) && w.hist.taken <= u.hist.taken
    requires LinkInv(decodes, u, u.link.value)
    ensures Inv(decodes, u)
  {
    assert Evolves(w, u);
    CoveredStays(decodes, w, u, w.agent.ackSeq);
    DrainKept(decodes, w, u);
  }

  lemma HandledLink(decodes: Payload -> bool, w: World, accepts: bool)
    requires Inv(decodes, w) && w.link.Some? && w.link.value.received < |w.link.value.sent|
    ensures LinkInv(decodes, Handled(w, accepts), Handled(w, accepts).link.value)
  {
    var u := Handled(w, accepts);
    assert Evolves(w, u);
    var l := w.link.value;
    LinkStays(decodes, w, u, l);
    assert Names(w, l.sent[l.received]);
    ServerKeeps(l, accepts);
    if accepts {
      AcceptCovers(decodes, w, u, l);
    }
    LinkChanged(decodes, u, l, u.link.value);
  }

  lemma HandleStep(decodes: Payload -> bool, w: World, accepts: bool)
    requires Inv(decodes, w) && w.link.Some? && w.link.value.received < |w.link.value.sent|
    ensures Inv(decodes, Handled(w, accepts))
  {
    HandledLink(decodes, w, accepts);
    SessionStep(decodes, w, Handled(w, accepts));
  }

  lemma ReplyStep(decodes: Payload -> bool, w: World, a: Action)
    requires Inv(decodes, w) && Enabled(decodes, w, a) && (a.RefuseSnapshot? || a.SendAck?)
    ensures Inv(decodes, Apply(decodes, w, a))
  {
    var u := Apply(decodes, w, a);
    assert Evolves(w, u);
    LinkStays(decodes, w, u, w.link.value);
    LinkChanged(decodes, u, w.link.value, u.link.value);
    SessionStep(decodes, w, u);
  }

  lemma LinkChanged(decodes: Payload -> bool, w: World, l: Link, m: Link)
    requires LinkInv(decodes, w, l) && m.sent == l.sent && m.received <= |m.sent| && ServerInv(m)
    requires m.tracker.highest < w.log.next && Covered(decodes, w, m.tracker.highest)
    requires m.down == l.down || m.down == l.down + [RateLimit] || m.down == l.down + [Ack(m.tracker.highest)]
    ensures LinkInv(decodes, w, m)
  {
  }

  // ---------------------------------------------------------------- the receive loop

  lemma LinkRead(decodes: Payload -> bool, w: World, l: Link)
    requires LinkInv(decodes, w, l) && l.down != []
    ensures LinkInv(decodes, w, l.(down := l.down[1..]))
  {
  }

  lemma ReceiveStep(decodes: Payload -> bool, w: World, retryAfter: int, at: int)
    requires Inv(decodes, w) && w.link.Some? && w.link.value.down != []
    ensures Inv(decodes, Received(w, retryAfter, at))
  {
    var u := Received(w, retryAfter, at);
    assert Evolves(w, u);
    var l := w.link.value;
    LinkRead(decodes, w, l);
    LinkStays(decodes, w, u, u.link.value);
    match l.down[0] {
      case Ack(n) =>
        assert Covered(decodes, w, n);
        CoveredStays(decodes, w, u, u.agent.ackSeq);
        DrainKept(decodes, w, u);
      case RateLimit =>
        AtAck(decodes, w, u);
        DrainRewound(decodes, w, u);
    }
  }

  /** A rewind under a running drain: its generation is over, and the cursor is back on covered ground. */
  lemma DrainRewound(decodes: Payload -> bool, w: World, u: World)
    requires Inv(decodes, w) && u.log == w.log && u.hist.taken == w.hist.taken
    requires u.drain == w.drain && u.attached == w.attached && w.link.Some? && u.link.Some?
    requires u.link.value.sent == w.link.value.sent && u.agent.generation == w.agent.generation + 1
    requires Covered(decodes, u, u.agent.sendSeq)
    ensures DrainInv(decodes, u)
  {
    assert Evolves(w, u);
    if w.attached {
      var sent := w.link.value.sent;
      match w.drain {
        case Idle =>
        case Ended =>
        case Reading(after, _) => FrontierStays(decodes, w, u, sent, after);
        case Sending(_, batch) => DrainStays(decodes, w, u, sent, batch);
        case Checked(_, batch) => DrainStays(decodes, w, u, sent, batch);
        case Sent(_, batch) => BatchStays(w, u, batch);
      }
    }
  }

  lemma Step(decodes: Payload -> bool, w: World, a: Action)
    requires Inv(decodes, w) && Enabled(decodes, w, a)
    ensures Inv(decodes, Apply(decodes, w, a))
  {
    if a.Offer? || a.TakeBatch? || a.AppendBatch? || a.PutBack? || a.TrimDisk? || a.Expire? || a.Purge? {
      StoreStep(decodes, w, a);
    } else if a.Attach? {
      AttachStep(decodes, w);
    } else if a.Push? {
      PushStep(decodes, w);
    } else if a.Dial? || a.Detach? || a.Cut? || a.HangUp? || a.Crash? {
      StreamStep(decodes, w, a);
    } else if a.Accept? || a.Refuse? {
      HandleStep(decodes, w, a.Accept?);
    } else if a.RefuseSnapshot? || a.SendAck? {
      ReplyStep(decodes, w, a);
    } else if a.Receive? {
      ReceiveStep(decodes, w, a.retryAfter, a.at);
    } else if a.Skip? {
      SkipStep(decodes, w);
    } else if a.Advance? {
      MovedStep(decodes, w);
    } else {
      PauseStep(decodes, w, a);
    }
  }
}
