/**
 * Delivery can always go on: however a world came about, frozen acknowledgements included, a new
 * stream lets the server take every readable row that is stored.
 */
module DeliveryProgress {
  import opened RowLog
  import opened Delivery
  import opened DeliverySafety
  import opened DeliveryTheorems

  /** Neither a crash nor a dropped or expired row, and nothing refused. */
  predicate Gentle(actions: seq<Action>) {
    forall a :: a in actions ==> IsGentle(a)
  }

  predicate IsGentle(a: Action) {
    !(a.Crash? || a.TrimDisk? || a.Expire? || a.Refuse? || a.RefuseSnapshot?)
  }

  ghost predicate AllTaken(decodes: Payload -> bool, w: World) {
    forall r :: r in w.log.rows && decodes(r.event.payload) ==> r in w.hist.taken
  }

  /** Some gentle run leaves the store as it is and every readable row of it taken. */
  ghost predicate Finishes(decodes: Payload -> bool, w: World) {
    exists actions, u :: Gentle(actions) && Path(decodes, w, actions, u) && u.log == w.log && AllTaken(decodes, u)
  }

  lemma FinishesAfter(decodes: Payload -> bool, w: World, a: Action)
    requires Enabled(decodes, w, a) && IsGentle(a) && Apply(decodes, w, a).log == w.log
    requires Finishes(decodes, Apply(decodes, w, a))
    ensures Finishes(decodes, w)
  {
    var v := Apply(decodes, w, a);
    var actions, u :| Gentle(actions) && Path(decodes, v, actions, u) && u.log == v.log && AllTaken(decodes, u);
    var longer := [a] + actions;
    assert longer[1..] == actions;
    assert Gentle(longer) && Path(decodes, w, longer, u);
  }

  lemma FinishesNow(decodes: Payload -> bool, w: World)
    requires AllTaken(decodes, w)
    ensures Finishes(decodes, w)
  {
    assert Gentle([]) && Path(decodes, w, [], w);
  }

  // ---------------------------------------------------------------- on a stream of its own

  /** A live stream that nothing is under way on but the drain, all below the cursor taken. */
  ghost predicate OnTrack(decodes: Payload -> bool, w: World) {
    && ValidLog(w.log) && w.attached && Live(w) && w.link.value.received == |w.link.value.sent|
    && Covered(decodes, w, w.agent.sendSeq)
    && (w.drain.Idle? || (w.drain.Sending? && w.drain.gen == w.agent.generation && w.drain.batch != []
                          && w.drain.batch <= Above(w.log.rows, w.agent.sendSeq)))
  }

  lemma AboveNext(rows: seq<Row>, n: int)
    requires Increasing(rows) && Above(rows, n) != []
    ensures var first := Above(rows, n)[0];
            && first in rows && n < first.num && Above(rows, first.num) == Above(rows, n)[1..]
            && forall r :: r in rows && r.num <= first.num ==> r.num <= n || r == first
  {
    var all := Above(rows, n);
    var first := all[0];
    assert first in all;
    FilterIncreasing(rows, (x: Row) => n < x.num);
    AboveTwice(rows, n, first.num);
    FirstOnly(all);
    forall r | r in rows && n < r.num <= first.num
      ensures r == first
    {
      assert r in all;
      var i :| 0 <= i < |all| && all[i] == r;
    }
  }

  lemma {:induction false} AboveTwice(rows: seq<Row>, n: int, m: int)
    requires n <= m
    ensures Above(rows, m) == Above(Above(rows, n), m)
  {
    if rows != [] {
      AboveTwice(rows[1..], n, m);
      AboveCons(rows[0], rows[1..], n);
      AboveCons(rows[0], rows[1..], m);
      if n < rows[0].num {
        AboveCons(rows[0], Above(rows[1..], n), m);
      }
      assert rows == [rows[0]] + rows[1..];
    }
  }

  lemma AboveCons(r: Row, rows: seq<Row>, n: int)
    ensures Above([r] + rows, n) == if n < r.num then [r] + Above(rows, n) else Above(rows, n)
  {
    assert ([r] + rows)[1..] == rows;
  }

  lemma FirstOnly(all: seq<Row>)
    requires all != [] && Increasing(all)
    ensures Above(all, all[0].num) == all[1..]
  {
    var rest := all[1..];
    assert all == [all[0]] + rest;
    AboveCons(all[0], rest, all[0].num);
    AboveAll(rest, all[0].num);
  }

  lemma {:induction false} AboveAll(rows: seq<Row>, n: int)
    requires forall i :: 0 <= i < |rows| ==> n < rows[i].num
    ensures Above(rows, n) == rows
  {
    if rows != [] {
      AboveAll(rows[1..], n);
      AboveCons(rows[0], rows[1..], n);
      assert rows == [rows[0]] + rows[1..];
    }
  }

  /** One row of the batch is over: skipped, or pushed, taken and passed. */
  lemma RowPassed(decodes: Payload -> bool, w: World, v: World)
    requires OnTrack(decodes, w) && w.drain.Sending?
    requires v.log == w.log && v.attached && Live(v) && v.link.value.received == |v.link.value.sent|
    requires v.agent == w.agent.(sendSeq := w.drain.batch[0].num) && v.drain == Rest(w.drain.gen, w.drain.batch)
    requires w.hist.taken <= v.hist.taken
    requires decodes(w.drain.batch[0].event.payload) ==> w.drain.batch[0] in v.hist.taken
    ensures OnTrack(decodes, v) && |Above(v.log.rows, v.agent.sendSeq)| < |Above(w.log.rows, w.agent.sendSeq)|
  {
    var rows, n, batch := w.log.rows, w.agent.sendSeq, w.drain.batch;
    assert batch[0] == Above(rows, n)[0];
    AboveNext(rows, n);
    assert batch[1..] <= Above(rows, n)[1..];
  }

  lemma Skipped(decodes: Payload -> bool, w: World)
    requires OnTrack(decodes, w) && w.drain.Sending? && !decodes(w.drain.batch[0].event.payload)
    ensures var v := Apply(decodes, w, Skip);
            && OnTrack(decodes, v) && v.log == w.log
            && |Above(v.log.rows, v.agent.sendSeq)| < |Above(w.log.rows, w.agent.sendSeq)|
  {
    RowPassed(decodes, w, Apply(decodes, w, Skip));
  }

  lemma Pushed(decodes: Payload -> bool, w: World) returns (v: World)
    requires OnTrack(decodes, w) && w.drain.Sending? && decodes(w.drain.batch[0].event.payload)
    ensures var l := w.link.value;
            v == OnLink(w, l.(sent := l.sent + [w.drain.batch[0]])).(drain := Sent(w.drain.gen, w.drain.batch))
    ensures Finishes(decodes, v) ==> Finishes(decodes, w)
  {
    var w1 := Apply(decodes, w, Check);
    v := Apply(decodes, w1, Push);
    if Finishes(decodes, v) {
      FinishesAfter(decodes, w1, Push);
      FinishesAfter(decodes, w, Check);
    }
  }

  /** Checked, pushed, taken and passed. */
  lemma Taken(decodes: Payload -> bool, w: World) returns (v: World)
    requires OnTrack(decodes, w) && w.drain.Sending? && decodes(w.drain.batch[0].event.payload)
    ensures OnTrack(decodes, v) && v.log == w.log && (Finishes(decodes, v) ==> Finishes(decodes, w))
    ensures |Above(v.log.rows, v.agent.sendSeq)| < |Above(w.log.rows, w.agent.sendSeq)|
  {
    var w1 := Pushed(decodes, w);
    assert w1.link.value.sent[w1.link.value.received] == w.drain.batch[0];
    var w2 := Apply(decodes, w1, Accept);
    v := Apply(decodes, w2, Advance);
    RowPassed(decodes, w, v);
    if Finishes(decodes, v) {
      FinishesAfter(decodes, w2, Advance);
      FinishesAfter(decodes, w1, Accept);
    }
  }

  lemma ReadsOn(decodes: Payload -> bool, w: World) returns (v: World)
    requires OnTrack(decodes, w) && w.drain.Idle? && Above(w.log.rows, w.agent.sendSeq) != []
    ensures OnTrack(decodes, v) && v.drain.Sending? && v.log == w.log && v.agent == w.agent
    ensures Finishes(decodes, v) ==> Finishes(decodes, w)
  {
    var begin := Begin(w.agent.pausedUntil);
    var w1 := Apply(decodes, w, begin);
    v := Apply(decodes, w1, Read);
    if Finishes(decodes, v) {
      FinishesAfter(decodes, w1, Read);
      FinishesAfter(decodes, w, begin);
    }
  }

  /** Row by row, batch by batch, to the end of the store. */
  lemma {:induction false} DrainFinishes(decodes: Payload -> bool, w: World)
    requires OnTrack(decodes, w)
    ensures Finishes(decodes, w)
    decreases |Above(w.log.rows, w.agent.sendSeq)|, if w.drain.Idle? then 1 else 0
  {
    var all := Above(w.log.rows, w.agent.sendSeq);
    if w.drain.Sending? {
      if decodes(w.drain.batch[0].event.payload) {
        var v := Taken(decodes, w);
        DrainFinishes(decodes, v);
      } else {
        Skipped(decodes, w);
        DrainFinishes(decodes, Apply(decodes, w, Skip));
        FinishesAfter(decodes, w, Skip);
      }
    } else if all != [] {
      var v := ReadsOn(decodes, w);
      DrainFinishes(decodes, v);
    } else {
      forall r | r in w.log.rows
        ensures r.num <= w.agent.sendSeq
      {
        assert r !in all;
      }
      FinishesNow(decodes, w);
    }
  }

  // ---------------------------------------------------------------- a new stream

  lemma DialFinishes(decodes: Payload -> bool, w: World)
    requires Inv(decodes, w) && w.link.None?
    ensures Finishes(decodes, w)
  {
    var w1 := Apply(decodes, w, Dial);
    var w2 := Apply(decodes, w1, Attach);
    DrainFinishes(decodes, w2);
    FinishesAfter(decodes, w1, Attach);
    FinishesAfter(decodes, w, Dial);
  }

  lemma HangUpFinishes(decodes: Payload -> bool, w: World)
    requires Inv(decodes, w) && !w.attached
    ensures Finishes(decodes, w)
    decreases if w.purge.Some? then 1 else 0
  {
    if w.purge.Some? {
      Step(decodes, w, Purge(false));
      HangUpFinishes(decodes, Apply(decodes, w, Purge(false)));
      FinishesAfter(decodes, w, Purge(false));
    } else if w.link.Some? {
      Step(decodes, w, HangUp);
      DialFinishes(decodes, Apply(decodes, w, HangUp));
      FinishesAfter(decodes, w, HangUp);
    } else {
      DialFinishes(decodes, w);
    }
  }

  /** How far the drain is from letting go of its stream. */
  function Hold(w: World): (n: nat) {
    match w.drain
    case Idle => 0
    case Ended => 0
    case Reading(_, _) => 1
    case Sending(_, _) => 1
    case Checked(_, _) => 1
    case Sent(_, _) => 2
  }

  /** Whatever the drain is at, it lets go of the stream, and a new one takes everything. */
  lemma {:induction false} DetachFinishes(decodes: Payload -> bool, w: World)
    requires Inv(decodes, w) && w.attached
    ensures Finishes(decodes, w)
    decreases Hold(w)
  {
    var a := match w.drain
      case Idle => Detach
      case Ended => Detach
      case Reading(_, _) => Stop
      case Sending(_, _) => Stop
      case Checked(_, _) => PushFails
      case Sent(_, _) => Advance;
    Step(decodes, w, a);
    var v := Apply(decodes, w, a);
    if a.Detach? {
      HangUpFinishes(decodes, v);
    } else {
      DetachFinishes(decodes, v);
    }
    FinishesAfter(decodes, w, a);
  }

  /**
   * From every reachable world, whatever was refused, frozen or cut, some run without a crash, a
   * drop or an expiry leaves the store as it is and has the server take every readable row of it.
   */
  lemma DeliveryCanAlwaysFinish(decodes: Payload -> bool, w: World)
    requires Reachable(decodes, w)
    ensures Finishes(decodes, w)
  {
    ReachableIsGood(decodes, w);
    if w.attached {
      DetachFinishes(decodes, w);
    } else {
      HangUpFinishes(decodes, w);
    }
  }
}
