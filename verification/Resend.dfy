/**
 * Events of an agent delivered again (internal/agent/spool.go, internal/container/service.go).
 *
 * A rewound drain sends a whole suffix of the agent's events once more, in order and as they
 * were. Those newer than the stream are not marked as replays, so they are handled live, and
 * each rewrites the row it wrote the first time.
 */
module Resend {
  import opened Collections
  import opened Timeline

  /** Live handling of a list of events. */
  function Sent(e: Entry, evts: seq<Event>): (r: Entry)
    decreases |evts|
  {
    if evts == [] then e else Sent(Processed(e, evts[0], []), evts[1..])
  }

  function RowFor(evt: Event, before: CState, after: CState): (t: Transition) {
    Transition(IdOf(evt, StateRow), before, after, None, None, evt.at)
  }

  predicate ReportsState(evt: Event) {
    !evt.replayed && evt.event != "" && evt.action != "destroy" && evt.action != "health_status"
  }

  /** The events took the container through these states, one change each. */
  ghost predicate Takes(evts: seq<Event>, states: seq<CState>) {
    && |states| == |evts| + 1
    && (forall i :: 0 <= i < |evts| ==> ReportsState(evts[i]))
    && (forall i :: 0 <= i < |evts| ==> Target(evts[i], states[i]) == Some(states[i + 1]) && states[i] != states[i + 1])
    && (forall i, j :: 0 <= i < j < |evts| ==> evts[i].event != evts[j].event)
  }

  /** No earlier row is named after one of the events. */
  ghost predicate Unseen(rows: seq<Transition>, evts: seq<Event>) {
    forall i, j :: 0 <= i < |rows| && 0 <= j < |evts| ==> rows[i].id != IdOf(evts[j], StateRow)
  }

  /** From position `base` on, the rows of the events from the `from`-th on are as they wrote them. */
  ghost predicate Holds(rows: seq<Transition>, base: nat, evts: seq<Event>, states: seq<CState>, from: nat)
    requires Takes(evts, states)
  {
    && |rows| == base + |evts|
    && (forall j :: 0 <= j < |evts| ==> Find(rows, IdOf(evts[j], StateRow)) == base + j)
    && (forall j :: from <= j < |evts| ==> rows[base + j] == RowFor(evts[j], states[j], states[j + 1]))
  }

  ghost predicate At(e: Entry, s: CState) {
    e.c.Some? && !e.c.value.ignored && e.c.value.state == s
  }

  // ---------------------------------------------------------------- the first time

  /** Each event appends its row and leaves the container in the state it announces. */
  lemma {:induction false} FirstTime(e: Entry, evts: seq<Event>, states: seq<CState>)
    requires Takes(evts, states) && At(e, states[0]) && Unseen(e.rows, evts) && Unbroken(e) && WellKept(e.rows)
    ensures var r := Sent(e, evts);
            At(r, states[|evts|]) && Unbroken(r) && WellKept(r.rows) && Holds(r.rows, |e.rows|, evts, states, 0)
    decreases |evts|
  {
    if evts == [] {
    } else {
      var t := RowFor(evts[0], states[0], states[1]);
      assert Find(e.rows, t.id) == |e.rows|;
      var e1 := Processed(e, evts[0], []);
      assert e1.rows == e.rows + [t];
      StateChangeUnbrokenIff(e, evts[0], states[1]);
      FirstTime(e1, evts[1..], states[1..]);
      FirstRowStays(e1, evts[1..], |e.rows|);
      HoldsOneMore(Sent(e1, evts[1..]).rows, |e.rows|, evts, states);
    }
  }

  /** Later events do not touch the rows that were there. */
  lemma {:induction false} FirstRowStays(e: Entry, evts: seq<Event>, k: nat)
    requires (forall j :: 0 <= j < |evts| ==> ReportsState(evts[j])) && Unseen(e.rows, evts) && k < |e.rows|
    requires forall i, j :: 0 <= i < j < |evts| ==> evts[i].event != evts[j].event
    ensures var r := Sent(e, evts); |e.rows| <= |r.rows| && r.rows[k] == e.rows[k]
    decreases |evts|
  {
    if evts != [] {
      var e1 := Processed(e, evts[0], []);
      assert Find(e.rows, IdOf(evts[0], StateRow)) == |e.rows|;
      assert e.rows <= e1.rows;
      forall i, j | 0 <= i < |e1.rows| && 0 <= j < |evts[1..]|
        ensures e1.rows[i].id != IdOf(evts[1..][j], StateRow)
      {
        assert evts[1..][j] == evts[j + 1];
      }
      FirstRowStays(e1, evts[1..], k);
    }
  }

  lemma HoldsOneMore(rows: seq<Transition>, base: nat, evts: seq<Event>, states: seq<CState>)
    requires Takes(evts, states) && evts != [] && Takes(evts[1..], states[1..])
    requires Holds(rows, base + 1, evts[1..], states[1..], 0)
    requires rows[base] == RowFor(evts[0], states[0], states[1])
    requires forall i :: 0 <= i < base ==> rows[i].id != IdOf(evts[0], StateRow)
    ensures Holds(rows, base, evts, states, 0)
  {
    forall j | 0 <= j < |evts|
      ensures Find(rows, IdOf(evts[j], StateRow)) == base + j
      ensures rows[base + j] == RowFor(evts[j], states[j], states[j + 1])
    {
      if j > 0 {
        assert evts[1..][j - 1] == evts[j] && states[1..][j - 1] == states[j] && states[1..][j] == states[j + 1];
      }
    }
  }

  // ---------------------------------------------------------------- and again

  /** An event that finds its row as it wrote it, and the state it wrote it from, writes the same. */
  lemma WritesTheSame(e: Entry, base: nat, evts: seq<Event>, states: seq<CState>, i: nat)
    requires Takes(evts, states) && i < |evts| && At(e, states[i]) && Holds(e.rows, base, evts, states, i)
    ensures var r := Processed(e, evts[i], []); At(r, states[i + 1]) && r.rows == e.rows
  {
    var k := Find(e.rows, IdOf(evts[i], StateRow));
    assert e.rows[k := RowFor(evts[i], states[i], states[i + 1])] == e.rows;
  }

  /** Once the container is back on its way, the rest of the resend retraces it. */
  lemma {:induction false} Retraces(e: Entry, base: nat, evts: seq<Event>, states: seq<CState>, i: nat, k: nat)
    requires Takes(evts, states) && i <= k <= |evts| && At(e, states[i]) && Holds(e.rows, base, evts, states, i)
    ensures var r := Sent(e, evts[i..k]); At(r, states[k]) && r.rows == e.rows
    decreases k - i
  {
    if i < k {
      WritesTheSame(e, base, evts, states, i);
      assert evts[i..k][0] == evts[i] && evts[i..k][1..] == evts[i + 1..k];
      Retraces(Processed(e, evts[i], []), base, evts, states, i + 1, k);
    }
  }

  /** A row that starts elsewhere breaks an unbroken path. */
  lemma MovedStart(rows: seq<Transition>, k: nat, t: Transition, c: Container)
    requires k < |rows| && Unbroken(Entry(Some(c), rows)) && t.after == rows[k].after
    ensures Unbroken(Entry(Some(c), rows[k := t])) <==> t.before == rows[k].before
  {
    var more := rows[k := t];
    if t.before == rows[k].before {
      forall j | 0 <= j < |more| - 1
        ensures more[j].after == more[j + 1].before
      {
        assert rows[j].after == rows[j + 1].before;
      }
    } else if k > 0 {
      var j := k - 1;
      assert rows[j].after == rows[j + 1].before;
      assert more[j].after != more[j + 1].before;
    }
  }

  /** The path also has to end where the container is. */
  lemma MovedEnd(rows: seq<Transition>, c: Container, d: Container)
    requires rows != [] && rows[|rows| - 1].after == c.state
    ensures Unbroken(Entry(Some(d), rows)) <==> Unbroken(Entry(Some(c), rows)) && d.state == c.state
  {
  }

  /** The first event again: its row now starts at the state the container is in. */
  lemma FirstAgain(e: Entry, base: nat, evts: seq<Event>, states: seq<CState>)
    requires Takes(evts, states) && evts != [] && Holds(e.rows, base, evts, states, 0)
    requires At(e, states[|evts|]) && Target(evts[0], states[|evts|]) == Some(states[1])
    ensures var r := Processed(e, evts[0], []);
            && At(r, states[1]) && Holds(r.rows, base, evts, states, 1)
            && r.rows == if states[|evts|] == states[1] then e.rows
                         else e.rows[base := RowFor(evts[0], states[|evts|], states[1])]
  {
    var r := Processed(e, evts[0], []);
    if states[|evts|] != states[1] {
      var t := RowFor(evts[0], states[|evts|], states[1]);
      assert r.rows == e.rows[base := t];
      FindReplaced(e.rows, base, t, evts);
    }
  }

  lemma {:induction false} FindSame(rows: seq<Transition>, more: seq<Transition>, id: RowId)
    requires |more| == |rows| && forall i :: 0 <= i < |rows| ==> more[i].id == rows[i].id
    ensures Find(more, id) == Find(rows, id)
  {
    if rows != [] {
      FindSame(rows[1..], more[1..], id);
    }
  }

  lemma FindReplaced(rows: seq<Transition>, k: nat, t: Transition, evts: seq<Event>)
    requires k < |rows| && t.id == rows[k].id
    ensures forall j :: 0 <= j < |evts| ==>
              Find(rows[k := t], IdOf(evts[j], StateRow)) == Find(rows, IdOf(evts[j], StateRow))
  {
    forall j | 0 <= j < |evts|
      ensures Find(rows[k := t], IdOf(evts[j], StateRow)) == Find(rows, IdOf(evts[j], StateRow))
    {
      FindSame(rows, rows[k := t], IdOf(evts[j], StateRow));
    }
  }

  /** A stop that finds the container completed is not recorded. */
  predicate StopOnCompleted(evts: seq<Event>, states: seq<CState>)
    requires evts != [] && |states| == |evts| + 1
  {
    evts[0].action == "stop" && states[|evts|] == Completed
  }

  lemma TargetAgain(evts: seq<Event>, states: seq<CState>)
    requires Takes(evts, states) && evts != [] && !StopOnCompleted(evts, states)
    ensures Target(evts[0], states[|evts|]) == Some(states[1])
  {
    assert Target(evts[0], states[0]) == Some(states[1]);
  }

  /**
   * The agent's events, delivered and then delivered again up to the `k`-th: the path is unbroken
   * if and only if the container is by then where the whole suffix leaves it, and that is
   * where the suffix started or where its first event leads.
   */
  lemma ResendKeepsPathIff(e: Entry, evts: seq<Event>, states: seq<CState>, k: nat)
    requires Takes(evts, states) && At(e, states[0]) && Unseen(e.rows, evts) && Unbroken(e) && WellKept(e.rows)
    requires 0 < k <= |evts| && !StopOnCompleted(evts, states)
    ensures var once, n := Sent(e, evts), |evts|;
            && Unbroken(once)
            && (Unbroken(Sent(once, evts[..k])) <==>
                states[k] == states[n] && (states[n] == states[0] || states[n] == states[1]))
  {
    var once, base, n := Sent(e, evts), |e.rows|, |evts|;
    FirstTime(e, evts, states);
    TargetAgain(evts, states);
    FirstAgain(once, base, evts, states);
    var e1 := Processed(once, evts[0], []);
    Retraces(e1, base, evts, states, 1, k);
    assert evts[..k][0] == evts[0] && evts[..k][1..] == evts[1..k];
    var twice := Sent(once, evts[..k]);
    ResentRows(once, twice, base, evts, states, k);
  }

  lemma ResentRows(once: Entry, twice: Entry, base: nat, evts: seq<Event>, states: seq<CState>, k: nat)
    requires Takes(evts, states) && 0 < k <= |evts| && Holds(once.rows, base, evts, states, 0)
    requires At(once, states[|evts|]) && At(twice, states[k]) && Unbroken(once)
    requires twice.rows == if states[|evts|] == states[1] then once.rows
                           else once.rows[base := RowFor(evts[0], states[|evts|], states[1])]
    ensures Unbroken(twice) <==>
              states[k] == states[|evts|] && (states[|evts|] == states[0] || states[|evts|] == states[1])
  {
    var t := RowFor(evts[0], states[|evts|], states[1]);
    MovedStart(once.rows, base, t, once.c.value);
    MovedEnd(twice.rows, once.c.value, twice.c.value);
  }

  /** A stop again on a container that has completed since does nothing; only the second row may start elsewhere. */
  lemma ResendAfterCompletionKeepsPathIff(e: Entry, evts: seq<Event>, states: seq<CState>, k: nat)
    requires Takes(evts, states) && At(e, states[0]) && Unseen(e.rows, evts) && Unbroken(e) && WellKept(e.rows)
    requires evts != [] && StopOnCompleted(evts, states) && 0 < k <= |evts|
    ensures 1 < |evts|
    ensures Unbroken(Sent(Sent(e, evts), evts[..k])) <==> k == 1 || (states[2] == Completed && states[k] == Completed)
  {
    var once, base := Sent(e, evts), |e.rows|;
    FirstTime(e, evts, states);
    StopLeavesExited(evts, states);
    if k == 1 {
      StopSkipped(once, evts, states);
      SentOne(once, evts);
    } else {
      ResendPastStop(once, base, evts, states, k);
    }
  }

  lemma SentOne(e: Entry, evts: seq<Event>)
    requires evts != []
    ensures Sent(e, evts[..1]) == Processed(e, evts[0], [])
  {
    assert evts[..1][1..] == [] && evts[..1][0] == evts[0];
  }

  lemma StopLeavesExited(evts: seq<Event>, states: seq<CState>)
    requires Takes(evts, states) && evts != [] && StopOnCompleted(evts, states)
    ensures 1 < |evts|
  {
    assert Target(evts[0], states[0]) == Some(states[1]);
  }

  lemma ResendPastStop(once: Entry, base: nat, evts: seq<Event>, states: seq<CState>, k: nat)
    requires Takes(evts, states) && 1 < k <= |evts| && StopOnCompleted(evts, states)
    requires At(once, Completed) && Unbroken(once) && Holds(once.rows, base, evts, states, 0)
    ensures Unbroken(Sent(once, evts[..k])) <==> states[2] == Completed && states[k] == Completed
  {
    StopSkipped(once, evts, states);
    SecondAgain(once, base, evts, states);
    var e2 := Processed(once, evts[1], []);
    Retraces(e2, base, evts, states, 2, k);
    SentTwo(once, evts, k);
    SecondResent(once, Sent(e2, evts[2..k]), base, evts, states, k);
  }

  lemma SentTwo(e: Entry, evts: seq<Event>, k: nat)
    requires 1 < k <= |evts|
    ensures Sent(e, evts[..k]) == Sent(Processed(Processed(e, evts[0], []), evts[1], []), evts[2..k])
  {
    assert evts[..k][0] == evts[0] && evts[..k][1..] == evts[1..k];
    assert evts[1..k][0] == evts[1] && evts[1..k][1..] == evts[2..k];
  }

  lemma StopSkipped(e: Entry, evts: seq<Event>, states: seq<CState>)
    requires Takes(evts, states) && 1 < |evts| && StopOnCompleted(evts, states) && At(e, Completed)
    ensures states[1] == Exited && Processed(e, evts[0], []) == e && Target(evts[1], Completed) == Some(states[2])
  {
    assert Target(evts[0], states[0]) == Some(states[1]) && Target(evts[1], states[1]) == Some(states[2]);
  }

  lemma SecondResent(once: Entry, twice: Entry, base: nat, evts: seq<Event>, states: seq<CState>, k: nat)
    requires Takes(evts, states) && 1 < k <= |evts| && Holds(once.rows, base, evts, states, 0) && states[1] == Exited
    requires At(once, Completed) && At(twice, states[k]) && Unbroken(once)
    requires twice.rows == if states[2] == Completed then once.rows
                           else once.rows[base + 1 := RowFor(evts[1], Completed, states[2])]
    ensures Unbroken(twice) <==> states[2] == Completed && states[k] == Completed
  {
    var t := RowFor(evts[1], Completed, states[2]);
    MovedStart(once.rows, base + 1, t, once.c.value);
    MovedEnd(twice.rows, once.c.value, twice.c.value);
  }

  lemma SecondAgain(e: Entry, base: nat, evts: seq<Event>, states: seq<CState>)
    requires Takes(evts, states) && 1 < |evts| && Holds(e.rows, base, evts, states, 0)
    requires At(e, Completed) && Target(evts[1], Completed) == Some(states[2])
    ensures var r := Processed(e, evts[1], []);
            && At(r, states[2]) && Holds(r.rows, base, evts, states, 2)
            && r.rows ==
               if states[2] == Completed then e.rows else e.rows[base + 1 := RowFor(evts[1], Completed, states[2])]
  {
    var r := Processed(e, evts[1], []);
    if states[2] != Completed {
      var t := RowFor(evts[1], Completed, states[2]);
      assert r.rows == e.rows[base + 1 := t];
      FindReplaced(e.rows, base + 1, t, evts);
    }
  }

  // ---------------------------------------------------------------- an input

  function Plain(action: string, id: string, at: int): (evt: Event) {
    Event(action, None, false, "", at, false, id)
  }

  const SENT := [Plain("stop", "7", 1), Plain("start", "8", 2), Plain("pause", "9", 3)]
  const THROUGH := [Running, Exited, Running, Paused]

  lemma SentTakes()
    ensures Takes(SENT, THROUGH) && !StopOnCompleted(SENT, THROUGH)
  {
  }

  /** A stop, a start and a pause, delivered again as they were: the path is broken after each of the three, and stays
      so. */
  lemma RedeliveryBreaksPath(k: nat)
    requires 0 < k <= 3
    ensures var once := Sent(Reconciled(UNSEEN, Some(STARTED), 0), SENT);
            Unbroken(once) && !Unbroken(Sent(once, SENT[..k]))
  {
    var e := Reconciled(UNSEEN, Some(STARTED), 0);
    StepUnbrokenIff(UNSEEN, Reconcile(Some(STARTED), 0));
    SentTakes();
    ResendKeepsPathIff(e, SENT, THROUGH, k);
  }
}
