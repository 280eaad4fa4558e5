/**
 * What an active alert says about the events that led to it, over every faultless run.
 *
 * The reference reads the run backwards and knows nothing of the engine's map: an alert
 * is open from the first unsilenced fire after the last close of its key, and it shows
 * the first of the fires since then that none outranks.
 */
module AlertHistory {
  import opened AlertEngine

  predicate Fires(op: Op, k: Key) {
    op.Process? && !op.evt.isRecover && op.evt.key == k
  }

  predicate Closes(op: Op, k: Key) {
    (op.Process? && op.evt.isRecover && op.evt.key == k) || (op.Resolve? && OfEntity(k, op.entityType, op.entityId))
  }

  ghost predicate ClosedBetween(ops: seq<Op>, k: Key, i: int, j: int)
    requires -1 <= i && j <= |ops|
  {
    exists c :: i < c < j && Closes(ops[c], k)
  }

  predicate Opener(ops: seq<Op>, k: Key, i: nat)
    requires i < |ops|
  {
    Fires(ops[i], k) && !ops[i].silenced
  }

  /** The alert open at the end of the run was opened by `ops[i]`. */
  ghost predicate IsOpening(ops: seq<Op>, k: Key, i: nat) {
    && i < |ops| && Opener(ops, k, i)
    && !ClosedBetween(ops, k, i, |ops|)
    && forall j :: 0 <= j < i && Opener(ops, k, j) ==> ClosedBetween(ops, k, j, i)
  }

  /** `ops[j]` is the first of the fires since `ops[i]` that no other one outranks. */
  ghost predicate IsPeak(ops: seq<Op>, k: Key, i: nat, j: nat) {
    && i <= j < |ops| && Fires(ops[j], k)
    && forall m :: i <= m < |ops| && Fires(ops[m], k) ==>
         && Rank(ops[m].evt.severity) <= Rank(ops[j].evt.severity)
         && (m < j ==> Rank(ops[m].evt.severity) < Rank(ops[j].evt.severity))
  }

  /** The alert was opened by `first` and shows the fields of `peak`. */
  ghost predicate Shows(a: Alert, first: Event, peak: Event) {
    && a.firedAt == first.timestamp && a.agentId == AgentOf(first.agentId)
    && a.severity == peak.severity && a.message == peak.message
    && a.entityName == peak.entityName && a.details == peak.details
  }

  ghost predicate Explains(ops: seq<Op>, k: Key, i: nat, j: nat, a: Alert) {
    IsOpening(ops, k, i) && IsPeak(ops, k, i, j) && Shows(a, ops[i].evt, ops[j].evt)
  }

  ghost predicate Explained(ops: seq<Op>, k: Key, s: State) {
    if k in s.active then exists i: nat, j: nat :: Explains(ops, k, i, j, s.active[k])
    else forall i: nat :: !IsOpening(ops, k, i)
  }

  // ---------------------------------------------------------------- one more operation

  /** An opener that no close follows leads back to an opening. */
  lemma {:induction false} OpenerFindsOpening(ops: seq<Op>, k: Key, j: nat) returns (i: nat)
    requires j < |ops| && Opener(ops, k, j) && !ClosedBetween(ops, k, j, |ops|)
    ensures IsOpening(ops, k, i)
    decreases j
  {
    i := j;
    if m :| 0 <= m < j && Opener(ops, k, m) && !ClosedBetween(ops, k, m, j) {
      i := OpenerFindsOpening(ops, k, m);
    }
  }

  lemma OpeningKept(ops: seq<Op>, op: Op, k: Key, i: nat)
    requires !Closes(op, k) && i < |ops|
    ensures IsOpening(ops + [op], k, i) <==> IsOpening(ops, k, i)
  {
    var more := ops + [op];
    forall a: int, b: int | -1 <= a && b <= |ops|
      ensures ClosedBetween(more, k, a, b) <==> ClosedBetween(ops, k, a, b)
    {
      if c :| a < c < b && Closes(ops[c], k) { assert Closes(more[c], k); }
      if c :| a < c < b && Closes(more[c], k) { assert Closes(ops[c], k); }
    }
    if c :| i < c < |more| && Closes(more[c], k) { assert Closes(ops[c], k); }
    if c :| i < c < |ops| && Closes(ops[c], k) { assert Closes(more[c], k); }
    forall j | 0 <= j < |ops|
      ensures Opener(more, k, j) <==> Opener(ops, k, j)
    {
    }
  }

  /** A fire of an idle, unsilenced key opens its alert. */
  lemma NewOpening(ops: seq<Op>, op: Op, k: Key)
    requires Fires(op, k) && !op.silenced && forall i: nat :: !IsOpening(ops, k, i)
    ensures IsOpening(ops + [op], k, |ops|) && IsPeak(ops + [op], k, |ops|, |ops|)
  {
    var more := ops + [op];
    forall j | 0 <= j < |ops| && Opener(more, k, j)
      ensures ClosedBetween(more, k, j, |ops|)
    {
      assert Opener(ops, k, j);
      if !ClosedBetween(ops, k, j, |ops|) {
        var i := OpenerFindsOpening(ops, k, j);
        assert false;
      }
      var c :| j < c < |ops| && Closes(ops[c], k);
      assert Closes(more[c], k);
    }
  }

  lemma ExplainedFire(ops: seq<Op>, op: Op, k: Key, s: State)
    requires Explained(ops, k, s) && Fires(op, k) && op.f == NO_FAULTS
    ensures Explained(ops + [op], k, Processed(s, op.evt, op.silenced, op.f))
  {
    var more, t, n := ops + [op], Processed(s, op.evt, op.silenced, op.f), |ops|;
    if k in s.active {
      var i: nat, j: nat :| Explains(ops, k, i, j, s.active[k]);
      OpeningKept(ops, op, k, i);
      if Rank(ops[j].evt.severity) < Rank(op.evt.severity) {
        assert IsPeak(more, k, i, n);
        assert Explains(more, k, i, n, t.active[k]);
      } else {
        assert IsPeak(more, k, i, j);
        assert Explains(more, k, i, j, t.active[k]);
      }
    } else if op.silenced {
      forall i: nat ensures !IsOpening(more, k, i) {
        if i < n { OpeningKept(ops, op, k, i); }
      }
    } else {
      NewOpening(ops, op, k);
      assert Explains(more, k, n, n, t.active[k]);
    }
  }

  lemma ExplainedClose(ops: seq<Op>, op: Op, k: Key, t: State)
    requires Closes(op, k) && k !in t.active
    ensures Explained(ops + [op], k, t)
  {
    var more := ops + [op];
    forall i: nat ensures !IsOpening(more, k, i) {
      if i < |ops| { assert Closes(more[|ops|], k); }
    }
  }

  /** An operation about other keys leaves the key's alert and its explanation alone. */
  lemma ExplainedOther(ops: seq<Op>, op: Op, k: Key, s: State, t: State)
    requires Explained(ops, k, s) && !Fires(op, k) && !Closes(op, k)
    requires k in s.active <==> k in t.active
    requires k in s.active ==> SameButAck(t.active[k], s.active[k])
    ensures Explained(ops + [op], k, t)
  {
    var more, n := ops + [op], |ops|;
    if k in s.active {
      var i: nat, j: nat :| Explains(ops, k, i, j, s.active[k]);
      OpeningKept(ops, op, k, i);
      assert IsPeak(more, k, i, j);
      assert Explains(more, k, i, j, t.active[k]);
    } else {
      forall i: nat ensures !IsOpening(more, k, i) {
        if i < n { OpeningKept(ops, op, k, i); }
      }
    }
  }

  lemma OtherKeys(s: State, op: Op, k: Key)
    requires MirrorsStore(s) && Enabled(s, op) && Faultless(op) && !Fires(op, k) && !Closes(op, k)
    ensures var t := Apply(s, op);
            (k in s.active <==> k in t.active) && (k in s.active ==> SameButAck(t.active[k], s.active[k]))
  {
    match op {
      case Restart(listed) =>
        IndexedNames(s.store, listed);
        var t := Indexed(s.store, listed);
        if k in s.active { assert s.active[k].id in listed; }
        if k in t {
          var i :| i in listed && t[k] == s.store[i];
          assert s.active[k].id == i;
        }
      case _ =>
    }
  }

  lemma CloseRemoves(s: State, op: Op, k: Key)
    requires Enabled(s, op) && Faultless(op) && Closes(op, k)
    ensures k !in Apply(s, op).active
  {
  }

  lemma {:induction false} PathLast(s: State, ops: seq<Op>, t: State) returns (u: State)
    requires ops != [] && Path(s, ops, t)
    ensures Path(s, ops[..|ops| - 1], u) && Enabled(u, ops[|ops| - 1]) && t == Apply(u, ops[|ops| - 1])
    decreases |ops|
  {
    var n := |ops| - 1;
    if n == 0 {
      u := s;
      assert ops[1..] == [];
    } else {
      u := PathLast(Apply(s, ops[0]), ops[1..], t);
      assert ops[1..][..n - 1] == ops[..n][1..];
    }
  }

  lemma {:induction false} RunIsExplained(ops: seq<Op>, t: State, k: Key)
    requires Path(EMPTY_STATE, ops, t) && forall op :: op in ops ==> Faultless(op)
    ensures Explained(ops, k, t)
    decreases |ops|
  {
    if ops != [] {
      var n := |ops| - 1;
      var u := PathLast(EMPTY_STATE, ops, t);
      var before, op := ops[..n], ops[n];
      RunIsExplained(before, u, k);
      EveryFaultlessRunMirrorsStore(EMPTY_STATE, before, u);
      assert ops == before + [op] && op in ops;
      if Fires(op, k) {
        ExplainedFire(before, op, k, u);
      } else if Closes(op, k) {
        CloseRemoves(u, op, k);
        ExplainedClose(before, op, k, t);
      } else {
        OtherKeys(u, op, k);
        ExplainedOther(before, op, k, u, t);
      }
    }
  }

  /**
   * After any faultless run, with silences, acknowledgements, restarts and entity removals
   * anywhere: a key has an active alert exactly when the run left one open, and that alert
   * carries the highest severity fired since it opened, with the fields of the first event
   * that reached it and the time of the event that opened it.
   */
  lemma ActiveAlertTellsItsHistory(ops: seq<Op>, t: State, k: Key)
    requires Path(EMPTY_STATE, ops, t) && forall op :: op in ops ==> Faultless(op)
    ensures k in t.active <==> exists i: nat :: IsOpening(ops, k, i)
    ensures k in t.active ==> exists i: nat, j: nat :: Explains(ops, k, i, j, t.active[k])
    ensures forall i: nat, j: nat :: k in t.active && IsOpening(ops, k, i) && IsPeak(ops, k, i, j) ==>
            Shows(t.active[k], ops[i].evt, ops[j].evt)
  {
    RunIsExplained(ops, t, k);
    if k in t.active {
      var i0: nat, j0: nat :| Explains(ops, k, i0, j0, t.active[k]);
      forall i: nat, j: nat | IsOpening(ops, k, i) && IsPeak(ops, k, i, j)
        ensures i == i0 && j == j0
      {
        OpeningUnique(ops, k, i, i0);
        PeakUnique(ops, k, i, j, j0);
      }
    }
  }

  lemma OpeningUnique(ops: seq<Op>, k: Key, i: nat, j: nat)
    requires IsOpening(ops, k, i) && IsOpening(ops, k, j)
    ensures i == j
  {
    OpeningsOrdered(ops, k, i, j);
    OpeningsOrdered(ops, k, j, i);
  }

  lemma OpeningsOrdered(ops: seq<Op>, k: Key, i: nat, j: nat)
    requires IsOpening(ops, k, i) && IsOpening(ops, k, j)
    ensures j <= i
  {
    StillOpenEarlier(ops, k, i, j);
  }

  lemma StillOpenEarlier(ops: seq<Op>, k: Key, i: nat, j: nat)
    requires j <= |ops| && !ClosedBetween(ops, k, i, |ops|)
    ensures !ClosedBetween(ops, k, i, j)
  {
  }

  lemma PeakUnique(ops: seq<Op>, k: Key, i: nat, j: nat, m: nat)
    requires IsPeak(ops, k, i, j) && IsPeak(ops, k, i, m)
    ensures j == m
  {
  }
}
