/**
 * The agent's durable queue: the spool_events table of internal/agent/spool_store.go.
 *
 * A log is the table's rows in key order together with the next AUTOINCREMENT
 * key, which only grows: a key is never given twice, whatever was deleted.
 */
module RowLog {
  import opened Collections

  const DROP_SCAN_LIMIT: nat := 50000

  type Payload = seq<bv8>

  /** One serialized event, before it has a row. */
  datatype Pending = Pending(eventId: string, observedAt: int, payload: Payload)

  datatype Row = Row(num: nat, event: Pending)

  datatype Log = Log(rows: seq<Row>, next: nat)

  const EMPTY_LOG := Log([], 1)

  ghost predicate Increasing(rows: seq<Row>) {
    forall i, j :: 0 <= i < j < |rows| ==> rows[i].num < rows[j].num
  }

  ghost predicate ValidLog(log: Log) {
    && 0 < log.next
    && Increasing(log.rows)
    && forall r :: r in log.rows ==> 0 < r.num < log.next
  }

  // ---------------------------------------------------------------- specification

  function Numbered(events: seq<Pending>, from: nat): (rows: seq<Row>)
    ensures |rows| == |events|
    ensures forall i :: 0 <= i < |rows| ==> rows[i] == Row(from + i, events[i])
  {
    seq(|events|, i requires 0 <= i < |events| => Row(from + i, events[i]))
  }

  function Appended(log: Log, events: seq<Pending>): (r: Log)
  {
    Log(log.rows + Numbered(events, log.next), log.next + |events|)
  }

  function Above(rows: seq<Row>, n: int): (r: seq<Row>) {
    Filter(rows, (x: Row) => n < x.num)
  }

  function UpTo(rows: seq<Row>, n: int): (r: seq<Row>) {
    Filter(rows, (x: Row) => x.num <= n)
  }

  function Since(rows: seq<Row>, cutoff: int): (r: seq<Row>) {
    Filter(rows, (x: Row) => cutoff <= x.event.observedAt)
  }

  function Before(rows: seq<Row>, cutoff: int): (r: seq<Row>) {
    Filter(rows, (x: Row) => x.event.observedAt < cutoff)
  }

  function Prefix<T>(s: seq<T>, n: nat): (r: seq<T>) {
    if n <= |s| then s[..n] else s
  }

  function Events(rows: seq<Row>): (r: seq<Pending>)
  {
    Map(rows, (x: Row) => x.event)
  }

  function Bytes(events: seq<Pending>): (n: nat)
  {
    if events == [] then 0 else |events[0].payload| + Bytes(events[1..])
  }

  function RowBytes(rows: seq<Row>): (n: nat) {
    Bytes(Events(rows))
  }

  /**
   * `k` is where a drop-oldest of `target` bytes stops: rows go as long as those
   * before them have not freed the target, and no scan goes past the limit.
   */
  ghost predicate IsDropPoint(rows: seq<Row>, target: int, k: nat) {
    && k <= |Prefix(rows, DROP_SCAN_LIMIT)|
    && (forall i :: 0 <= i < k ==> RowBytes(rows[..i]) < target)
    && (k < |Prefix(rows, DROP_SCAN_LIMIT)| ==> target <= RowBytes(rows[..k]))
  }

  // ---------------------------------------------------------------- lemmas

  lemma {:induction false} BytesAppend(s: seq<Pending>, t: seq<Pending>)
    ensures Bytes(s + t) == Bytes(s) + Bytes(t)
  {
    if s == [] {
      assert s + t == t;
    } else {
      BytesAppend(s[1..], t);
      assert (s + t)[1..] == s[1..] + t;
    }
  }

  lemma EventsAppend(s: seq<Row>, t: seq<Row>)
    ensures Events(s + t) == Events(s) + Events(t)
  {
  }

  lemma RowBytesSnoc(rows: seq<Row>, i: nat)
    requires i < |rows|
    ensures RowBytes(rows[..i + 1]) == RowBytes(rows[..i]) + |rows[i].event.payload|
  {
    assert rows[..i + 1] == rows[..i] + [rows[i]];
    EventsAppend(rows[..i], [rows[i]]);
    BytesAppend(Events(rows[..i]), Events([rows[i]]));
  }

  lemma AboveSnoc(rows: seq<Row>, i: nat, n: int)
    requires i < |rows|
    ensures Above(rows[..i + 1], n) == Above(rows[..i], n) + if n < rows[i].num then [rows[i]] else []
  {
    assert rows[..i + 1] == rows[..i] + [rows[i]];
    FilterAppend(rows[..i], [rows[i]], (x: Row) => n < x.num);
  }

  lemma AboveSplit(rows: seq<Row>, i: nat, n: int)
    requires i <= |rows|
    ensures Above(rows, n) == Above(rows[..i], n) + Above(rows[i..], n)
  {
    assert rows == rows[..i] + rows[i..];
    FilterAppend(rows[..i], rows[i..], (x: Row) => n < x.num);
  }

  /** A filtered log is still in key order. */
  lemma {:induction false} FilterIncreasing(rows: seq<Row>, p: Row -> bool)
    requires Increasing(rows)
    ensures Increasing(Filter(rows, p))
  {
    if rows != [] {
      FilterIncreasing(rows[1..], p);
      forall x | x in Filter(rows[1..], p)
        ensures rows[0].num < x.num
      {
        assert x in rows[1..];
      }
    }
  }

  /** Batches keep the log valid, and their rows sit above everything ever numbered. */
  lemma AppendedValid(log: Log, events: seq<Pending>)
    requires ValidLog(log)
    ensures ValidLog(Appended(log, events))
    ensures forall r :: r in Appended(log, events).rows && r !in log.rows ==> log.next <= r.num
    ensures Events(Appended(log, events).rows) == Events(log.rows) + events
  {
    EventsAppend(log.rows, Numbered(events, log.next));
    assert Events(Numbered(events, log.next)) == events;
    var all := Appended(log, events).rows;
    forall i, j | 0 <= i < j < |all|
      ensures all[i].num < all[j].num
    {
      if i < |log.rows| { assert all[i] in log.rows; }
    }
  }

  /** The drop point is unique: the disk trim has one right answer. */
  lemma DropPointUnique(rows: seq<Row>, target: int, j: nat, k: nat)
    requires IsDropPoint(rows, target, j) && IsDropPoint(rows, target, k)
    ensures j == k
  {
  }

  /**
   * What the trim removes is the shortest oldest prefix that frees the target, or
   * the whole capped scan when even that does not; and an over-budget log always
   * gives something up.
   */
  lemma DropPointShortest(rows: seq<Row>, target: int, k: nat)
    requires IsDropPoint(rows, target, k)
    ensures k < |Prefix(rows, DROP_SCAN_LIMIT)| ==> target <= RowBytes(rows[..k])
    ensures forall i :: 0 <= i <= |rows| && target <= RowBytes(rows[..i]) ==> k <= i
    ensures 0 < target && rows != [] ==> 0 < k
    ensures target <= 0 ==> k == 0
  {
    assert RowBytes(rows[..0]) == 0;
  }

  // ---------------------------------------------------------------- the table

  class SpoolStore {
    var rows: seq<Row>
    var next: nat

    ghost predicate Valid()
      reads this
    {
      ValidLog(View())
    }

    ghost function View(): (log: Log)
      reads this
    {
      Log(rows, next)
    }

    constructor ()
      ensures Valid() && View() == EMPTY_LOG
    {
      rows, next := [], 1;
    }

    /** One transaction: every event gets the next key, or a failed statement or commit leaves the table as it was. */
    method Append(events: seq<Pending>, commits: bool) returns (last: Option<nat>)
      requires Valid()
      modifies this
      ensures Valid()
      ensures last.Some? <==> commits || events == []
      ensures View() == if last.Some? then Appended(old(View()), events) else old(View())
      ensures last.Some? && events != [] ==> last.value == next - 1
    {
      if events == [] {
        assert Numbered(events, next) == [];
        assert Appended(View(), events) == View();
        return Some(0);
      }
      AppendedValid(View(), events);
      var before, beforeNext := rows, next;
      var i := 0;
      while i < |events|
        invariant 0 <= i <= |events|
        invariant next == beforeNext + i
        invariant rows == before + Numbered(events, beforeNext)[..i]
      {
        rows := rows + [Row(next, events[i])];
        next := next + 1;
        i := i + 1;
      }
      assert Numbered(events, beforeNext)[..i] == Numbered(events, beforeNext);
      if !commits {
        rows, next := before, beforeNext;
        return None;
      }
      last := Some(next - 1);
    }

    /** Up to `limit` rows strictly above `after`, oldest first. */
    method ReadFrom(after: int, limit: nat) returns (out: seq<Row>)
      requires Valid()
      ensures out == Prefix(Above(rows, after), limit)
    {
      out := [];
      var i := 0;
      while i < |rows| && |out| < limit
        invariant 0 <= i <= |rows|
        invariant |out| <= limit
        invariant out == Above(rows[..i], after)
      {
        AboveSnoc(rows, i, after);
        if after < rows[i].num {
          out := out + [rows[i]];
        }
        i := i + 1;
      }
      AboveSplit(rows, i, after);
    }

    method DeleteUpTo(n: int) returns (removed: nat)
      requires Valid()
      modifies `rows
      ensures Valid()
      ensures rows == Above(old(rows), n)
      ensures removed == |old(rows)| - |rows|
    {
      FilterIncreasing(rows, (x: Row) => n < x.num);
      var kept := Above(rows, n);
      removed := |rows| - |kept|;
      rows := kept;
    }

    method DeleteOlderThan(cutoff: int) returns (removed: nat)
      requires Valid()
      modifies `rows
      ensures Valid()
      ensures rows == Since(old(rows), cutoff)
      ensures removed == |old(rows)| - |rows|
    {
      FilterIncreasing(rows, (x: Row) => cutoff <= x.event.observedAt);
      var kept := Since(rows, cutoff);
      removed := |rows| - |kept|;
      rows := kept;
    }

    /** Drops the oldest rows until `target` bytes are freed, scanning at most DROP_SCAN_LIMIT of them. */
    method DeleteOldestBytes(target: int) returns (removed: nat)
      requires Valid()
      modifies `rows
      ensures Valid()
      ensures removed <= |old(rows)| && rows == old(rows)[removed..]
      ensures IsDropPoint(old(rows), target, removed)
    {
      var running: nat := 0;
      removed := 0;
      while removed < |rows| && removed < DROP_SCAN_LIMIT && running < target
        invariant rows == old(rows)
        invariant removed <= |Prefix(rows, DROP_SCAN_LIMIT)|
        invariant running == RowBytes(rows[..removed])
        invariant forall i :: 0 <= i < removed ==> RowBytes(rows[..i]) < target
      {
        RowBytesSnoc(rows, removed);
        running := running + |rows[removed].event.payload|;
        removed := removed + 1;
      }
      rows := rows[removed..];
    }

    /** The disk budget: past it, the overshoot and a tenth of the budget go, and at least one row does. */
    method EnforceDiskBudget(size: int, budget: int) returns (dropped: nat)
      requires Valid()
      modifies `rows
      ensures Valid()
      ensures dropped <= |old(rows)| && rows == old(rows)[dropped..]
      ensures budget <= 0 || size <= budget ==> dropped == 0
      ensures 0 < budget < size ==> IsDropPoint(old(rows), size - budget + budget / 10, dropped)
      ensures 0 < budget < size && old(rows) != [] ==> 0 < dropped
    {
      if budget <= 0 || size <= budget {
        return 0;
      }
      dropped := DeleteOldestBytes(size - budget + budget / 10);
      DropPointShortest(old(rows), size - budget + budget / 10, dropped);
    }
  }
}
