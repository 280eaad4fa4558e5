/**
 * The agent's outbound queue, in memory: internal/agent/spool.go.
 *
 * Each method of `Spool` is one critical section of the mutex; what a goroutine
 * does between two of them is an interleaving of the protocol in Delivery.dfy.
 * The functions are the values those sections compute.
 */
module Spools {
  import opened RowLog

  const SECOND: int := 1_000_000_000
  const FLUSH_EVENTS: nat := 500
  const DRAIN_BATCH: nat := 200
  const MAX_INT64: nat := 0x7fff_ffff_ffff_ffff

  /** The fields the mutex guards. A zero `pausedUntil` is the zero time. */
  datatype Agent = Agent(buf: seq<Pending>, sendSeq: int, ackSeq: int, generation: nat, pausedUntil: int)

  const FRESH_AGENT := Agent([], 0, 0, 0, 0)

  function Rewound(a: Agent): (r: Agent) {
    a.(sendSeq := a.ackSeq, generation := a.generation + 1)
  }

  function Held(a: Agent, retryAfter: int, now: int): (r: Agent) {
    Rewound(a).(pausedUntil := now + if retryAfter <= 0 then SECOND else retryAfter)
  }

  function AttachedTo(a: Agent): (r: Agent) {
    Rewound(a.(pausedUntil := 0))
  }

  function AdvancedTo(a: Agent, gen: nat, n: int): (r: Agent) {
    if a.generation == gen then a.(sendSeq := n) else a
  }

  predicate AckMoves(a: Agent, n: nat) {
    n <= MAX_INT64 && a.ackSeq < n
  }

  function AckedTo(a: Agent, n: nat): (r: Agent) {
    if AckMoves(a, n) then a.(ackSeq := n) else a
  }

  /** `kept` is the longest suffix of `buf` within `budget` bytes, empty when none is. */
  ghost predicate IsLongestSuffixWithin(buf: seq<Pending>, budget: int, dropped: nat) {
    && dropped <= |buf|
    && (Bytes(buf[dropped..]) <= budget || dropped == |buf|)
    && forall i :: 0 <= i < dropped ==> budget < Bytes(buf[i..])
  }

  class Spool {
    const maxMemory: int
    var buf: seq<Pending>
    var bufBytes: int
    var sendSeq: int
    var ackSeq: int
    var generation: nat
    var pausedUntil: int
    var dropped: nat

    /** The byte count the budgets read always is the size of what is buffered. */
    ghost predicate Valid()
      reads this
    {
      bufBytes == Bytes(buf)
    }

    ghost function View(): (a: Agent)
      reads this
    {
      Agent(buf, sendSeq, ackSeq, generation, pausedUntil)
    }

    constructor (maxMemory: int)
      ensures Valid() && View() == FRESH_AGENT && dropped == 0 && this.maxMemory == maxMemory
    {
      this.maxMemory := maxMemory;
      buf, bufBytes := [], 0;
      sendSeq, ackSeq, generation, pausedUntil, dropped := 0, 0, 0, 0, 0;
    }

    /** Send: queue one event, and say which flush it calls for. */
    method Buffer(ev: Pending) returns (flushHere: bool, flushSoon: bool)
      requires Valid()
      modifies `buf, `bufBytes
      ensures Valid() && View() == old(View()).(buf := old(buf) + [ev])
      ensures flushHere <==> maxMemory <= Bytes(buf)
      ensures flushSoon <==> !flushHere && FLUSH_EVENTS <= |buf|
    {
      BytesAppend(buf, [ev]);
      buf := buf + [ev];
      bufBytes := bufBytes + |ev.payload|;
      flushHere := bufBytes >= maxMemory;
      flushSoon := !flushHere && |buf| >= FLUSH_EVENTS;
    }

    /** flush, first section: the whole buffer leaves for the store. */
    method TakeBatch() returns (batch: seq<Pending>)
      requires Valid()
      modifies `buf, `bufBytes
      ensures Valid() && View() == old(View()).(buf := [])
      ensures batch == old(buf)
    {
      batch := buf;
      buf, bufBytes := [], 0;
    }

    /** flush, second section, when the append failed: the batch goes back ahead of what arrived since. */
    method PutBack(batch: seq<Pending>)
      requires Valid()
      modifies `buf, `bufBytes
      ensures Valid() && View() == old(View()).(buf := batch + old(buf))
    {
      BytesAppend(batch, buf);
      var i := 0;
      ghost var held := bufBytes;
      buf := batch + buf;
      while i < |batch|
        modifies `bufBytes
        invariant 0 <= i <= |batch|
        invariant bufBytes == held + Bytes(batch[..i])
      {
        assert batch[..i + 1] == batch[..i] + [batch[i]];
        BytesAppend(batch[..i], [batch[i]]);
        bufBytes := bufBytes + |batch[i].payload|;
        i := i + 1;
      }
      assert batch[..i] == batch;
    }

    /** Without a store the buffer is all there is: the oldest events past the budget go. */
    method TrimMemory() returns (trimmed: nat)
      requires Valid()
      modifies `buf, `bufBytes, `dropped
      ensures Valid()
      ensures IsLongestSuffixWithin(old(buf), maxMemory, trimmed)
      ensures View() == old(View()).(buf := old(buf)[trimmed..])
      ensures dropped == old(dropped) + trimmed
    {
      trimmed := 0;
      while bufBytes > maxMemory && |buf| > 0
        modifies `buf, `bufBytes
        invariant trimmed <= |old(buf)|
        invariant buf == old(buf)[trimmed..]
        invariant bufBytes == Bytes(buf)
        invariant forall i :: 0 <= i < trimmed ==> maxMemory < Bytes(old(buf)[i..])
        decreases |buf|
      {
        bufBytes := bufBytes - |buf[0].payload|;
        buf := buf[1..];
        trimmed := trimmed + 1;
      }
      dropped := dropped + trimmed;
    }

    method Advance(gen: nat, n: int) returns (moved: bool)
      modifies `sendSeq
      ensures View() == AdvancedTo(old(View()), gen, n)
      ensures moved <==> generation == gen
    {
      if generation != gen {
        return false;
      }
      sendSeq := n;
      moved := true;
    }

    /** Acked, under the lock: true when the rows up to `n` may now be purged. */
    method Acked(n: nat) returns (purge: bool)
      modifies `ackSeq
      ensures View() == AckedTo(old(View()), n)
      ensures purge <==> AckMoves(old(View()), n)
      ensures old(ackSeq) <= ackSeq
    {
      if n > MAX_INT64 || n <= ackSeq {
        return false;
      }
      ackSeq := n;
      purge := true;
    }

    method Rewind()
      modifies `sendSeq, `generation
      ensures View() == Rewound(old(View()))
    {
      sendSeq := ackSeq;
      generation := generation + 1;
    }

    method Attach()
      modifies `sendSeq, `generation, `pausedUntil
      ensures View() == AttachedTo(old(View()))
    {
      pausedUntil := 0;
      Rewind();
    }

    method RateLimited(retryAfter: int, now: int)
      modifies `sendSeq, `generation, `pausedUntil
      ensures View() == Held(old(View()), retryAfter, now)
    {
      var delay := retryAfter;
      if delay <= 0 {
        delay := SECOND;
      }
      sendSeq := ackSeq;
      generation := generation + 1;
      pausedUntil := now + delay;
    }
  }
}
