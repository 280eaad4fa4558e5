/**
 * The server's half of the delivery protocol: which sequence a stream may
 * acknowledge (internal/commercial/multihost/ack.go).
 */
module AckTracking {
  import opened Collections

  const ACK_EVERY: nat := 100
  const ACK_INTERVAL: int := 5_000_000_000

  /** `refused` and `highest` are 0 when there is none: row numbers start at 1. */
  datatype Tracker = Tracker(highest: nat, refused: nat, acked: nat)

  const FRESH_TRACKER := Tracker(0, 0, 0)

  function Accepted(t: Tracker, n: nat): (r: Tracker) {
    if n == 0 then t
    else if 0 < t.refused < n then t
    else if 0 < t.refused then t.(refused := 0, highest := n)
    else t.(highest := if t.highest < n then n else t.highest)
  }

  function Refused(t: Tracker, n: nat): (r: Tracker) {
    if n == 0 then t
    else if t.refused == 0 || n < t.refused then t.(refused := n)
    else t
  }

  predicate Owes(t: Tracker) {
    t.acked < t.highest
  }

  class AckTracker {
    var accepted: nat
    var highest: nat
    var refused: nat
    var acked: nat
    var lastAck: int

    ghost function View(): (t: Tracker)
      reads this
    {
      Tracker(highest, refused, acked)
    }

    constructor (now: int)
      ensures View() == FRESH_TRACKER && accepted == 0 && lastAck == now
    {
      accepted, highest, refused, acked, lastAck := 0, 0, 0, 0, now;
    }

    method Accept(n: nat)
      modifies `accepted, `refused, `highest
      ensures View() == Accepted(old(View()), n) && accepted == old(accepted) + 1
    {
      accepted := accepted + 1;
      if n == 0 {
        return;
      }
      if refused > 0 {
        if n > refused {
          return;
        }
        refused := 0;
        highest := n;
        return;
      }
      if highest < n {
        highest := n;
      }
    }

    method Refuse(n: nat)
      modifies `refused
      ensures View() == Refused(old(View()), n)
    {
      if n == 0 {
        return;
      }
      if refused == 0 || n < refused {
        refused := n;
      }
    }

    /** Pending: the sequence to acknowledge, when it is past the last ack. */
    method Pending() returns (n: Option<nat>)
      ensures n == if Owes(View()) then Some(highest) else None
    {
      if highest <= acked {
        return None;
      }
      n := Some(highest);
    }

    /** AfterEvent: an ack waits for a hundredth event or for the interval. */
    method AfterEvent(now: int) returns (n: Option<nat>)
      ensures n.Some? <==> Owes(View()) && (accepted % ACK_EVERY == 0 || ACK_INTERVAL <= now - lastAck)
      ensures n.Some? ==> n.value == highest
    {
      if accepted % ACK_EVERY != 0 && now - lastAck < ACK_INTERVAL {
        return None;
      }
      n := Pending();
    }

    method Sent(n: nat, now: int)
      modifies `acked, `lastAck
      ensures View() == old(View()).(acked := n) && lastAck == now
    {
      acked := n;
      lastAck := now;
    }
  }
}
