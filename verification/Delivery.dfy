/**
 * At-least-once delivery between an agent's spool and the server.
 *
 * The state machine interleaves, in any order, the goroutines that share a spool:
 * senders and flushes (several at once), the disk trim and the retention purge, the
 * drain of internal/agent/spool.go cut at every point where it gives up the mutex,
 * the receive loop, and the server session of internal/commercial/multihost. Streams
 * come up, die with messages in flight and are replaced; the process may crash.
 */
module Delivery {
  import opened Collections
  import opened RowLog
  import opened Spools
  import opened AckTracking

  datatype Reply = Ack(n: nat) | RateLimit

  /**
   * One stream. `sent` is every row pushed on it, of which the server has handled
   * the first `received`; `down` is what the server wrote and the agent has not read.
   */
  datatype Link = Link(sent: seq<Row>, received: nat, down: seq<Reply>, tracker: Tracker, dead: bool)

  /**
   * Where the drain stands between two critical sections; `batch` starts at the row in hand.
   * A cancelled or failed drain has ended: nothing more is sent before the next attach.
   */
  datatype Drain =
    | Idle
    | Ended
    | Reading(after: int, gen: nat)
    | Sending(gen: nat, batch: seq<Row>)
    | Checked(gen: nat, batch: seq<Row>)
    | Sent(gen: nat, batch: seq<Row>)

  /** What happened so far; no step reads it. */
  datatype History = History(
    offered: multiset<Pending>, taken: set<Row>,
    purged: seq<Row>, dropped: seq<Row>, expired: seq<Row>, crashed: multiset<Pending>,
    base: int, advanced: seq<Row>)

  datatype World = World(
    agent: Agent, flights: seq<seq<Pending>>, log: Log, drain: Drain, attached: bool,
    link: Option<Link>, purge: Option<nat>, hist: History)

  datatype Action =
    | Offer(ev: Pending) | TakeBatch | AppendBatch(i: nat) | PutBack(i: nat)
    | TrimDisk(target: int, k: nat) | Expire(cutoff: int)
    | Dial | Attach | Detach | Cut | HangUp | Crash
    | Begin(now: int) | Read | Skip | Check | Push | PushFails | Advance | Stop
    | Accept | Refuse | RefuseSnapshot | SendAck
    | Receive(retryAfter: int, at: int) | Purge(deleted: bool)

  const INITIAL := World(FRESH_AGENT, [], EMPTY_LOG, Idle, false, None, None,
                         History(multiset{}, {}, [], [], [], multiset{}, 0, []))

  // ---------------------------------------------------------------- steps

  predicate Live(w: World) {
    w.link.Some? && !w.link.value.dead
  }

  /** `decodes` says which payloads proto.Unmarshal accepts. */
  ghost predicate Enabled(decodes: Payload -> bool, w: World, a: Action) {
    match a
    case Offer(_) => true
    case TakeBatch => w.agent.buf != []
    case AppendBatch(i) => i < |w.flights|
    case PutBack(i) => i < |w.flights|
    case TrimDisk(target, k) => k <= |w.log.rows| && IsDropPoint(w.log.rows, target, k)
    case Expire(_) => true
    case Dial => w.link.None?
    case Attach => w.link.Some? && !w.attached
    case Detach => w.attached && (w.drain.Idle? || w.drain.Ended?)
    case Cut => w.link.Some?
    case HangUp => w.link.Some? && !w.attached && w.purge.None?
    case Crash => true
    case Begin(now) => w.attached && w.link.Some? && w.drain.Idle? && w.agent.pausedUntil <= now
    case Read => w.drain.Reading?
    case Skip => w.drain.Sending? && w.drain.batch != [] && !decodes(w.drain.batch[0].event.payload)
    case Check => w.drain.Sending? && w.drain.batch != [] && decodes(w.drain.batch[0].event.payload)
    case Push => w.drain.Checked? && w.drain.batch != [] && w.link.Some?
    case PushFails => w.drain.Checked?
    case Advance => w.drain.Sent? && w.drain.batch != []
    case Stop => w.drain.Sending? || w.drain.Reading?
    case Accept => Live(w) && w.link.value.received < |w.link.value.sent|
    case Refuse => Live(w) && w.link.value.received < |w.link.value.sent|
    case RefuseSnapshot => Live(w)
    case SendAck => Live(w) && Owes(w.link.value.tracker)
    case Receive(_, _) => w.link.Some? && w.link.value.down != [] && w.purge.None?
    case Purge(_) => w.purge.Some?
  }

  function Rest(gen: nat, batch: seq<Row>): (d: Drain)
    requires batch != []
  {
    if |batch| == 1 then Idle else Sending(gen, batch[1..])
  }

  /** The section of `advance`, then the next turn of the drain loop. */
  function Moved(w: World): (r: World)
    requires (w.drain.Sending? || w.drain.Sent?) && w.drain.batch != []
  {
    var row, gen := w.drain.batch[0], w.drain.gen;
    if w.agent.generation == gen then
      w.(agent := AdvancedTo(w.agent, gen, row.num), drain := Rest(gen, w.drain.batch),
         hist := w.hist.(advanced := w.hist.advanced + [row]))
    else w.(drain := Idle)
  }

  function NewGeneration(w: World, agent: Agent): (r: World) {
    w.(agent := agent, hist := w.hist.(base := agent.ackSeq, advanced := []))
  }

  function OnLink(w: World, link: Link): (r: World) {
    w.(link := Some(link))
  }

  function Received(w: World, retryAfter: int, at: int): (r: World)
    requires w.link.Some? && w.link.value.down != []
  {
    var l := w.link.value;
    var read := OnLink(w, l.(down := l.down[1..]));
    match l.down[0]
    case Ack(n) => read.(agent := AckedTo(w.agent, n), purge := if AckMoves(w.agent, n) then Some(n) else None)
    case RateLimit => NewGeneration(read, Held(w.agent, retryAfter, at))
  }

  /** The session handles the next row: dispatched, or refused by the rate limiter. */
  function Handled(w: World, accepts: bool): (r: World)
    requires w.link.Some? && w.link.value.received < |w.link.value.sent|
  {
    var l := w.link.value;
    var row := l.sent[l.received];
    if accepts then
      OnLink(w, l.(received := l.received + 1, tracker := Accepted(l.tracker, row.num)))
      .(hist := w.hist.(taken := w.hist.taken + {row}))
    else
      OnLink(w, l.(received := l.received + 1, tracker := Refused(l.tracker, row.num), down := l.down + [RateLimit]))
  }

  ghost function Apply(decodes: Payload -> bool, w: World, a: Action): (r: World)
    requires Enabled(decodes, w, a)
  {
    match a
    case Offer(ev) => w.(agent := w.agent.(buf := w.agent.buf + [ev]),
                         hist := w.hist.(offered := w.hist.offered + multiset{ev}))
    case TakeBatch => w.(agent := w.agent.(buf := []), flights := w.flights + [w.agent.buf])
    case AppendBatch(i) => w.(flights := w.flights[..i] + w.flights[i + 1..], log := Appended(w.log, w.flights[i]))
    case PutBack(i) => w.(flights := w.flights[..i] + w.flights[i + 1..],
                          agent := w.agent.(buf := w.flights[i] + w.agent.buf))
    case TrimDisk(_, k) => w.(log := w.log.(rows := w.log.rows[k..]),
                              hist := w.hist.(dropped := w.hist.dropped + w.log.rows[..k]))
    case Expire(c) => w.(log := w.log.(rows := Since(w.log.rows, c)),
                         hist := w.hist.(expired := w.hist.expired + Before(w.log.rows, c)))
    case Dial => OnLink(w, Link([], 0, [], FRESH_TRACKER, false))
    case Attach => NewGeneration(w, AttachedTo(w.agent)).(attached := true)
    case Detach => w.(attached := false, drain := Idle)
    case Cut => OnLink(w, w.link.value.(dead := true))
    case HangUp => w.(link := None)
    case Crash => World(FRESH_AGENT, [], w.log, Idle, false, None, None,
                        w.hist.(crashed := w.hist.crashed + multiset(w.agent.buf) + Flatten(w.flights),
                                base := 0, advanced := []))
    case Begin(_) => w.(drain := Reading(w.agent.sendSeq, w.agent.generation))
    case Read =>
      var batch := Prefix(Above(w.log.rows, w.drain.after), DRAIN_BATCH);
      w.(drain := if batch == [] then Idle else Sending(w.drain.gen, batch))
    case Skip => Moved(w)
    case Check => w.(drain := if w.agent.generation == w.drain.gen then Checked(w.drain.gen, w.drain.batch) else Idle)
    case Push => OnLink(w, w.link.value.(sent := w.link.value.sent + [w.drain.batch[0]]))
                 .(drain := Sent(w.drain.gen, w.drain.batch))
    case PushFails => w.(drain := Ended)
    case Advance => Moved(w)
    case Stop => w.(drain := Ended)
    case Accept => Handled(w, true)
    case Refuse => Handled(w, false)
    case RefuseSnapshot => OnLink(w, w.link.value.(down := w.link.value.down + [RateLimit]))
    case SendAck =>
      var l := w.link.value;
      OnLink(w, l.(down := l.down + [Ack(l.tracker.highest)], tracker := l.tracker.(acked := l.tracker.highest)))
    case Receive(retryAfter, at) => Received(w, retryAfter, at)
    case Purge(deleted) =>
      if deleted then
        w.(purge := None, log := w.log.(rows := Above(w.log.rows, w.purge.value)),
           hist := w.hist.(purged := w.hist.purged + UpTo(w.log.rows, w.purge.value)))
      else w.(purge := None)
  }

  /** `u` is reached from `w` by these actions, each enabled when it happens. */
  ghost predicate Path(decodes: Payload -> bool, w: World, actions: seq<Action>, u: World)
    decreases |actions|
  {
    if actions == [] then u == w
    else Enabled(decodes, w, actions[0]) && Path(decodes, Apply(decodes, w, actions[0]), actions[1..], u)
  }

  lemma {:induction false} PathConcat(decodes: Payload -> bool, w: World, xs: seq<Action>, v: World, ys: seq<Action>,
                                      u: World)
    requires Path(decodes, w, xs, v) && Path(decodes, v, ys, u)
    ensures Path(decodes, w, xs + ys, u)
    decreases |xs|
  {
    if xs == [] {
      assert xs + ys == ys;
    } else {
      PathConcat(decodes, Apply(decodes, w, xs[0]), xs[1..], v, ys, u);
      assert (xs + ys)[1..] == xs[1..] + ys;
    }
  }

  /** Some run of a fresh agent and its server ends in `w`. */
  ghost predicate Reachable(decodes: Payload -> bool, w: World) {
    exists actions :: Path(decodes, INITIAL, actions, w)
  }

  lemma ReachableStep(decodes: Payload -> bool, w: World, a: Action)
    requires Reachable(decodes, w) && Enabled(decodes, w, a)
    ensures Reachable(decodes, Apply(decodes, w, a))
  {
    var actions :| Path(decodes, INITIAL, actions, w);
    var u := Apply(decodes, w, a);
    assert Path(decodes, u, [a][1..], u);
    PathConcat(decodes, INITIAL, actions, w, [a], u);
  }

  // ---------------------------------------------------------------- what is covered

  /** Every stored row up to `n` that decodes has been taken by the server. */
  ghost predicate Covered(decodes: Payload -> bool, w: World, n: int) {
    forall r :: r in w.log.rows && r.num <= n && decodes(r.event.payload) ==> r in w.hist.taken
  }

  /** No stored row strictly between `lo` and `hi` decodes. */
  ghost predicate Gap(decodes: Payload -> bool, w: World, lo: int, hi: int) {
    forall r :: r in w.log.rows && lo < r.num < hi ==> !decodes(r.event.payload)
  }

  ghost predicate NoRow(w: World, lo: int, hi: int) {
    forall r :: r in w.log.rows ==> !(lo < r.num < hi)
  }

  /** The number of `row` names no other stored row. */
  ghost predicate Names(w: World, row: Row) {
    && 0 < row.num < w.log.next
    && forall r :: r in w.log.rows && r.num == row.num ==> r == row
  }

  /** Why row `sent[j]` may move the ack: nothing below it is owed, or nothing lies between it and the push before. */
  ghost predicate Justified(decodes: Payload -> bool, w: World, sent: seq<Row>, j: nat)
    requires j < |sent|
  {
    || Covered(decodes, w, sent[j].num - 1)
    || (0 < j && sent[j - 1].num < sent[j].num && Gap(decodes, w, sent[j - 1].num, sent[j].num))
  }

  /** The push of a row just above `n` would be justified. */
  ghost predicate Frontier(decodes: Payload -> bool, w: World, sent: seq<Row>, n: int) {
    || Covered(decodes, w, n)
    || (sent != [] && sent[|sent| - 1].num <= n && Gap(decodes, w, sent[|sent| - 1].num, n + 1))
  }

  ghost predicate BatchOk(w: World, batch: seq<Row>) {
    && batch != []
    && Increasing(batch)
    && (forall i :: 0 <= i < |batch| ==> Names(w, batch[i]))
    && (forall i :: 0 < i < |batch| ==> NoRow(w, batch[i - 1].num, batch[i].num))
  }

  // ---------------------------------------------------------------- invariant

  ghost predicate CursorInv(decodes: Payload -> bool, w: World) {
    && ValidLog(w.log)
    && 0 <= w.agent.ackSeq < w.log.next
    && w.agent.sendSeq < w.log.next
    && Covered(decodes, w, w.agent.ackSeq)
    && (w.purge.Some? ==> w.purge.value <= w.agent.ackSeq)
  }

  ghost predicate ServerInv(l: Link) {
    if l.received == 0 then l.tracker.refused == 0 && l.tracker.highest == 0
    else
      && l.received <= |l.sent|
      && (l.tracker.refused == 0 ==> l.sent[l.received - 1].num <= l.tracker.highest)
      && (0 < l.tracker.refused ==> l.tracker.refused <= l.sent[l.received - 1].num)
  }

  ghost predicate LinkInv(decodes: Payload -> bool, w: World, l: Link) {
    && l.received <= |l.sent|
    && (forall j :: 0 <= j < |l.sent| ==> Names(w, l.sent[j]) && Justified(decodes, w, l.sent, j))
    && ServerInv(l)
    && l.tracker.highest < w.log.next
    && Covered(decodes, w, l.tracker.highest)
    && (forall i :: 0 <= i < |l.down| && l.down[i].Ack? ==>
         l.down[i].n < w.log.next && Covered(decodes, w, l.down[i].n))
  }

  predicate Draining(w: World) {
    !w.drain.Idle? && !w.drain.Ended?
  }

  ghost predicate DrainInv(decodes: Payload -> bool, w: World) {
    && (w.attached ==> w.link.Some?)
    && (!w.attached ==> w.drain.Idle?)
    && (Draining(w) ==> w.drain.gen <= w.agent.generation)
    && (Draining(w) && w.drain.gen != w.agent.generation ==> Covered(decodes, w, w.agent.sendSeq))
    && (w.attached ==>
      var sent := w.link.value.sent;
      match w.drain
      case Idle => Frontier(decodes, w, sent, w.agent.sendSeq)
      case Ended => true
      case Reading(after, gen) =>
        && after < w.log.next
        && Frontier(decodes, w, sent, after)
        && (gen == w.agent.generation ==> after == w.agent.sendSeq)
      case Sending(gen, batch) =>
        && BatchOk(w, batch)
        && Frontier(decodes, w, sent, batch[0].num - 1)
        && Frontier(decodes, w, sent, w.agent.sendSeq)
      case Checked(gen, batch) =>
        && BatchOk(w, batch)
        && Frontier(decodes, w, sent, batch[0].num - 1)
        && Frontier(decodes, w, sent, w.agent.sendSeq)
      case Sent(gen, batch) => BatchOk(w, batch) && sent != [] && sent[|sent| - 1] == batch[0])
  }

  ghost predicate Inv(decodes: Payload -> bool, w: World) {
    && CursorInv(decodes, w)
    && (w.link.Some? ==> LinkInv(decodes, w, w.link.value))
    && DrainInv(decodes, w)
  }

  /** No step brings back a row or takes back what the server took; new rows come above all earlier numbers. */
  ghost predicate Evolves(w: World, u: World) {
    && w.log.next <= u.log.next
    && w.hist.taken <= u.hist.taken
    && forall r :: r in u.log.rows ==> r in w.log.rows || w.log.next <= r.num
  }

  lemma CoveredStays(decodes: Payload -> bool, w: World, u: World, n: int)
    requires Evolves(w, u) && n < w.log.next && Covered(decodes, w, n)
    ensures Covered(decodes, u, n)
  {
  }

  lemma LinkStays(decodes: Payload -> bool, w: World, u: World, l: Link)
    requires Evolves(w, u) && LinkInv(decodes, w, l)
    ensures LinkInv(decodes, u, l)
  {
    CoveredStays(decodes, w, u, l.tracker.highest);
    forall j | 0 <= j < |l.sent|
      ensures Names(u, l.sent[j]) && Justified(decodes, u, l.sent, j)
    {
      assert Names(w, l.sent[j]) && Justified(decodes, w, l.sent, j);
    }
  }

  lemma FrontierStays(decodes: Payload -> bool, w: World, u: World, sent: seq<Row>, n: int)
    requires Evolves(w, u) && n < w.log.next && Frontier(decodes, w, sent, n)
    ensures Frontier(decodes, u, sent, n)
  {
  }

  lemma BatchStays(w: World, u: World, batch: seq<Row>)
    requires Evolves(w, u) && BatchOk(w, batch)
    ensures BatchOk(u, batch)
  {
    forall i | 0 <= i < |batch|
      ensures Names(u, batch[i])
    {
      assert Names(w, batch[i]);
    }
    forall i | 0 < i < |batch|
      ensures NoRow(u, batch[i - 1].num, batch[i].num)
    {
      assert NoRow(w, batch[i - 1].num, batch[i].num);
    }
  }

  /** A step that neither pushes nor moves the cursor leaves the drain as justified as it was. */
  lemma DrainKept(decodes: Payload -> bool, w: World, u: World)
    requires DrainInv(decodes, w) && Evolves(w, u) && w.agent.sendSeq < w.log.next
    requires u.agent.sendSeq == w.agent.sendSeq && u.agent.generation == w.agent.generation
    requires u.drain == w.drain && u.attached == w.attached
    requires w.attached ==> u.link.Some? && u.link.value.sent == w.link.value.sent
    ensures DrainInv(decodes, u)
  {
    if Covered(decodes, w, w.agent.sendSeq) { CoveredStays(decodes, w, u, w.agent.sendSeq); }
    if w.attached {
      var sent := w.link.value.sent;
      match w.drain {
        case Idle => FrontierStays(decodes, w, u, sent, w.agent.sendSeq);
        case Ended =>
        case Reading(after, _) => FrontierStays(decodes, w, u, sent, after);
        case Sending(_, batch) => DrainStays(decodes, w, u, sent, batch);
        case Checked(_, batch) => DrainStays(decodes, w, u, sent, batch);
        case Sent(_, batch) => BatchStays(w, u, batch);
      }
    }
  }

  /** Every step that leaves cursors, drain and stream alone keeps the invariant by evolving. */
  lemma QuietStep(decodes: Payload -> bool, w: World, u: World)
    requires Inv(decodes, w) && Evolves(w, u) && ValidLog(u.log)
    requires u.agent.sendSeq == w.agent.sendSeq && u.agent.ackSeq == w.agent.ackSeq
    requires u.agent.generation == w.agent.generation
    requires u.drain == w.drain && u.attached == w.attached && u.link == w.link
    requires u.purge.Some? ==> u.purge == w.purge
    ensures Inv(decodes, u)
  {
    CoveredStays(decodes, w, u, w.agent.ackSeq);
    if w.link.Some? { LinkStays(decodes, w, u, w.link.value); }
    DrainKept(decodes, w, u);
  }

  lemma DrainStays(decodes: Payload -> bool, w: World, u: World, sent: seq<Row>, batch: seq<Row>)
    requires Evolves(w, u) && BatchOk(w, batch) && w.agent.sendSeq < w.log.next
    requires Frontier(decodes, w, sent, batch[0].num - 1) && Frontier(decodes, w, sent, w.agent.sendSeq)
    ensures BatchOk(u, batch)
    ensures Frontier(decodes, u, sent, batch[0].num - 1) && Frontier(decodes, u, sent, w.agent.sendSeq)
  {
    BatchStays(w, u, batch);
    FrontierStays(decodes, w, u, sent, batch[0].num - 1);
    FrontierStays(decodes, w, u, sent, w.agent.sendSeq);
  }
}
