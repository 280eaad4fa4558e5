/**
 * The notifier of internal/alert/notifier.go: ten bounded queues, one worker on each, up to
 * three attempts per job.
 *
 * A run interleaves enqueues, the workers' steps and a shutdown in any order. The log is
 * what the outside sees: when a job was taken up, each attempt, when the worker let it go.
 */
module Notifier {
  import opened Collections

  const WORKERS := 10
  const QUEUE_CAPACITY := 256
  const MAX_RETRIES := 3

  const FNV_OFFSET: bv32 := 2166136261
  const FNV_PRIME: bv32 := 16777619

  /** What a job's queue is chosen by: an alert and a channel, or the channel's URL when there is no alert. */
  datatype Stream = OfAlert(alert: seq<bv8>, channel: seq<bv8>) | OfUrl(url: seq<bv8>)

  /** `id` numbers the calls of Enqueue; `raw` marks a pre-rendered body, which skips the checks before a send. */
  datatype Job = Job(id: nat, stream: Stream, raw: bool)

  function Text(s: Stream): (r: seq<bv8>) {
    match s
    case OfAlert(alert, channel) => alert + [0] + channel
    case OfUrl(url) => url
  }

  function Fnv1a(bytes: seq<bv8>): (h: bv32) {
    if bytes == [] then FNV_OFFSET
    else (Fnv1a(bytes[..|bytes| - 1]) ^ (bytes[|bytes| - 1] as bv32)) * FNV_PRIME
  }

  function LaneOf(s: Stream): (w: nat)
    ensures w < WORKERS
  {
    (Fnv1a(Text(s)) as nat) % WORKERS
  }

  datatype Status = Pending | Delivered | Failed | Suspended

  /** What stands in front of the first attempt. */
  datatype Gate = Clear | ChannelSuspended | SenderNotReady

  datatype Work = Work(job: Job, gate: Gate, tries: seq<bool>)
  datatype Block = Block(work: Work, status: Status)
  datatype Mark = Started(job: Job) | Tried(job: Job, ok: bool) | Ended(job: Job, status: Status, attempts: nat)

  datatype Lane = Lane(queue: seq<Job>, work: Option<Work>, past: seq<Block>, gone: bool)
  datatype World = World(lanes: seq<Lane>, log: seq<Mark>, accepted: seq<Job>, next: nat, cancelled: bool)

  const IDLE := Lane([], None, [], false)

  function Initial(): (w: World) {
    World(seq(WORKERS, _ => IDLE), [], [], 0, false)
  }

  // ---------------------------------------------------------------- one delivery

  predicate Succeeded(tries: seq<bool>) {
    tries != [] && tries[|tries| - 1]
  }

  predicate GoodWork(k: Work) {
    && |k.tries| <= MAX_RETRIES
    && (!k.gate.Clear? ==> k.tries == [])
    && (k.job.raw ==> k.gate.Clear?)
    && forall i :: 0 <= i < |k.tries| - 1 ==> !k.tries[i]
  }

  predicate MayTry(k: Work) {
    k.gate.Clear? && |k.tries| < MAX_RETRIES && !Succeeded(k.tries)
  }

  predicate MayEnd(k: Work, cancelled: bool) {
    !MayTry(k) || (cancelled && k.tries != [])
  }

  function Outcome(k: Work): (r: Status) {
    if k.gate.ChannelSuspended? then Suspended
    else if k.gate.SenderNotReady? then Failed
    else if Succeeded(k.tries) then Delivered
    else if |k.tries| == MAX_RETRIES then Failed
    else Pending
  }

  class Delivery {
    var status: Status
    var attempts: nat

    constructor ()
      ensures status == Pending && attempts == 0
    {
      status, attempts := Pending, 0;
    }

    /**
     * processJob and deliver as one call: `sends[i]` is what the i-th send returns, `stops[i]`
     * whether the shutdown wins the wait after it.
     */
    method Process(job: Job, gate: Gate, sends: seq<bool>, stops: seq<bool>) returns (k: Work)
      requires |sends| == MAX_RETRIES && |stops| == MAX_RETRIES && (job.raw ==> gate.Clear?)
      requires status == Pending && attempts == 0
      modifies this
      ensures k.job == job && k.gate == gate && k.tries <= sends && GoodWork(k)
      ensures attempts == |k.tries| && status == Outcome(k)
      ensures MayEnd(k, true)
      ensures status == Pending ==> 0 < attempts < MAX_RETRIES && stops[attempts - 1]
      ensures forall i :: 0 <= i < attempts - 1 ==> !stops[i]
    {
      k := Work(job, gate, []);
      if gate.ChannelSuspended? {
        status := Suspended;
        return;
      }
      if gate.SenderNotReady? {
        status := Failed;
        return;
      }
      var attempt := 0;
      while attempt < MAX_RETRIES
        invariant 0 <= attempt <= MAX_RETRIES && attempts == attempt && status == Pending
        invariant k == Work(job, gate, sends[..attempt])
        invariant forall i :: 0 <= i < attempt ==> !sends[i]
        invariant forall i :: 0 <= i < attempt - 1 ==> !stops[i]
      {
        if attempt > 0 && stops[attempt - 1] {
          return;
        }
        attempts := attempt + 1;
        k := Work(job, gate, sends[..attempt + 1]);
        if sends[attempt] {
          status := Delivered;
          return;
        }
        attempt := attempt + 1;
      }
      status := Failed;
    }
  }

  // ---------------------------------------------------------------- steps

  datatype Action =
    | Enqueue(stream: Stream, raw: bool)
    | Take(lane: nat, gate: Gate)
    | Try(lane: nat, ok: bool)
    | End(lane: nat)
    | Leave(lane: nat)
    | Cancel

  ghost predicate WellFormed(w: World) {
    |w.lanes| == WORKERS
  }

  ghost predicate Enabled(w: World, a: Action)
    requires WellFormed(w)
  {
    match a
    case Enqueue(_, _) => true
    case Take(l, gate) =>
      && l < WORKERS && !w.lanes[l].gone && w.lanes[l].work.None?
      && w.lanes[l].queue != [] && (w.lanes[l].queue[0].raw ==> gate.Clear?)
    case Try(l, _) => l < WORKERS && w.lanes[l].work.Some? && MayTry(w.lanes[l].work.value)
    case End(l) => l < WORKERS && w.lanes[l].work.Some? && MayEnd(w.lanes[l].work.value, w.cancelled)
    case Leave(l) => l < WORKERS && w.lanes[l].work.None? && w.cancelled
    case Cancel => true
  }

  function Queued(w: World, job: Job, l: nat): (r: World)
    requires l < |w.lanes|
  {
    w.(lanes := w.lanes[l := w.lanes[l].(queue := w.lanes[l].queue + [job])],
       accepted := w.accepted + [job], next := w.next + 1)
  }

  /** A full queue drops the job. */
  function Enqueued(w: World, stream: Stream, raw: bool): (r: World)
    requires |w.lanes| == WORKERS
  {
    if |w.lanes[LaneOf(stream)].queue| == QUEUE_CAPACITY then w.(next := w.next + 1)
    else Queued(w, Job(w.next, stream, raw), LaneOf(stream))
  }

  function Moved(w: World, l: nat, lane: Lane, m: Mark): (r: World)
    requires l < |w.lanes|
  {
    w.(lanes := w.lanes[l := lane], log := w.log + [m])
  }

  function Taken(lane: Lane, gate: Gate): (r: Lane)
    requires lane.queue != []
  {
    lane.(queue := lane.queue[1..], work := Some(Work(lane.queue[0], gate, [])))
  }

  function TriedOnce(lane: Lane, ok: bool): (r: Lane)
    requires lane.work.Some?
  {
    lane.(work := Some(lane.work.value.(tries := lane.work.value.tries + [ok])))
  }

  function Finished(lane: Lane): (r: Lane)
    requires lane.work.Some?
  {
    lane.(work := None, past := lane.past + [Block(lane.work.value, Outcome(lane.work.value))])
  }

  function EndMark(k: Work): (r: Mark) {
    Ended(k.job, Outcome(k), |k.tries|)
  }

  ghost function Apply(w: World, a: Action): (r: World)
    requires WellFormed(w) && Enabled(w, a)
    ensures WellFormed(r)
  {
    match a
    case Enqueue(stream, raw) => Enqueued(w, stream, raw)
    case Take(l, gate) => Moved(w, l, Taken(w.lanes[l], gate), Started(w.lanes[l].queue[0]))
    case Try(l, ok) => Moved(w, l, TriedOnce(w.lanes[l], ok), Tried(w.lanes[l].work.value.job, ok))
    case End(l) => Moved(w, l, Finished(w.lanes[l]), EndMark(w.lanes[l].work.value))
    case Leave(l) => w.(lanes := w.lanes[l := w.lanes[l].(gone := true)])
    case Cancel => w.(cancelled := true)
  }

  ghost predicate Path(w: World, actions: seq<Action>, v: World)
    requires WellFormed(w)
    decreases |actions|
  {
    if actions == [] then v == w
    else Enabled(w, actions[0]) && Path(Apply(w, actions[0]), actions[1..], v)
  }

  // ---------------------------------------------------------------- what one lane shows

  function MarksIn(log: seq<Mark>, l: nat): (r: seq<Mark>) {
    if log == [] then []
    else
      var n := |log| - 1;
      if LaneOf(log[n].job.stream) == l then MarksIn(log[..n], l) + [log[n]] else MarksIn(log[..n], l)
  }

  function JobsIn(jobs: seq<Job>, l: nat): (r: seq<Job>) {
    if jobs == [] then []
    else
      var n := |jobs| - 1;
      if LaneOf(jobs[n].stream) == l then JobsIn(jobs[..n], l) + [jobs[n]] else JobsIn(jobs[..n], l)
  }

  lemma {:induction false} MarksInHold(log: seq<Mark>, l: nat, m: Mark)
    ensures m in MarksIn(log, l) <==> m in log && LaneOf(m.job.stream) == l
  {
    if log != [] {
      var n := |log| - 1;
      MarksInHold(log[..n], l, m);
      assert log == log[..n] + [log[n]];
    }
  }

  lemma {:induction false} JobsInHold(jobs: seq<Job>, l: nat, j: Job)
    ensures j in JobsIn(jobs, l) <==> j in jobs && LaneOf(j.stream) == l
  {
    if jobs != [] {
      var n := |jobs| - 1;
      JobsInHold(jobs[..n], l, j);
      assert jobs == jobs[..n] + [jobs[n]];
    }
  }

  function TryMarks(job: Job, tries: seq<bool>): (r: seq<Mark>)
    ensures |r| == |tries|
    ensures forall i :: 0 <= i < |tries| ==> r[i] == Tried(job, tries[i])
  {
    if tries == [] then [] else TryMarks(job, tries[..|tries| - 1]) + [Tried(job, tries[|tries| - 1])]
  }

  function WorkMarks(k: Work): (r: seq<Mark>) {
    [Started(k.job)] + TryMarks(k.job, k.tries)
  }

  /** A whole delivery: taken up, at most three attempts of which only the last may succeed, let go. */
  function BlockMarks(b: Block): (r: seq<Mark>) {
    WorkMarks(b.work) + [Ended(b.work.job, b.status, |b.work.tries|)]
  }

  function PastMarks(past: seq<Block>): (r: seq<Mark>) {
    if past == [] then [] else PastMarks(past[..|past| - 1]) + BlockMarks(past[|past| - 1])
  }

  function PastJobs(past: seq<Block>): (r: seq<Job>)
    ensures |r| == |past|
    ensures forall i :: 0 <= i < |past| ==> r[i] == past[i].work.job
  {
    seq(|past|, i requires 0 <= i < |past| => past[i].work.job)
  }

  function RunningMarks(work: Option<Work>): (r: seq<Mark>) {
    if work.Some? then WorkMarks(work.value) else []
  }

  function RunningJobs(work: Option<Work>): (r: seq<Job>) {
    if work.Some? then [work.value.job] else []
  }

  // ---------------------------------------------------------------- the invariant

  ghost predicate GoodBlock(b: Block) {
    GoodWork(b.work) && b.status == Outcome(b.work) && MayEnd(b.work, true)
  }

  /** What the lane has shown is whole deliveries of its accepted jobs in order, then the running one. */
  ghost predicate LaneInv(lane: Lane, shown: seq<Mark>, jobs: seq<Job>) {
    && shown == PastMarks(lane.past) + RunningMarks(lane.work)
    && jobs == PastJobs(lane.past) + RunningJobs(lane.work) + lane.queue
    && (forall b :: b in lane.past ==> GoodBlock(b))
    && (lane.work.Some? ==> GoodWork(lane.work.value))
    && |lane.queue| <= QUEUE_CAPACITY
  }

  ghost predicate Numbered(w: World) {
    && (forall i, j :: 0 <= i < j < |w.accepted| ==> w.accepted[i].id < w.accepted[j].id)
    && (forall i :: 0 <= i < |w.accepted| ==> w.accepted[i].id < w.next)
  }

  ghost predicate Inv(w: World) {
    && WellFormed(w) && Numbered(w)
    && forall l :: 0 <= l < WORKERS ==> LaneInv(w.lanes[l], MarksIn(w.log, l), JobsIn(w.accepted, l))
  }

  lemma InitialInv()
    ensures Inv(Initial())
  {
  }

  lemma MarksInSnoc(log: seq<Mark>, m: Mark, l: nat)
    ensures MarksIn(log + [m], l) == if LaneOf(m.job.stream) == l then MarksIn(log, l) + [m] else MarksIn(log, l)
  {
    assert (log + [m])[..|log|] == log;
  }

  lemma JobsInSnoc(jobs: seq<Job>, j: Job, l: nat)
    ensures JobsIn(jobs + [j], l) == if LaneOf(j.stream) == l then JobsIn(jobs, l) + [j] else JobsIn(jobs, l)
  {
    assert (jobs + [j])[..|jobs|] == jobs;
  }

  lemma QueuedLane(lane: Lane, job: Job, shown: seq<Mark>, jobs: seq<Job>)
    requires LaneInv(lane, shown, jobs) && |lane.queue| < QUEUE_CAPACITY
    ensures LaneInv(lane.(queue := lane.queue + [job]), shown, jobs + [job])
  {
  }

  lemma QueuedInv(w: World, job: Job, h: nat)
    requires Inv(w) && h == LaneOf(job.stream) && job.id == w.next && |w.lanes[h].queue| < QUEUE_CAPACITY
    ensures Inv(Queued(w, job, h))
  {
    var v := Queued(w, job, h);
    QueuedLane(w.lanes[h], job, MarksIn(w.log, h), JobsIn(w.accepted, h));
    forall l | 0 <= l < WORKERS
      ensures LaneInv(v.lanes[l], MarksIn(v.log, l), JobsIn(v.accepted, l))
    {
      JobsInSnoc(w.accepted, job, l);
    }
  }

  lemma EnqueuedInv(w: World, stream: Stream, raw: bool)
    requires Inv(w)
    ensures Inv(Enqueued(w, stream, raw))
  {
    var h := LaneOf(stream);
    if |w.lanes[h].queue| != QUEUE_CAPACITY {
      QueuedInv(w, Job(w.next, stream, raw), h);
    }
  }

  lemma MovedInv(w: World, l: nat, lane: Lane, m: Mark)
    requires Inv(w) && l < WORKERS && m.job in JobsIn(w.accepted, l)
    requires LaneInv(lane, MarksIn(w.log, l) + [m], JobsIn(w.accepted, l))
    ensures Inv(Moved(w, l, lane, m))
  {
    var v := Moved(w, l, lane, m);
    JobsInHold(w.accepted, l, m.job);
    forall i | 0 <= i < WORKERS
      ensures LaneInv(v.lanes[i], MarksIn(v.log, i), JobsIn(v.accepted, i))
    {
      MarksInSnoc(w.log, m, i);
    }
  }

  lemma TakenInv(lane: Lane, gate: Gate, shown: seq<Mark>, jobs: seq<Job>)
    requires LaneInv(lane, shown, jobs) && lane.work.None? && lane.queue != [] && (lane.queue[0].raw ==> gate.Clear?)
    ensures LaneInv(Taken(lane, gate), shown + [Started(lane.queue[0])], jobs)
    ensures lane.queue[0] in jobs
  {
    assert jobs[|lane.past|] == lane.queue[0];
    assert lane.queue == [lane.queue[0]] + lane.queue[1..];
  }

  lemma TriedInv(lane: Lane, ok: bool, shown: seq<Mark>, jobs: seq<Job>)
    requires LaneInv(lane, shown, jobs) && lane.work.Some? && MayTry(lane.work.value)
    ensures LaneInv(TriedOnce(lane, ok), shown + [Tried(lane.work.value.job, ok)], jobs)
    ensures lane.work.value.job in jobs
  {
    var k := lane.work.value;
    assert jobs[|lane.past|] == k.job;
    assert (k.tries + [ok])[..|k.tries|] == k.tries;
    assert WorkMarks(k.(tries := k.tries + [ok])) == WorkMarks(k) + [Tried(k.job, ok)];
  }

  lemma FinishedInv(lane: Lane, shown: seq<Mark>, jobs: seq<Job>)
    requires LaneInv(lane, shown, jobs) && lane.work.Some? && MayEnd(lane.work.value, true)
    ensures LaneInv(Finished(lane), shown + [EndMark(lane.work.value)], jobs)
    ensures lane.work.value.job in jobs
  {
    var b := Block(lane.work.value, Outcome(lane.work.value));
    assert jobs[|lane.past|] == b.work.job;
    assert (lane.past + [b])[..|lane.past|] == lane.past;
    assert PastJobs(lane.past + [b]) == PastJobs(lane.past) + [b.work.job];
  }

  lemma TakeStep(w: World, l: nat, gate: Gate)
    requires Inv(w) && Enabled(w, Take(l, gate))
    ensures Inv(Apply(w, Take(l, gate)))
  {
    TakenInv(w.lanes[l], gate, MarksIn(w.log, l), JobsIn(w.accepted, l));
    MovedInv(w, l, Taken(w.lanes[l], gate), Started(w.lanes[l].queue[0]));
  }

  lemma TryStep(w: World, l: nat, ok: bool)
    requires Inv(w) && Enabled(w, Try(l, ok))
    ensures Inv(Apply(w, Try(l, ok)))
  {
    TriedInv(w.lanes[l], ok, MarksIn(w.log, l), JobsIn(w.accepted, l));
    MovedInv(w, l, TriedOnce(w.lanes[l], ok), Tried(w.lanes[l].work.value.job, ok));
  }

  lemma EndStep(w: World, l: nat)
    requires Inv(w) && Enabled(w, End(l))
    ensures Inv(Apply(w, End(l)))
  {
    FinishedInv(w.lanes[l], MarksIn(w.log, l), JobsIn(w.accepted, l));
    MovedInv(w, l, Finished(w.lanes[l]), EndMark(w.lanes[l].work.value));
  }

  lemma LeaveStep(w: World, l: nat)
    requires Inv(w) && Enabled(w, Leave(l))
    ensures Inv(Apply(w, Leave(l)))
  {
    var v := Apply(w, Leave(l));
    forall i | 0 <= i < WORKERS
      ensures LaneInv(v.lanes[i], MarksIn(v.log, i), JobsIn(v.accepted, i))
    {
      assert LaneInv(w.lanes[i], MarksIn(w.log, i), JobsIn(w.accepted, i));
    }
  }

  lemma StepInv(w: World, a: Action)
    requires Inv(w) && Enabled(w, a)
    ensures Inv(Apply(w, a))
  {
    match a {
      case Enqueue(stream, raw) => EnqueuedInv(w, stream, raw);
      case Take(l, gate) => TakeStep(w, l, gate);
      case Try(l, ok) => TryStep(w, l, ok);
      case End(l) => EndStep(w, l);
      case Leave(l) => LeaveStep(w, l);
      case Cancel =>
    }
  }

  lemma {:induction false} EveryRunInv(w: World, actions: seq<Action>, v: World)
    requires Inv(w) && Path(w, actions, v)
    ensures Inv(v)
    decreases |actions|
  {
    if actions != [] {
      StepInv(w, actions[0]);
      EveryRunInv(Apply(w, actions[0]), actions[1..], v);
    }
  }
}
