/**
 * The notifier across restarts of the process. Its queues live in memory (internal/alert/notifier.go,
 * NewNotifier) and no pending delivery is loaded again: a restart loses every job that waits
 * or is being delivered.
 */
module NotifierLives {
  import opened Notifier
  import opened NotifierOrder

  /**
   * `now` is the notifier of the running process. The rest is history: the log and the accepted
   * jobs of earlier processes, the jobs restarts lost, and the number the first job of this
   * process gets.
   */
  datatype Lives = Lives(now: World, log: seq<Mark>, gone: seq<Job>, lost: set<Job>, base: nat)

  const FIRST := Lives(Initial(), [], [], {}, 0)

  function Log(v: Lives): (r: seq<Mark>) {
    v.log + v.now.log
  }

  function Accepted(v: Lives): (r: seq<Job>) {
    v.gone + v.now.accepted
  }

  /** The job waits in a queue or a worker has it in hand. */
  ghost predicate Held(w: World, j: Job) {
    exists l :: 0 <= l < |w.lanes| && HeldIn(w.lanes[l], j)
  }

  predicate HeldIn(lane: Lane, j: Job) {
    j in lane.queue || (lane.work.Some? && lane.work.value.job == j)
  }

  ghost function HeldJobs(w: World): (r: set<Job>) {
    set j | j in w.accepted && Held(w, j)
  }

  function Restarted(next: nat): (w: World) {
    Initial().(next := next)
  }

  ghost function Rebooted(v: Lives): (r: Lives) {
    Lives(Restarted(v.now.next), Log(v), Accepted(v), v.lost + HeldJobs(v.now), v.now.next)
  }

  datatype Move = Step(action: Action) | Reboot

  ghost predicate Can(v: Lives, m: Move) {
    WellFormed(v.now) && (m.Step? ==> Enabled(v.now, m.action))
  }

  ghost function Next(v: Lives, m: Move): (r: Lives)
    requires Can(v, m)
  {
    match m
    case Step(a) => v.(now := Apply(v.now, a))
    case Reboot => Rebooted(v)
  }

  ghost predicate Runs(v: Lives, moves: seq<Move>, u: Lives)
    decreases |moves|
  {
    if moves == [] then u == v else Can(v, moves[0]) && Runs(Next(v, moves[0]), moves[1..], u)
  }

  /** A restart of the run finds the job waiting or in a worker's hands. */
  ghost predicate Loses(v: Lives, moves: seq<Move>, j: Job)
    decreases |moves|
  {
    moves != [] && Can(v, moves[0])
    && ((moves[0].Reboot? && j in v.now.accepted && Held(v.now, j)) || Loses(Next(v, moves[0]), moves[1..], j))
  }

  // ---------------------------------------------------------------- one process

  /** An accepted job is over, or else it waits or is in a worker's hands. */
  lemma EndedIff(w: World, j: Job)
    requires Inv(w) && j in w.accepted
    ensures HasEnd(w.log, j) <==> !Held(w, j)
  {
    var l := LaneOf(j.stream);
    var lane, shown, jobs := w.lanes[l], MarksIn(w.log, l), JobsIn(w.accepted, l);
    JobsInHold(w.accepted, l, j);
    JobsInIncreasing(w.accepted, l);
    EndsInLane(w.log, l, j);
    EndedInLane(lane, shown, jobs, j);
    if Held(w, j) {
      var k :| 0 <= k < |w.lanes| && HeldIn(w.lanes[k], j);
      HeldAtHome(w.lanes[k], MarksIn(w.log, k), JobsIn(w.accepted, k), j);
      JobsInHold(w.accepted, k, j);
    }
  }

  lemma HeldAtHome(lane: Lane, shown: seq<Mark>, jobs: seq<Job>, j: Job)
    requires LaneInv(lane, shown, jobs) && HeldIn(lane, j)
    ensures j in jobs
  {
    if j in lane.queue {
      var i :| 0 <= i < |lane.queue| && lane.queue[i] == j;
      assert jobs[|jobs| - |lane.queue| + i] == j;
    } else {
      assert jobs[|lane.past|] == j;
    }
  }

  lemma EndsInLane(log: seq<Mark>, l: nat, j: Job)
    requires LaneOf(j.stream) == l
    ensures HasEnd(log, j) <==> HasEnd(MarksIn(log, l), j)
  {
    var shown := MarksIn(log, l);
    if HasEnd(log, j) {
      var e :| 0 <= e < |log| && log[e].Ended? && log[e].job == j;
      MarksInHold(log, l, log[e]);
      var i :| 0 <= i < |shown| && shown[i] == log[e];
    }
    if HasEnd(shown, j) {
      var e :| 0 <= e < |shown| && shown[e].Ended? && shown[e].job == j;
      MarksInHold(log, l, shown[e]);
      var i :| 0 <= i < |log| && log[i] == shown[e];
    }
  }

  lemma EndedInLane(lane: Lane, shown: seq<Mark>, jobs: seq<Job>, j: Job)
    requires LaneInv(lane, shown, jobs) && Increasing(jobs) && j in jobs
    ensures HasEnd(shown, j) <==> !HeldIn(lane, j)
  {
    var n, x := |lane.past|, PastMarks(lane.past);
    if HasEnd(shown, j) {
      var e :| 0 <= e < |shown| && shown[e].Ended? && shown[e].job == j;
      assert shown[e] in x;
      PastMarksHold(lane.past, shown[e]);
      var i :| 0 <= i < n && PastJobs(lane.past)[i] == j;
      PastNotHeld(lane, jobs, i);
    }
    if !HeldIn(lane, j) {
      var i :| 0 <= i < |jobs| && jobs[i] == j;
      PastMarksEnded(lane.past, i);
      var e :| 0 <= e < |x| && x[e].Ended? && x[e].job == j;
      assert shown[e] == x[e];
    }
  }

  lemma PastNotHeld(lane: Lane, jobs: seq<Job>, i: nat)
    requires jobs == PastJobs(lane.past) + RunningJobs(lane.work) + lane.queue && Increasing(jobs) && i < |lane.past|
    ensures !HeldIn(lane, lane.past[i].work.job)
  {
    var j := lane.past[i].work.job;
    assert jobs[i] == j;
    forall q | 0 <= q < |lane.queue|
      ensures lane.queue[q] != j
    {
      assert jobs[|jobs| - |lane.queue| + q] == lane.queue[q];
    }
    if lane.work.Some? {
      assert jobs[|lane.past|] == lane.work.value.job;
    }
  }

  // ---------------------------------------------------------------- the log of several processes

  /** Every mark of the log is about a job from `lo` on and below `hi`. */
  ghost predicate Within(log: seq<Mark>, lo: nat, hi: nat) {
    forall i :: 0 <= i < |log| ==> lo <= log[i].job.id < hi
  }

  lemma EndAcross(x: seq<Mark>, y: seq<Mark>, j: Job)
    ensures HasEnd(x + y, j) <==> HasEnd(x, j) || HasEnd(y, j)
  {
    if HasEnd(x + y, j) {
      var e :| 0 <= e < |x + y| && (x + y)[e].Ended? && (x + y)[e].job == j;
      if e < |x| {
        assert x[e].Ended? && x[e].job == j;
      } else {
        assert y[e - |x|].Ended? && y[e - |x|].job == j;
      }
    }
    if HasEnd(x, j) {
      var e :| 0 <= e < |x| && x[e].Ended? && x[e].job == j;
      assert (x + y)[e] == x[e];
    }
    if HasEnd(y, j) {
      var e :| 0 <= e < |y| && y[e].Ended? && y[e].job == j;
      assert (x + y)[|x| + e] == y[e];
    }
  }

  lemma NoEndOutside(log: seq<Mark>, lo: nat, hi: nat, j: Job)
    requires Within(log, lo, hi) && !(lo <= j.id < hi)
    ensures !HasEnd(log, j) && !HasMark(log, j)
  {
  }

  lemma OverIsEnded(log: seq<Mark>, a: Job, b: Job)
    requires WhollyBefore(log, a, b)
    ensures HasEnd(log, a)
  {
    var k :| 0 <= k <= |log| && SplitsAt(log, a, b, k);
  }

  /** Both jobs in the first part: the second part changes nothing. */
  lemma OrderedEarlier(x: seq<Mark>, y: seq<Mark>, a: Job, b: Job)
    requires !HasMark(y, a) && !HasMark(y, b)
    ensures WhollyBefore(x + y, a, b) <==> WhollyBefore(x, a, b)
  {
    if WhollyBefore(x, a, b) {
      var k :| 0 <= k <= |x| && SplitsAt(x, a, b, k);
      OrderedStays(x, y, a, b, k);
    }
    if WhollyBefore(x + y, a, b) {
      var k :| 0 <= k <= |x + y| && SplitsAt(x + y, a, b, k);
      OrderedBack(x, y, a, b, k);
    }
  }

  lemma OrderedStays(x: seq<Mark>, y: seq<Mark>, a: Job, b: Job, k: nat)
    requires !HasMark(y, a) && !HasMark(y, b) && k <= |x| && SplitsAt(x, a, b, k)
    ensures WhollyBefore(x + y, a, b)
  {
    var e :| 0 <= e < k && x[e].Ended? && x[e].job == a;
    assert (x + y)[e] == x[e];
    forall i | |x| <= i < |x + y|
      ensures (x + y)[i].job != a && (x + y)[i].job != b
    {
      assert y[i - |x|] == (x + y)[i];
    }
    assert SplitsAt(x + y, a, b, k);
  }

  lemma OrderedBack(x: seq<Mark>, y: seq<Mark>, a: Job, b: Job, k: nat)
    requires !HasMark(y, a) && !HasMark(y, b) && k <= |x + y| && SplitsAt(x + y, a, b, k)
    ensures WhollyBefore(x, a, b)
  {
    forall i | |x| <= i < |x + y|
      ensures (x + y)[i].job != a
    {
      assert y[i - |x|] == (x + y)[i];
    }
    var e :| 0 <= e < k && (x + y)[e].Ended? && (x + y)[e].job == a;
    var cut := if k <= |x| then k else |x|;
    forall i | 0 <= i < |x|
      ensures x[i] == (x + y)[i]
    {
    }
    if k > |x| {
      forall i | 0 <= i < |x|
        ensures x[i].job != b
      {
        assert (x + y)[i] == x[i];
      }
    }
    assert SplitsAt(x, a, b, cut);
  }

  /** Both jobs in the second part. */
  lemma OrderedLater(x: seq<Mark>, y: seq<Mark>, a: Job, b: Job)
    requires !HasMark(x, a) && !HasMark(x, b) && WhollyBefore(y, a, b)
    ensures WhollyBefore(x + y, a, b)
  {
    var k :| 0 <= k <= |y| && SplitsAt(y, a, b, k);
    var e :| 0 <= e < k && y[e].Ended? && y[e].job == a;
    assert (x + y)[|x| + e] == y[e];
    forall i | 0 <= i < |x + y|
      ensures (x + y)[i].job == a ==> i < |x| + k
      ensures (x + y)[i].job == b ==> |x| + k <= i
    {
      if i < |x| {
        assert (x + y)[i] == x[i];
      } else {
        assert (x + y)[i] == y[i - |x|];
      }
    }
    assert SplitsAt(x + y, a, b, |x| + k);
  }

  /** The first job in the first part, the second in the second: all depends on whether the first is over there. */
  lemma OrderedAcross(x: seq<Mark>, y: seq<Mark>, a: Job, b: Job)
    requires !HasMark(y, a) && !HasMark(x, b)
    ensures WhollyBefore(x + y, a, b) <==> HasEnd(x, a)
  {
    if WhollyBefore(x + y, a, b) {
      OverIsEnded(x + y, a, b);
      EndAcross(x, y, a);
    }
    if HasEnd(x, a) {
      var e :| 0 <= e < |x| && x[e].Ended? && x[e].job == a;
      assert (x + y)[e] == x[e];
      forall i | 0 <= i < |x + y|
        ensures (x + y)[i].job == a ==> i < |x|
        ensures (x + y)[i].job == b ==> |x| <= i
      {
        if i < |x| {
          assert (x + y)[i] == x[i];
        } else {
          assert (x + y)[i] == y[i - |x|];
        }
      }
      assert SplitsAt(x + y, a, b, |x|);
    }
  }

  // ---------------------------------------------------------------- the invariant

  ghost predicate Later(a: Job, b: Job) {
    a.stream == b.stream && a.id < b.id
  }

  /** In what earlier processes left, a job is overtaken exactly when a restart lost it. */
  ghost predicate OrderedPast(v: Lives) {
    forall a, b :: a in v.gone && b in v.gone && Later(a, b) && HasMark(v.log, b) ==>
      (WhollyBefore(v.log, a, b) <==> a !in v.lost)
  }

  ghost predicate PastInv(v: Lives) {
    && Within(v.log, 0, v.base) && (forall i :: 0 <= i < |v.log| ==> v.log[i].job in v.gone)
    && (forall j :: j in v.gone ==> j.id < v.base && (HasEnd(v.log, j) <==> j !in v.lost))
    && (forall j :: j in v.lost ==> j in v.gone)
    && OrderedPast(v)
  }

  ghost predicate NowInv(v: Lives) {
    && Inv(v.now) && v.base <= v.now.next && Within(v.now.log, v.base, v.now.next)
    && forall j :: j in v.now.accepted ==> v.base <= j.id < v.now.next
  }

  ghost predicate LivesInv(v: Lives) {
    PastInv(v) && NowInv(v)
  }

  lemma FirstInv()
    ensures LivesInv(FIRST)
  {
    InitialInv();
  }

  /** The order of two jobs of one stream, in this process or any earlier one. */
  lemma OrderIff(v: Lives, a: Job, b: Job)
    requires LivesInv(v) && a in Accepted(v) && b in Accepted(v) && Later(a, b) && HasMark(Log(v), b)
    ensures WhollyBefore(Log(v), a, b) <==> a !in v.lost
    ensures a in v.now.accepted ==> !Held(v.now, a)
  {
    if b in v.gone {
      assert a in v.gone;
      NoEndOutside(v.now.log, v.base, v.now.next, a);
      NoEndOutside(v.now.log, v.base, v.now.next, b);
      MarkedEarlier(v.log, v.now.log, b);
      OrderedEarlier(v.log, v.now.log, a, b);
      assert a !in v.now.accepted;
    } else {
      NoEndOutside(v.log, 0, v.base, b);
      MarkedLater(v.log, v.now.log, b);
      if a in v.gone {
        NoEndOutside(v.now.log, v.base, v.now.next, a);
        OrderedAcross(v.log, v.now.log, a, b);
        assert a !in v.now.accepted;
      } else {
        NoEndOutside(v.log, 0, v.base, a);
        OrderedInLane(v.now, a, b, LaneOf(a.stream));
        OrderedLater(v.log, v.now.log, a, b);
        OverIsEnded(v.now.log, a, b);
        EndedIff(v.now, a);
      }
    }
  }

  lemma MarkedEarlier(x: seq<Mark>, y: seq<Mark>, j: Job)
    requires HasMark(x + y, j) && !HasMark(y, j)
    ensures HasMark(x, j)
  {
    var i :| 0 <= i < |x + y| && (x + y)[i].job == j;
    if i < |x| {
      assert x[i].job == j;
    }
  }

  lemma MarkedLater(x: seq<Mark>, y: seq<Mark>, j: Job)
    requires HasMark(x + y, j) && !HasMark(x, j)
    ensures HasMark(y, j)
  {
    var i :| 0 <= i < |x + y| && (x + y)[i].job == j;
    if |x| <= i {
      assert y[i - |x|].job == j;
    }
  }

  /** Only accepted jobs show a sign, in any process. */
  lemma MarkedIsKnown(v: Lives, j: Job)
    requires LivesInv(v) && HasMark(Log(v), j)
    ensures j in Accepted(v)
  {
    if HasMark(v.now.log, j) {
      MarkedIsAccepted(v.now, j);
    } else {
      MarkedEarlier(v.log, v.now.log, j);
    }
  }

  lemma RebootEnds(v: Lives, j: Job)
    requires LivesInv(v) && j in Accepted(v)
    ensures HasEnd(Log(v), j) <==> j !in Rebooted(v).lost
  {
    EndAcross(v.log, v.now.log, j);
    if j in v.gone {
      NoEndOutside(v.now.log, v.base, v.now.next, j);
    } else {
      NoEndOutside(v.log, 0, v.base, j);
      EndedIff(v.now, j);
    }
  }

  lemma RebootKeeps(v: Lives)
    requires LivesInv(v)
    ensures LivesInv(Rebooted(v))
  {
    var u := Rebooted(v);
    forall j | j in u.gone
      ensures j.id < u.base && (HasEnd(u.log, j) <==> j !in u.lost)
    {
      RebootEnds(v, j);
    }
    forall a, b | a in u.gone && b in u.gone && Later(a, b) && HasMark(u.log, b)
      ensures WhollyBefore(u.log, a, b) <==> a !in u.lost
    {
      OrderIff(v, a, b);
    }
    forall i | 0 <= i < |u.log|
      ensures u.log[i].job in u.gone
    {
      MarkedIsKnown(v, u.log[i].job);
    }
    RestartedInv(v.now.next);
  }

  lemma RestartedInv(next: nat)
    ensures Inv(Restarted(next))
  {
  }

  /** A step's mark is about an accepted job. */
  lemma StepMarks(w: World, a: Action)
    requires Inv(w) && Enabled(w, a)
    ensures var u := Apply(w, a);
            && w.log <= u.log && |u.log| <= |w.log| + 1 && w.next <= u.next
            && (|u.log| > |w.log| ==> u.log[|w.log|].job in w.accepted)
  {
    match a {
      case Take(l, gate) =>
        TakenInv(w.lanes[l], gate, MarksIn(w.log, l), JobsIn(w.accepted, l));
        JobsInHold(w.accepted, l, w.lanes[l].queue[0]);
      case Try(l, ok) =>
        TriedInv(w.lanes[l], ok, MarksIn(w.log, l), JobsIn(w.accepted, l));
        JobsInHold(w.accepted, l, w.lanes[l].work.value.job);
      case End(l) =>
        FinishedInv(w.lanes[l], MarksIn(w.log, l), JobsIn(w.accepted, l));
        JobsInHold(w.accepted, l, w.lanes[l].work.value.job);
      case _ =>
    }
  }

  lemma StepAccepts(w: World, a: Action)
    requires Inv(w) && Enabled(w, a)
    ensures forall j :: j in Apply(w, a).accepted ==> j in w.accepted || w.next <= j.id < Apply(w, a).next
  {
  }

  lemma StepKeeps(v: Lives, a: Action)
    requires LivesInv(v) && Enabled(v.now, a)
    ensures LivesInv(v.(now := Apply(v.now, a)))
  {
    StepInv(v.now, a);
    StepMarks(v.now, a);
    StepAccepts(v.now, a);
    MarksStayWithin(v.now, Apply(v.now, a), v.base);
  }

  lemma MarksStayWithin(w: World, u: World, lo: nat)
    requires Within(w.log, lo, w.next) && w.log <= u.log && |u.log| <= |w.log| + 1 && w.next <= u.next
    requires |u.log| > |w.log| ==> u.log[|w.log|].job in w.accepted
    requires forall j :: j in w.accepted ==> lo <= j.id < w.next
    ensures Within(u.log, lo, u.next)
  {
    forall i | 0 <= i < |u.log|
      ensures lo <= u.log[i].job.id < u.next
    {
      if i < |w.log| {
        assert u.log[i] == w.log[i];
      }
    }
  }

  lemma {:induction false} EveryRunKeeps(v: Lives, moves: seq<Move>, u: Lives)
    requires LivesInv(v) && Runs(v, moves, u)
    ensures LivesInv(u)
    decreases |moves|
  {
    if moves != [] {
      if moves[0].Reboot? {
        RebootKeeps(v);
      } else {
        StepKeeps(v, moves[0].action);
      }
      EveryRunKeeps(Next(v, moves[0]), moves[1..], u);
    }
  }

  lemma {:induction false} LostIff(v: Lives, moves: seq<Move>, u: Lives, j: Job)
    requires Runs(v, moves, u)
    ensures j in u.lost <==> j in v.lost || Loses(v, moves, j)
    decreases |moves|
  {
    if moves != [] {
      LostIff(Next(v, moves[0]), moves[1..], u, j);
    }
  }

  /**
   * Two accepted jobs of one stream, in any run with restarts, once the later one shows a sign:
   * the earlier one is wholly over if and only if no restart found it waiting or in hand.
   */
  lemma NeverOvertakesIff(moves: seq<Move>, v: Lives, a: Job, b: Job)
    requires Runs(FIRST, moves, v)
    requires a in Accepted(v) && b in Accepted(v) && Later(a, b) && HasMark(Log(v), b)
    ensures WhollyBefore(Log(v), a, b) <==> !Loses(FIRST, moves, a)
  {
    FirstInv();
    EveryRunKeeps(FIRST, moves, v);
    LostIff(FIRST, moves, v, a);
    OrderIff(v, a, b);
  }
}
