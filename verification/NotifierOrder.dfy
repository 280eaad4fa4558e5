/** What the notifier promises over whole runs: order within a stream, and whole deliveries. */
module NotifierOrder {
  import opened Notifier

  // ---------------------------------------------------------------- the log of one lane

  lemma Assoc(x: seq<Mark>, y: seq<Mark>, z: seq<Mark>)
    ensures x + (y + z) == (x + y) + z
  {
  }

  lemma PastMarksSnoc(p: seq<Block>, b: Block)
    ensures PastMarks(p + [b]) == PastMarks(p) + BlockMarks(b)
  {
    assert (p + [b])[..|p|] == p;
  }

  lemma {:induction false} PastMarksAppend(p: seq<Block>, q: seq<Block>)
    ensures PastMarks(p + q) == PastMarks(p) + PastMarks(q)
    decreases |q|
  {
    if q == [] {
      assert p + q == p;
    } else {
      var q0, b := q[..|q| - 1], q[|q| - 1];
      assert q == q0 + [b];
      assert p + q == (p + q0) + [b];
      PastMarksSnoc(p + q0, b);
      PastMarksSnoc(q0, b);
      PastMarksAppend(p, q0);
      Assoc(PastMarks(p), PastMarks(q0), BlockMarks(b));
    }
  }

  lemma {:induction false} PastMarksHold(past: seq<Block>, m: Mark)
    requires m in PastMarks(past)
    ensures m.job in PastJobs(past)
  {
    var n := |past| - 1;
    if m in PastMarks(past[..n]) {
      PastMarksHold(past[..n], m);
      var i :| 0 <= i < n && PastJobs(past[..n])[i] == m.job;
      assert PastJobs(past)[i] == m.job;
    } else {
      assert m in BlockMarks(past[n]);
      assert PastJobs(past)[n] == m.job;
    }
  }

  ghost predicate HasEnd(marks: seq<Mark>, j: Job) {
    exists e :: 0 <= e < |marks| && marks[e].Ended? && marks[e].job == j
  }

  lemma {:induction false} PastMarksEnded(past: seq<Block>, i: nat)
    requires i < |past|
    ensures HasEnd(PastMarks(past), past[i].work.job)
    decreases |past|
  {
    var n := |past| - 1;
    var x, b := PastMarks(past[..n]), BlockMarks(past[n]);
    if i < n {
      PastMarksEnded(past[..n], i);
      var e :| 0 <= e < |x| && x[e].Ended? && x[e].job == past[i].work.job;
      assert (x + b)[e] == x[e];
    } else {
      assert b[|b| - 1].Ended? && b[|b| - 1].job == past[n].work.job;
      assert (x + b)[|x| + |b| - 1] == b[|b| - 1];
    }
  }

  ghost predicate Rest(log: seq<Mark>, l: nat, k: nat, y: seq<Mark>) {
    forall i :: k <= i < |log| && LaneOf(log[i].job.stream) == l ==> log[i] in y
  }

  /** A lane's log cut in two is the log cut in two. */
  lemma {:induction false} MarksInCut(log: seq<Mark>, l: nat, x: seq<Mark>, y: seq<Mark>) returns (k: nat)
    requires MarksIn(log, l) == x + y
    ensures k <= |log| && MarksIn(log[..k], l) == x && Rest(log, l, k, y)
    decreases |log|
  {
    k := |log|;
    assert log[..k] == log;
    if y == [] {
      assert x + y == x;
    } else {
      var less, m := log[..|log| - 1], log[|log| - 1];
      assert log == less + [m];
      MarksInSnoc(less, m, l);
      if LaneOf(m.job.stream) == l {
        CutLast(MarksIn(less, l), m, x, y);
        k := MarksInCut(less, l, x, y[..|y| - 1]);
      } else {
        k := MarksInCut(less, l, x, y);
      }
      assert less[..k] == log[..k];
    }
  }

  lemma CutLast(shown: seq<Mark>, m: Mark, x: seq<Mark>, y: seq<Mark>)
    requires shown + [m] == x + y && y != []
    ensures shown == x + y[..|y| - 1] && m == y[|y| - 1]
  {
    assert shown == (shown + [m])[..|shown|];
    assert x + y[..|y| - 1] == (x + y)[..|shown|];
    assert m == (x + y)[|shown|];
  }

  lemma {:induction false} JobsInIncreasing(jobs: seq<Job>, l: nat)
    requires Increasing(jobs)
    ensures Increasing(JobsIn(jobs, l))
  {
    if jobs != [] {
      var n := |jobs| - 1;
      JobsInIncreasing(jobs[..n], l);
      var less := JobsIn(jobs[..n], l);
      forall i | 0 <= i < |less|
        ensures less[i].id < jobs[n].id
      {
        JobsInHold(jobs[..n], l, less[i]);
      }
    }
  }

  // ---------------------------------------------------------------- order

  ghost predicate HasMark(log: seq<Mark>, j: Job) {
    exists i :: 0 <= i < |log| && log[i].job == j
  }

  /** Every mark of `a` comes before every mark of `b`, and the worker had let `a` go by then. */
  ghost predicate WhollyBefore(log: seq<Mark>, a: Job, b: Job) {
    exists k :: 0 <= k <= |log| && SplitsAt(log, a, b, k)
  }

  ghost predicate SplitsAt(log: seq<Mark>, a: Job, b: Job, k: nat)
    requires k <= |log|
  {
    && (exists e :: 0 <= e < k && log[e].Ended? && log[e].job == a)
    && (forall i :: 0 <= i < |log| && log[i].job == a ==> i < k)
    && (forall i :: 0 <= i < |log| && log[i].job == b ==> k <= i)
  }

  /** A job with a mark is past or running: none that still waits has one. */
  lemma MarkedIsTaken(lane: Lane, shown: seq<Mark>, jobs: seq<Job>, m: Mark, i: nat)
    requires LaneInv(lane, shown, jobs) && Increasing(jobs) && m in shown && i < |jobs| && jobs[i] == m.job
    ensures i <= |lane.past| && (i == |lane.past| ==> lane.work.Some?)
  {
    if m in PastMarks(lane.past) {
      PastMarksHold(lane.past, m);
      var p :| 0 <= p < |lane.past| && PastJobs(lane.past)[p] == m.job;
      assert jobs[p] == m.job;
    } else {
      assert m in RunningMarks(lane.work);
      assert jobs[|lane.past|] == m.job;
    }
  }

  lemma PastJobsAt(past: seq<Block>, jobs: seq<Job>, from: nat, to: nat, j: Job) returns (i: nat)
    requires from <= to <= |past| && PastJobs(past) <= jobs && j in PastJobs(past[from..to])
    ensures from <= i < to && jobs[i] == j
  {
    var k :| 0 <= k < to - from && PastJobs(past[from..to])[k] == j;
    i := from + k;
    assert jobs[i] == PastJobs(past)[i];
  }

  ghost predicate Increasing(jobs: seq<Job>) {
    forall i, j :: 0 <= i < j < |jobs| ==> jobs[i].id < jobs[j].id
  }

  /** What the lane showed before job `ib`, and what it showed from that job on. */
  lemma Parts(lane: Lane, shown: seq<Mark>, jobs: seq<Job>, ia: nat, ib: nat) returns (x: seq<Mark>, y: seq<Mark>)
    requires LaneInv(lane, shown, jobs) && ia < ib <= |lane.past| && ib < |jobs| && Increasing(jobs)
    ensures shown == x + y && HasEnd(x, jobs[ia])
    ensures forall m :: m in x ==> m.job.id < jobs[ib].id
    ensures forall m :: m in y ==> m.job.id >= jobs[ib].id
  {
    var p, q := lane.past[..ib], lane.past[ib..];
    assert lane.past == p + q;
    PastMarksAppend(p, q);
    x, y := PastMarks(p), PastMarks(q) + RunningMarks(lane.work);
    Assoc(x, PastMarks(q), RunningMarks(lane.work));
    PastMarksEnded(p, ia);
    forall m | m in x
      ensures m.job.id < jobs[ib].id
    {
      PastMarksHold(p, m);
      var i := PastJobsAt(lane.past, jobs, 0, ib, m.job);
    }
    forall m | m in y
      ensures m.job.id >= jobs[ib].id
    {
      LateMark(lane, jobs, ib, m);
    }
  }

  lemma LateMark(lane: Lane, jobs: seq<Job>, ib: nat, m: Mark)
    requires jobs == PastJobs(lane.past) + RunningJobs(lane.work) + lane.queue && ib <= |lane.past| && ib < |jobs|
    requires Increasing(jobs)
    requires m in PastMarks(lane.past[ib..]) || m in RunningMarks(lane.work)
    ensures m.job.id >= jobs[ib].id
  {
    if m in PastMarks(lane.past[ib..]) {
      PastMarksHold(lane.past[ib..], m);
      var i := PastJobsAt(lane.past, jobs, ib, |lane.past|, m.job);
    } else {
      assert jobs[|lane.past|] == m.job;
    }
  }

  /**
   * Two jobs of one stream, the first accepted before the second: once the second shows any
   * sign, the first is over, all its attempts included. Nothing else in the world matters:
   * not the other nine workers, not the jobs a full queue dropped, not a shutdown.
   */
  lemma NeverOvertakes(actions: seq<Action>, w: World, a: Job, b: Job)
    requires Path(Initial(), actions, w)
    requires a in w.accepted && b in w.accepted && a.stream == b.stream && a.id < b.id && HasMark(w.log, b)
    ensures WhollyBefore(w.log, a, b)
  {
    InitialInv();
    EveryRunInv(Initial(), actions, w);
    OrderedInLane(w, a, b, LaneOf(a.stream));
  }

  lemma PartsAround(lane: Lane, shown: seq<Mark>, jobs: seq<Job>, a: Job, b: Job, m: Mark) returns (x: seq<Mark>,
                    y: seq<Mark>)
    requires LaneInv(lane, shown, jobs) && Increasing(jobs) && a in jobs && b in jobs && a.id < b.id
    requires m in shown && m.job == b
    ensures shown == x + y && HasEnd(x, a)
    ensures forall m :: m in x ==> m.job.id < b.id
    ensures forall m :: m in y ==> m.job.id >= b.id
  {
    var ia :| 0 <= ia < |jobs| && jobs[ia] == a;
    var ib :| 0 <= ib < |jobs| && jobs[ib] == b;
    MarkedIsTaken(lane, shown, jobs, m, ib);
    x, y := Parts(lane, shown, jobs, ia, ib);
  }

  /** Only accepted jobs show any sign. */
  lemma MarkedIsAccepted(w: World, j: Job)
    requires Inv(w) && HasMark(w.log, j)
    ensures j in w.accepted
  {
    var n :| 0 <= n < |w.log| && w.log[n].job == j;
    var l := LaneOf(j.stream);
    MarksInHold(w.log, l, w.log[n]);
    JobsInHold(w.accepted, l, j);
    ShownIsAccepted(w.lanes[l], MarksIn(w.log, l), JobsIn(w.accepted, l), w.log[n]);
  }

  lemma ShownIsAccepted(lane: Lane, shown: seq<Mark>, jobs: seq<Job>, m: Mark)
    requires LaneInv(lane, shown, jobs) && m in shown
    ensures m.job in jobs
  {
    if m in PastMarks(lane.past) {
      PastMarksHold(lane.past, m);
    } else {
      assert m in RunningMarks(lane.work);
      assert jobs[|lane.past|] == m.job;
    }
  }

  lemma OrderedInLane(w: World, a: Job, b: Job, l: nat)
    requires Inv(w) && l < WORKERS && LaneOf(a.stream) == LaneOf(b.stream) == l
    requires a in w.accepted && b in w.accepted && a.id < b.id && HasMark(w.log, b)
    ensures WhollyBefore(w.log, a, b)
  {
    var n :| 0 <= n < |w.log| && w.log[n].job == b;
    JobsInHold(w.accepted, l, a);
    JobsInHold(w.accepted, l, b);
    JobsInIncreasing(w.accepted, l);
    MarksInHold(w.log, l, w.log[n]);
    var x, y := PartsAround(w.lanes[l], MarksIn(w.log, l), JobsIn(w.accepted, l), a, b, w.log[n]);
    var k := MarksInCut(w.log, l, x, y);
    CutSplits(w.log, l, a, b, x, y, k);
  }

  lemma CutSplits(log: seq<Mark>, l: nat, a: Job, b: Job, x: seq<Mark>, y: seq<Mark>, k: nat)
    requires LaneOf(a.stream) == LaneOf(b.stream) == l && a.id < b.id
    requires k <= |log| && MarksIn(log[..k], l) == x && Rest(log, l, k, y) && HasEnd(x, a)
    requires forall m :: m in x ==> m.job.id < b.id
    requires forall m :: m in y ==> m.job.id >= b.id
    ensures WhollyBefore(log, a, b)
  {
    var m :| m in x && m.Ended? && m.job == a;
    MarksInHold(log[..k], l, m);
    var e :| 0 <= e < k && log[..k][e] == m;
    assert log[e].Ended? && log[e].job == a;
    forall i | 0 <= i < |log| && log[i].job == b
      ensures k <= i
    {
      if i < k {
        assert log[..k][i] == log[i];
        MarksInHold(log[..k], l, log[i]);
      }
    }
    assert SplitsAt(log, a, b, k);
  }

  // ---------------------------------------------------------------- whole deliveries

  /** All the marks of one job, in order. */
  function MarksFor(log: seq<Mark>, j: Job): (r: seq<Mark>) {
    if log == [] then []
    else
      var n := |log| - 1;
      if log[n].job == j then MarksFor(log[..n], j) + [log[n]] else MarksFor(log[..n], j)
  }

  lemma {:induction false} MarksForLane(log: seq<Mark>, j: Job)
    ensures MarksFor(log, j) == MarksFor(MarksIn(log, LaneOf(j.stream)), j)
  {
    if log != [] {
      var n, l := |log| - 1, LaneOf(j.stream);
      MarksForLane(log[..n], j);
      assert (MarksIn(log[..n], l) + [log[n]])[..|MarksIn(log[..n], l)|] == MarksIn(log[..n], l);
    }
  }

  lemma {:induction false} MarksForAppend(x: seq<Mark>, y: seq<Mark>, j: Job)
    ensures MarksFor(x + y, j) == MarksFor(x, j) + MarksFor(y, j)
    decreases |y|
  {
    if y == [] {
      assert x + y == x;
    } else {
      var n := |y| - 1;
      MarksForAppend(x, y[..n], j);
      assert (x + y)[..|x| + n] == x + y[..n] && (x + y)[|x| + n] == y[n];
    }
  }

  lemma {:induction false} MarksForUniform(x: seq<Mark>, j: Job, who: Job)
    requires forall i :: 0 <= i < |x| ==> x[i].job == who
    ensures MarksFor(x, j) == if who == j then x else []
  {
    if x != [] {
      var n := |x| - 1;
      MarksForUniform(x[..n], j, who);
      assert x == x[..n] + [x[n]];
    }
  }

  lemma {:induction false} MarksForPast(past: seq<Block>, j: Job)
    requires forall i, k :: 0 <= i < k < |past| ==> past[i].work.job != past[k].work.job
    ensures j !in PastJobs(past) ==> MarksFor(PastMarks(past), j) == []
    ensures forall i :: 0 <= i < |past| && past[i].work.job == j ==> MarksFor(PastMarks(past), j) == BlockMarks(past[i])
  {
    if past != [] {
      var n := |past| - 1;
      MarksForPast(past[..n], j);
      MarksForAppend(PastMarks(past[..n]), BlockMarks(past[n]), j);
      MarksForUniform(BlockMarks(past[n]), j, past[n].work.job);
      var less := PastJobs(past[..n]);
      assert PastJobs(past) == less + [past[n].work.job];
      assert past[n].work.job == j ==> j !in less;
    }
  }

  ghost predicate Unseen(marks: seq<Mark>) { marks == [] }

  ghost predicate Running(marks: seq<Mark>, j: Job) {
    exists k: Work :: k.job == j && GoodWork(k) && marks == WorkMarks(k)
  }

  ghost predicate Whole(marks: seq<Mark>, j: Job) {
    exists b: Block :: b.work.job == j && GoodBlock(b) && marks == BlockMarks(b)
  }

  /**
   * Every accepted job shows nothing yet, or one delivery in progress, or one finished one:
   * taken up once, at most three attempts of which only the last can succeed, let go once
   * with the status those attempts earn.
   */
  lemma EveryDeliveryIsWhole(actions: seq<Action>, w: World, j: Job)
    requires Path(Initial(), actions, w) && j in w.accepted
    ensures var marks := MarksFor(w.log, j);
            Unseen(marks) || Running(marks, j) || Whole(marks, j)
  {
    InitialInv();
    EveryRunInv(Initial(), actions, w);
    var l := LaneOf(j.stream);
    var lane, jobs := w.lanes[l], JobsIn(w.accepted, l);
    JobsInIncreasing(w.accepted, l);
    forall i, k | 0 <= i < k < |lane.past|
      ensures lane.past[i].work.job != lane.past[k].work.job
    {
      assert jobs[i] == PastJobs(lane.past)[i] && jobs[k] == PastJobs(lane.past)[k];
    }
    MarksForLane(w.log, j);
    MarksForAppend(PastMarks(lane.past), RunningMarks(lane.work), j);
    MarksForPast(lane.past, j);
    RunningFor(lane, jobs, j);
    if j in PastJobs(lane.past) {
      var i :| 0 <= i < |lane.past| && PastJobs(lane.past)[i] == j;
      assert GoodBlock(lane.past[i]);
    }
  }

  lemma RunningFor(lane: Lane, jobs: seq<Job>, j: Job)
    requires Increasing(jobs)
    requires PastJobs(lane.past) + RunningJobs(lane.work) <= jobs
    ensures lane.work.Some? && lane.work.value.job == j ==>
              MarksFor(RunningMarks(lane.work), j) == WorkMarks(lane.work.value) && j !in PastJobs(lane.past)
    ensures !(lane.work.Some? && lane.work.value.job == j) ==> MarksFor(RunningMarks(lane.work), j) == []
  {
    if lane.work.Some? {
      MarksForUniform(RunningMarks(lane.work), j, lane.work.value.job);
      assert jobs[|lane.past|] == lane.work.value.job;
      forall i | 0 <= i < |lane.past|
        ensures PastJobs(lane.past)[i] == jobs[i]
      {
      }
    }
  }
}
