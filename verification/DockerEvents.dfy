/**
 * Following the Docker daemon's event stream across cuts (internal/docker/events.go).
 *
 * The daemon's log is the list of its messages in time order. A subscription from a resume
 * point is sent every message stamped at or after it, until the stream is cut after any
 * number of them.
 */
module DockerEvents {
  import opened Collections

  const NANOS_PER_SECOND := 1_000_000_000

  datatype Message = Message(kind: string, action: string, actor: string, attributes: map<string, string>, sec: int,
                             nano: int)

  datatype ContainerEvent = ContainerEvent(action: string, externalId: string, name: string, image: string,
                                           exitCode: string, health: string, resource: string, stamp: int)

  function Stamp(m: Message): (t: int) {
    if m.nano > 0 then m.nano else m.sec * NANOS_PER_SECOND
  }

  function ResumeAfter(m: Message): (t: int) {
    Stamp(m) + 1
  }

  function Attribute(m: Message, name: string): (r: string) {
    if name in m.attributes then m.attributes[name] else ""
  }

  const HEALTH := "health_status"
  const HEALTH_SEPARATOR := ": "
  const LIFECYCLE := {"start", "stop", "die", "pause", "unpause", "destroy"}

  /** What follows the first ": ". */
  function AfterSeparator(s: string): (r: Option<string>) {
    if |s| < 2 then None else if s[..2] == HEALTH_SEPARATOR then Some(s[2..]) else AfterSeparator(s[1..])
  }

  function ProcessEvent(m: Message): (r: Option<ContainerEvent>) {
    if m.kind == "service" || m.kind == "node" then
      Some(ContainerEvent(m.action, m.actor, Attribute(m, "name"), "", "", "", m.kind, Stamp(m)))
    else if m.action !in LIFECYCLE && !(HEALTH <= m.action) then None
    else
      var health := if HEALTH <= m.action then AfterSeparator(m.action) else None;
      Some(ContainerEvent(if health.Some? then HEALTH else m.action, m.actor,
                          Attribute(m, "name"), Attribute(m, "image"),
                          if m.action == "die" then Attribute(m, "exitCode") else "",
                          if health.Some? then health.value else "", "container", Stamp(m)))
  }

  lemma {:induction false} AfterSeparatorIs(before: string, rest: string)
    requires ':' !in before
    ensures AfterSeparator(before + HEALTH_SEPARATOR + rest) == Some(rest)
  {
    var s := before + HEALTH_SEPARATOR + rest;
    if before == "" {
      assert s[..2] == HEALTH_SEPARATOR && s[2..] == rest;
    } else {
      assert s[0] == before[0] != ':' && s[..2][0] == s[0];
      assert s[1..] == before[1..] + HEALTH_SEPARATOR + rest;
      AfterSeparatorIs(before[1..], rest);
    }
  }

  /** A health message of a container is relayed under one action, with the health it names. */
  lemma HealthIsRelayed(m: Message, health: string)
    requires m.kind != "service" && m.kind != "node" && m.action == HEALTH + HEALTH_SEPARATOR + health
    ensures var e := ProcessEvent(m);
            e.Some? && e.value.action == HEALTH && e.value.health == health && e.value.externalId == m.actor
              && e.value.stamp == Stamp(m)
  {
    AfterSeparatorIs(HEALTH, health);
    assert m.action[..|HEALTH|] == HEALTH;
  }

  /** The events of a list of messages, in order. */
  function Relayed(messages: seq<Message>): (r: seq<ContainerEvent>) {
    if messages == [] then []
    else
      var n := |messages| - 1;
      var e := ProcessEvent(messages[n]);
      Relayed(messages[..n]) + if e.Some? then [e.value] else []
  }

  lemma {:induction false} RelayedAppend(x: seq<Message>, y: seq<Message>)
    ensures Relayed(x + y) == Relayed(x) + Relayed(y)
    decreases |y|
  {
    if y == [] {
      assert x + y == x;
    } else {
      var n := |y| - 1;
      RelayedAppend(x, y[..n]);
      assert (x + y)[..|x| + n] == x + y[..n] && (x + y)[|x| + n] == y[n];
    }
  }

  // ---------------------------------------------------------------- the log and the cuts

  ghost predicate Ordered(log: seq<Message>) {
    forall i, j :: 0 <= i <= j < |log| ==> Stamp(log[i]) <= Stamp(log[j])
  }

  ghost predicate StrictlyOrdered(log: seq<Message>) {
    forall i, j :: 0 <= i < j < |log| ==> Stamp(log[i]) < Stamp(log[j])
  }

  /** The position of the first message stamped at or after `since`. */
  function First(log: seq<Message>, since: int): (p: nat)
    ensures p <= |log|
  {
    if log == [] || Stamp(log[0]) >= since then 0 else 1 + First(log[1..], since)
  }

  lemma {:induction false} FirstIs(log: seq<Message>, since: int)
    ensures forall i :: 0 <= i < First(log, since) ==> Stamp(log[i]) < since
    ensures First(log, since) < |log| ==> Stamp(log[First(log, since)]) >= since
  {
    if log != [] && Stamp(log[0]) < since {
      FirstIs(log[1..], since);
      forall i | 0 <= i < First(log, since)
        ensures Stamp(log[i]) < since
      {
        if i > 0 {
          assert log[i] == log[1..][i - 1];
        }
      }
    }
  }

  /** What a subscription from `since` is sent before it is cut after at most `n` messages. */
  function Delivered(log: seq<Message>, since: int, n: nat): (r: seq<Message>) {
    var p := First(log, since);
    if p + n <= |log| then log[p..p + n] else log[p..]
  }

  function ResumePoint(since: int, got: seq<Message>): (r: int) {
    if got == [] then since else ResumeAfter(got[|got| - 1])
  }

  /** All that a run of subscriptions is sent, in order; `cuts` says how far each one gets. */
  function Received(log: seq<Message>, since: int, cuts: seq<nat>): (r: seq<Message>)
    decreases |cuts|
  {
    if cuts == [] then []
    else
      var got := Delivered(log, since, cuts[0]);
      got + Received(log, ResumePoint(since, got), cuts[1..])
  }

  function ResumeAt(log: seq<Message>, since: int, cuts: seq<nat>): (r: int)
    decreases |cuts|
  {
    if cuts == [] then since else ResumeAt(log, ResumePoint(since, Delivered(log, since, cuts[0])), cuts[1..])
  }

  /** No cut falls between two messages of the same stamp. */
  ghost predicate CleanCuts(log: seq<Message>, since: int, cuts: seq<nat>)
    decreases |cuts|
  {
    if cuts == [] then true
    else
      var got := Delivered(log, since, cuts[0]);
      CleanCut(log, First(log, since), |got|) && CleanCuts(log, ResumePoint(since, got), cuts[1..])
  }

  ghost predicate CleanCut(log: seq<Message>, p: nat, n: nat) {
    0 < n && p + n < |log| ==> Stamp(log[p + n - 1]) != Stamp(log[p + n])
  }

  /** Where the next subscription starts: right after the last message, unless the stamp repeats. */
  lemma NextStart(log: seq<Message>, since: int, p: nat, q: nat)
    requires Ordered(log) && p == First(log, since) && p <= q <= |log|
    ensures var next := First(log, ResumePoint(since, log[p..q]));
            q <= next && (next == q <==> CleanCut(log, p, q - p))
  {
    if p < q {
      var resume := ResumePoint(since, log[p..q]);
      assert resume == Stamp(log[q - 1]) + 1;
      FirstIs(log, resume);
      assert forall i :: 0 <= i < q ==> Stamp(log[i]) < resume;
    }
  }

  lemma DeliveredIs(log: seq<Message>, since: int, n: nat)
    ensures var p, got := First(log, since), Delivered(log, since, n);
            p + |got| <= |log| && got == log[p..p + |got|]
  {
  }

  function End(log: seq<Message>, since: int, cuts: seq<nat>): (q: nat) {
    First(log, ResumeAt(log, since, cuts))
  }

  /** A subscription sent `log[p..q]`; the rest of the run, from `next` on, got to `e`. */
  lemma Glue(log: seq<Message>, p: nat, q: nat, next: nat, e: nat, rest: seq<Message>, cutClean: bool, restClean: bool)
    requires p <= q <= next && next + |rest| <= e <= |log| && (cutClean <==> next == q)
    requires (restClean <==> next + |rest| == e) && (restClean ==> rest == log[next..e])
    ensures q + |rest| <= e && (cutClean && restClean <==> q + |rest| == e)
    ensures cutClean && restClean ==> log[p..q] + rest == log[p..e]
  {
  }

  /** The messages sent plus those skipped at unclean cuts are the log between start and end. */
  lemma {:induction false} ReceivedReaches(log: seq<Message>, since: int, cuts: seq<nat>)
    requires Ordered(log)
    ensures var p, n, e := First(log, since), |Received(log, since, cuts)|, End(log, since, cuts);
            && p + n <= e <= |log| && (CleanCuts(log, since, cuts) <==> p + n == e)
            && (CleanCuts(log, since, cuts) ==> Received(log, since, cuts) == log[p..e])
    decreases |cuts|
  {
    var p := First(log, since);
    if cuts == [] {
      assert log[p..p] == [];
    } else {
      var got := Delivered(log, since, cuts[0]);
      DeliveredIs(log, since, cuts[0]);
      NextStart(log, since, p, p + |got|);
      var resume := ResumePoint(since, got);
      ReceivedReaches(log, resume, cuts[1..]);
      var next, rest := First(log, resume), Received(log, resume, cuts[1..]);
      Glue(log, p, p + |got|, next, End(log, resume, cuts[1..]), rest, CleanCut(log, p, |got|),
        CleanCuts(log, resume, cuts[1..]));
    }
  }

  /**
   * From a set resume point, whatever the cuts: the messages relayed are exactly the log from
   * that point to where the next subscription would start, each once and in order, if and
   * only if no cut falls between two messages of the same stamp.
   */
  lemma RelayIsLosslessIff(log: seq<Message>, since: int, cuts: seq<nat>)
    requires Ordered(log)
    ensures First(log, since) <= End(log, since, cuts)
    ensures Received(log, since, cuts) == log[First(log, since)..End(log, since, cuts)]
            <==> CleanCuts(log, since, cuts)
  {
    ReceivedReaches(log, since, cuts);
  }

  /** Strictly increasing stamps leave no unclean cut, so nothing is lost or repeated. */
  lemma {:induction false} StrictStampsCutClean(log: seq<Message>, since: int, cuts: seq<nat>)
    requires StrictlyOrdered(log)
    ensures CleanCuts(log, since, cuts)
    decreases |cuts|
  {
    if cuts != [] {
      StrictStampsCutClean(log, ResumePoint(since, Delivered(log, since, cuts[0])), cuts[1..]);
    }
  }

  lemma RelayIsLossless(log: seq<Message>, since: int, cuts: seq<nat>)
    requires StrictlyOrdered(log)
    ensures var p, q := First(log, since), End(log, since, cuts);
            p <= q && Received(log, since, cuts) == log[p..q]
  {
    StrictStampsCutClean(log, since, cuts);
    RelayIsLosslessIff(log, since, cuts);
  }

  /** Two messages of one stamp and a cut between them: the second is never sent again. */
  lemma CutBetweenEqualStampsLoses(a: Message, b: Message, c: Message, since: int)
    requires since <= Stamp(a) == Stamp(b) < Stamp(c)
    ensures Received([a, b, c], since, [1, 2]) == [a, c]
  {
    var log := [a, b, c];
    assert First(log, since) == 0 && Delivered(log, since, 1) == [a];
    var resume := ResumePoint(since, [a]);
    var p := First(log, resume);
    FirstIs(log, resume);
    assert log[0] == a && log[1] == b && log[2] == c;
    assert p == 2;
    assert Delivered(log, resume, 2) == log[2..] == [c];
    assert [1, 2][1..] == [2] && [2][1..] == [];
    assert Received(log, resume, [2]) == [c];
  }

  // ---------------------------------------------------------------- the loops

  method RelaySubscription(stream: seq<Message>, since: int) returns (out: seq<ContainerEvent>, resume: int)
    ensures out == Relayed(stream) && resume == ResumePoint(since, stream)
  {
    out, resume := [], since;
    for i := 0 to |stream|
      invariant out == Relayed(stream[..i]) && resume == ResumePoint(since, stream[..i])
    {
      resume := ResumeAfter(stream[i]);
      assert stream[..i + 1][..i] == stream[..i];
      var e := ProcessEvent(stream[i]);
      if e.Some? {
        out := out + [e.value];
      }
    }
    assert stream[..|stream|] == stream;
  }

  lemma RelayFirst(log: seq<Message>, since: int, cuts: seq<nat>, i: nat, out: seq<ContainerEvent>)
    requires i < |cuts|
    ensures var got := Delivered(log, since, cuts[i]);
            var resume := ResumePoint(since, got);
            && out + Relayed(Received(log, since, cuts[i..])) ==
               (out + Relayed(got)) + Relayed(Received(log, resume, cuts[i + 1..]))
            && ResumeAt(log, since, cuts[i..]) == ResumeAt(log, resume, cuts[i + 1..])
  {
    assert cuts[i..][1..] == cuts[i + 1..];
    var got := Delivered(log, since, cuts[i]);
    RelayedAppend(got, Received(log, ResumePoint(since, got), cuts[i + 1..]));
  }

  method RelayEvents(log: seq<Message>, replayFrom: int, cuts: seq<nat>) returns (out: seq<ContainerEvent>, since: int)
    ensures out == Relayed(Received(log, replayFrom, cuts)) && since == ResumeAt(log, replayFrom, cuts)
  {
    out, since := [], replayFrom;
    var i := 0;
    assert cuts[0..] == cuts;
    while i < |cuts|
      invariant 0 <= i <= |cuts|
      invariant Relayed(Received(log, replayFrom, cuts)) == out + Relayed(Received(log, since, cuts[i..]))
      invariant ResumeAt(log, since, cuts[i..]) == ResumeAt(log, replayFrom, cuts)
    {
      RelayFirst(log, since, cuts, i, out);
      var relayed, resume := RelaySubscription(Delivered(log, since, cuts[i]), since);
      out, since := out + relayed, resume;
      i := i + 1;
    }
    assert cuts[i..] == [];
  }
}
