/**
 * Uptime of a container over a window (internal/container/uptime.go computeUptime, isUp).
 *
 * The loop adds up spans between transitions; the reference looks at every instant on its
 * own. Times are whole ticks of any size.
 */
module Uptime {
  import opened Collections

  const RUNNING := "running"
  const UNHEALTHY := "unhealthy"

  datatype Transition = Transition(at: int, state: string, health: Option<string>)

  predicate IsUp(t: Transition) {
    t.state == RUNNING && t.health != Some(UNHEALTHY)
  }

  // ---------------------------------------------------------------- reference

  predicate Sorted(ts: seq<Transition>) {
    forall i, j :: 0 <= i <= j < |ts| ==> ts[i].at <= ts[j].at
  }

  /** The latest transition at or before the instant is one to "up". */
  predicate UpAt(ts: seq<Transition>, instant: int) {
    if ts == [] then false
    else
      var last := ts[|ts| - 1];
      if last.at <= instant then IsUp(last) else UpAt(ts[..|ts| - 1], instant)
  }

  /** The number of instants of `from..to` at which the container was up. */
  function UpInstants(ts: seq<Transition>, from: int, until: int): (n: nat)
    decreases until - from
  {
    if from >= until then 0 else (if UpAt(ts, from) then 1 else 0) + UpInstants(ts, from + 1, until)
  }

  lemma {:induction false} UpInstantsSplit(ts: seq<Transition>, from: int, mid: int, until: int)
    requires from <= mid <= until
    ensures UpInstants(ts, from, until) == UpInstants(ts, from, mid) + UpInstants(ts, mid, until)
    decreases mid - from
  {
    if from < mid {
      UpInstantsSplit(ts, from + 1, mid, until);
    }
  }

  lemma {:induction false} UpInstantsConstant(ts: seq<Transition>, from: int, until: int, up: bool)
    requires from <= until && forall s :: from <= s < until ==> UpAt(ts, s) == up
    ensures UpInstants(ts, from, until) == (if up then until - from else 0)
    decreases until - from
  {
    if from < until {
      UpInstantsConstant(ts, from + 1, until, up);
    }
  }

  ghost predicate AllUp(ts: seq<Transition>, from: int, until: int) {
    forall s :: from <= s < until ==> UpAt(ts, s)
  }

  /** Never more than the window holds, and all of it exactly when no instant was down. */
  lemma {:induction false} UpInstantsBound(ts: seq<Transition>, from: int, until: int)
    requires from <= until
    ensures UpInstants(ts, from, until) <= until - from
    ensures UpInstants(ts, from, until) == until - from <==> AllUp(ts, from, until)
    decreases until - from
  {
    if from < until {
      UpInstantsBound(ts, from + 1, until);
      AllUpFirst(ts, from, until);
    }
  }

  lemma AllUpFirst(ts: seq<Transition>, from: int, until: int)
    requires from < until
    ensures AllUp(ts, from, until) <==> UpAt(ts, from) && AllUp(ts, from + 1, until)
  {
    if UpAt(ts, from) && AllUp(ts, from + 1, until) {
      forall s | from <= s < until
        ensures UpAt(ts, s)
      {
        assert s == from || from + 1 <= s;
      }
    }
  }

  lemma {:induction false} UpAtBetween(ts: seq<Transition>, n: nat, s: int)
    requires Sorted(ts) && n < |ts| && ts[n].at <= s && (n + 1 < |ts| ==> s < ts[n + 1].at)
    ensures UpAt(ts, s) == IsUp(ts[n])
    decreases |ts|
  {
    if n + 1 < |ts| {
      UpAtBetween(ts[..|ts| - 1], n, s);
    }
  }

  lemma {:induction false} UpAtBefore(ts: seq<Transition>, s: int)
    requires forall i :: 0 <= i < |ts| ==> s < ts[i].at
    ensures !UpAt(ts, s)
  {
    if ts != [] {
      UpAtBefore(ts[..|ts| - 1], s);
    }
  }

  // ---------------------------------------------------------------- the spans

  function Max(a: int, b: int): (r: int) { if a < b then b else a }
  function Min(a: int, b: int): (r: int) { if a < b then a else b }

  function EndOf(ts: seq<Transition>, i: nat, until: int): (r: int) {
    if i < |ts| then ts[i].at else until
  }

  function Span(ts: seq<Transition>, i: nat, from: int, until: int): (r: nat)
    requires i < |ts|
  {
    if IsUp(ts[i]) then Max(0, Min(EndOf(ts, i + 1, until), until) - Max(ts[i].at, from)) else 0
  }

  function Spans(ts: seq<Transition>, n: nat, from: int, until: int): (r: nat)
    requires n <= |ts|
  {
    if n == 0 then 0 else Spans(ts, n - 1, from, until) + Span(ts, n - 1, from, until)
  }

  function Within(x: int, from: int, until: int): (r: int) {
    Max(from, Min(x, until))
  }

  lemma SpanIsUpInstants(ts: seq<Transition>, i: nat, from: int, until: int)
    requires Sorted(ts) && i < |ts| && from <= until
    ensures var a, b := Within(ts[i].at, from, until), Within(EndOf(ts, i + 1, until), from, until);
            a <= b && Span(ts, i, from, until) == UpInstants(ts, a, b)
  {
    var a, b := Within(ts[i].at, from, until), Within(EndOf(ts, i + 1, until), from, until);
    forall s | a <= s < b
      ensures UpAt(ts, s) == IsUp(ts[i])
    {
      UpAtBetween(ts, i, s);
    }
    UpInstantsConstant(ts, a, b, IsUp(ts[i]));
  }

  lemma {:induction false} SpansAreUpInstants(ts: seq<Transition>, n: nat, from: int, until: int)
    requires Sorted(ts) && n <= |ts| && from <= until
    ensures Spans(ts, n, from, until) == UpInstants(ts, from, Within(EndOf(ts, n, until), from, until))
  {
    if n == 0 {
      var b := Within(EndOf(ts, 0, until), from, until);
      forall s | from <= s < b
        ensures !UpAt(ts, s)
      {
        UpAtBefore(ts, s);
      }
      UpInstantsConstant(ts, from, b, false);
    } else {
      SpansAreUpInstants(ts, n - 1, from, until);
      SpanIsUpInstants(ts, n - 1, from, until);
      var a, b := Within(ts[n - 1].at, from, until), Within(EndOf(ts, n, until), from, until);
      UpInstantsSplit(ts, from, a, b);
    }
  }

  /** On time-ordered transitions the spans add up to the up instants of the window. */
  lemma UptimeIsPointwise(ts: seq<Transition>, from: int, until: int)
    requires Sorted(ts) && from <= until
    ensures Spans(ts, |ts|, from, until) == UpInstants(ts, from, until) <= until - from
  {
    SpansAreUpInstants(ts, |ts|, from, until);
    UpInstantsBound(ts, from, until);
  }

  /** Cutting the window anywhere loses and invents no up time. */
  lemma UptimeIsAdditive(ts: seq<Transition>, from: int, mid: int, until: int)
    requires Sorted(ts) && from <= mid <= until
    ensures Spans(ts, |ts|, from, until) == Spans(ts, |ts|, from, mid) + Spans(ts, |ts|, mid, until)
  {
    UptimeIsPointwise(ts, from, until);
    UptimeIsPointwise(ts, from, mid);
    UptimeIsPointwise(ts, mid, until);
    UpInstantsSplit(ts, from, mid, until);
  }

  // ---------------------------------------------------------------- the rows a window is given

  /** `ts[a..b]` are the rows the store selects for the window. */
  ghost predicate Selects(ts: seq<Transition>, a: nat, b: nat, from: int, until: int) {
    && a <= b <= |ts|
    && (forall i :: 0 <= i < a ==> ts[i].at < from)
    && (forall i :: a <= i < b ==> from <= ts[i].at <= until)
    && (forall i :: b <= i < |ts| ==> until < ts[i].at)
  }

  /** Before the first selected row the history still says what it said when the window began. */
  lemma {:induction false} UpAtCarried(ts: seq<Transition>, a: nat, from: int, s: int)
    requires a <= |ts| && from <= s && forall i :: 0 <= i < a ==> ts[i].at < from
    requires forall i :: a <= i < |ts| ==> s < ts[i].at
    ensures UpAt(ts, s) == UpAt(ts, from)
    decreases |ts|
  {
    if a < |ts| {
      UpAtCarried(ts[..|ts| - 1], a, from, s);
    }
  }

  /** From the first selected row on, the selection says what the history says. */
  lemma {:induction false} UpAtSelected(ts: seq<Transition>, a: nat, b: nat, s: int)
    requires a < b <= |ts| && Sorted(ts) && ts[a].at <= s && forall i :: b <= i < |ts| ==> s < ts[i].at
    ensures UpAt(ts[a..b], s) == UpAt(ts, s)
    decreases |ts|
  {
    var n := |ts| - 1;
    if b < |ts| {
      UpAtSelected(ts[..n], a, b, s);
      assert ts[..n][a..b] == ts[a..b];
    } else if ts[n].at > s {
      UpAtSelected(ts[..n], a, n, s);
      assert ts[..n][a..n] == ts[a..n];
      assert ts[a..b][..n - a] == ts[a..n] && ts[a..b][n - a] == ts[n];
    }
  }

  /**
   * The rows handed over start at the window's beginning, so what the container did before
   * is forgotten: the up time is right exactly when the container was not up as the window
   * began, or changed at that very instant.
   */
  lemma WindowedUptimeIsRightIff(ts: seq<Transition>, a: nat, b: nat, from: int, until: int)
    requires Sorted(ts) && Selects(ts, a, b, from, until) && a < b && from < until
    ensures Spans(ts[a..b], b - a, from, until) == UpInstants(ts, from, until) <==> ts[a].at == from || !UpAt(ts, from)
  {
    var win, f := ts[a..b], ts[a].at;
    UptimeIsPointwise(win, from, until);
    UpInstantsSplit(win, from, f, until);
    UpInstantsSplit(ts, from, f, until);
    forall s | from <= s < f
      ensures UpAt(ts, s) == UpAt(ts, from) && !UpAt(win, s)
    {
      UpAtCarried(ts, a, from, s);
      UpAtBefore(win, s);
    }
    UpInstantsConstant(ts, from, f, UpAt(ts, from));
    UpInstantsConstant(win, from, f, false);
    forall s | f <= s < until
      ensures UpAt(ts, s) == UpAt(win, s)
    {
      UpAtSelected(ts, a, b, s);
    }
    UpInstantsAgree(ts, win, f, until);
  }

  /** The percentage shown for the rows the store gave of a window. */
  function Shown(ts: seq<Transition>, from: int, until: int): (pct: real) {
    if until <= from then 0.0 else if ts == [] then 100.0 else Percent(Spans(ts, |ts|, from, until), until - from)
  }

  const STARTED := Transition(0, RUNNING, None)
  const STOPPED := Transition(5, "exited", None)

  /** Started at 0 and stopped at 5: the window 2..10 counts none of its three up instants. */
  lemma WindowForgets()
    ensures var ts := [STARTED, STOPPED];
            Sorted(ts) && Selects(ts, 1, 2, 2, 10) && Shown(ts[1..2], 2, 10) == 0.0 && UpInstants(ts, 2, 10) == 3
  {
    var ts := [STARTED, STOPPED];
    forall s | 2 <= s < 10
      ensures UpAt(ts, s) == (s < 5)
    {
      UpAtBetween(ts, if s < 5 then 0 else 1, s);
    }
    UpInstantsSplit(ts, 2, 5, 10);
    UpInstantsConstant(ts, 2, 5, true);
    UpInstantsConstant(ts, 5, 10, false);
    assert ts[1..2] == [STOPPED] && Spans(ts[1..2], 1, 2, 10) == 0;
    PercentIs(0, 8);
  }

  /** Stopped at 5 and never started again: the window 10..20 holds no row, shows 100 percent, and has no up instant. */
  lemma EmptyWindowShowsFull()
    ensures var ts := [STARTED, STOPPED];
            Sorted(ts) && Selects(ts, 2, 2, 10, 20) && Shown(ts[2..2], 10, 20) == 100.0 && UpInstants(ts, 10, 20) == 0
  {
    var ts := [STARTED, STOPPED];
    forall s | 10 <= s < 20
      ensures !UpAt(ts, s)
    {
      UpAtBetween(ts, 1, s);
    }
    UpInstantsConstant(ts, 10, 20, false);
  }

  lemma {:induction false} UpInstantsAgree(ts: seq<Transition>, us: seq<Transition>, from: int, until: int)
    requires forall s :: from <= s < until ==> UpAt(ts, s) == UpAt(us, s)
    ensures UpInstants(ts, from, until) == UpInstants(us, from, until)
    decreases until - from
  {
    if from < until {
      UpInstantsAgree(ts, us, from + 1, until);
    }
  }

  /** With no row in the window the answer is 100 percent, which is right exactly when it began up. */
  lemma EmptyWindowIsRightIff(ts: seq<Transition>, a: nat, from: int, until: int)
    requires Sorted(ts) && Selects(ts, a, a, from, until) && from < until
    ensures Shown(ts[a..a], from, until) == 100.0
    ensures UpInstants(ts, from, until) == until - from <==> UpAt(ts, from)
  {
    forall s | from <= s < until
      ensures UpAt(ts, s) == UpAt(ts, from)
    {
      UpAtCarried(ts, a, from, s);
    }
    UpInstantsConstant(ts, from, until, UpAt(ts, from));
  }

  // ---------------------------------------------------------------- the percentage

  /** Two decimals, cut off. */
  function Percent(up: nat, total: nat): (r: real)
    requires total > 0
  {
    var pct := Clamped(up as real / total as real * 100.0);
    (pct * 100.0).Floor as real / 100.0
  }

  function Clamped(pct: real): (r: real) {
    if pct > 100.0 then 100.0 else pct
  }

  /** Time order is what keeps the clamp idle: this list counts its window twice. */
  lemma ClampFiresOutOfOrder()
    ensures exists ts: seq<Transition> :: Spans(ts, |ts|, 0, 10) > 10
  {
    var a, b := Transition(0, RUNNING, None), Transition(10, RUNNING, None);
    var ts := [a, b, a];
    assert Spans(ts, 3, 0, 10) == Spans(ts, 2, 0, 10) + 10;
    assert Spans(ts, 2, 0, 10) == Spans(ts, 1, 0, 10);
    assert Spans(ts, |ts|, 0, 10) == 20;
  }

  lemma PercentIs(up: nat, total: nat)
    requires 0 < total && up <= total
    ensures Percent(up, total) == (10000 * up / total) as real / 100.0
    ensures Clamped(up as real / total as real * 100.0) == up as real / total as real * 100.0
    ensures 0.0 <= Percent(up, total) <= 100.0
    ensures Percent(up, total) == 100.0 <==> up == total
  {
    var x := up as real / total as real;
    RatioBound(up, total);
    FloorIs(10000 * up, total);
    assert x * 100.0 * 100.0 == (10000 * up) as real / total as real;
    QuotientBound(up, total);
  }

  lemma RatioBound(up: nat, total: nat)
    requires 0 < total && up <= total
    ensures 0.0 <= up as real / total as real <= 1.0
  {
  }

  lemma QuotientBound(up: nat, total: nat)
    requires 0 < total && up <= total
    ensures 0 <= 10000 * up / total <= 10000 && (10000 * up / total == 10000 <==> up == total)
  {
    var n := 10000 * up;
    AtLeast(n / total, n % total, total, 10000);
    AtLeast(n / total, n % total, total, 10001);
    AtLeast(n / total, n % total, total, 0);
    assert n == n / total * total + n % total;
  }

  lemma AtLeast(q: int, r: int, d: int, c: int)
    requires 0 <= r < d
    ensures c * d <= q * d + r <==> c <= q
  {
    var k := q - c;
    assert q * d - c * d == k * d;
    if k >= 0 {
      assert k * d >= 0;
    } else {
      assert k * d <= -1 * d;
    }
  }

  lemma FloorIs(n: nat, d: nat)
    requires d > 0
    ensures (n as real / d as real).Floor == n / d
  {
    var q, r, x := n / d, n % d, n as real / d as real;
    assert n == q * d + r;
    assert x * d as real == n as real;
    assert q as real * d as real <= x * d as real < (q + 1) as real * d as real;
    assert q as real <= x < (q + 1) as real;
  }

  method UpTime(ts: seq<Transition>, from: int, until: int) returns (up: nat)
    ensures up == Spans(ts, |ts|, from, until)
  {
    up := 0;
    var i := 0;
    while i < |ts|
      invariant 0 <= i <= |ts|
      invariant up == Spans(ts, i, from, until)
    {
      var end := if i + 1 < |ts| then ts[i + 1].at else until;
      var start := ts[i].at;
      if start < from {
        start := from;
      }
      if end > until {
        end := until;
      }
      var span := end - start;
      if span > 0 && IsUp(ts[i]) {
        up := up + span;
      }
      i := i + 1;
    }
  }

  method ComputeUptime(ts: seq<Transition>, from: int, until: int) returns (pct: real)
    ensures pct == Shown(ts, from, until)
    ensures until <= from ==> pct == 0.0
    ensures from < until && ts == [] ==> pct == 100.0
    ensures from < until && ts != [] ==> pct == Percent(Spans(ts, |ts|, from, until), until - from)
    ensures from < until && ts != [] && Sorted(ts) ==>
            pct == (10000 * UpInstants(ts, from, until) / (until - from)) as real / 100.0
    ensures Sorted(ts) ==> 0.0 <= pct <= 100.0
    ensures from < until && ts != [] && Sorted(ts) ==> (pct == 100.0 <==> AllUp(ts, from, until))
  {
    var total := until - from;
    if total <= 0 {
      return 0.0;
    }
    if |ts| == 0 {
      return 100.0;
    }
    var up := UpTime(ts, from, until);
    pct := Percent(up, total);
    if Sorted(ts) {
      UptimeIsPointwise(ts, from, until);
      PercentIs(up, total);
      UpInstantsBound(ts, from, until);
    }
  }
}
