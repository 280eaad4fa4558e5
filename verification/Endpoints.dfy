/**
 * Endpoint checks: counters, thresholds and the alerts they drive (internal/endpoint/service.go,
 * internal/alert/endpoint_alerts.go and the event builders of internal/app/wiring.go).
 */
module Endpoints {
  import opened Collections
  import opened AlertEngine
  import opened DetectorEvents

  datatype Status = Unknown | Up | Degraded | Down
  datatype AlertState = Normal | Alerting

  datatype Result = Result(success: bool, degraded: bool, replayed: bool, at: int, error: string)
  datatype Config = Config(id: string, name: string, agentId: string, failureThreshold: int, recoveryThreshold: int)
  datatype Row = Row(status: Status, alertState: AlertState, failures: nat, successes: nat)

  datatype Crossing = Alerted | Recovered

  const FRESH := Row(Unknown, Normal, 0, 0)

  function StatusFor(r: Result): (s: Status) {
    if r.success && r.degraded then Degraded else if r.success then Up else Down
  }

  function Counted(row: Row, r: Result): (next: Row) {
    if r.success then row.(status := StatusFor(r), successes := row.successes + 1, failures := 0)
    else row.(status := StatusFor(r), failures := row.failures + 1, successes := 0)
  }

  /** The detector's answer on the updated counters. */
  function Evaluate(c: Config, row: Row, r: Result): (x: Option<Crossing>) {
    if !r.success && row.failures >= c.failureThreshold && row.alertState.Normal? then Some(Alerted)
    else if r.success && row.successes >= c.recoveryThreshold && row.alertState.Alerting? then Some(Recovered)
    else None
  }

  function Crossed(row: Row, x: Option<Crossing>): (next: Row) {
    if x.None? then row else row.(alertState := if x.value.Alerted? then Alerting else Normal)
  }

  function CrossingOf(c: Config, row: Row, r: Result): (x: Option<Crossing>) {
    if r.replayed then None else Evaluate(c, Counted(row, r), r)
  }

  function Recorded(c: Config, row: Row, r: Result): (next: Row) {
    if r.replayed then row else Crossed(Counted(row, r), CrossingOf(c, row, r))
  }

  /** A check result, or the container stopping, which only shows the status as unknown. */
  datatype Step = Checked(result: Result) | Stopped

  function After(c: Config, steps: seq<Step>): (row: Row) {
    if steps == [] then FRESH
    else
      var n := |steps| - 1;
      var row := After(c, steps[..n]);
      if steps[n].Checked? then Recorded(c, row, steps[n].result) else row.(status := Unknown)
  }

  /** The alerts and recoveries announced along the way. */
  function Crossings(c: Config, steps: seq<Step>): (xs: seq<Crossing>) {
    if steps == [] then []
    else
      var n := |steps| - 1;
      var x := if steps[n].Checked? then CrossingOf(c, After(c, steps[..n]), steps[n].result) else None;
      Crossings(c, steps[..n]) + if x.Some? then [x.value] else []
  }

  // ---------------------------------------------------------------- the reference

  /** The live results, replays and stops left out. */
  function Live(steps: seq<Step>): (r: seq<Result>) {
    if steps == [] then []
    else
      var n := |steps| - 1;
      Live(steps[..n]) + if steps[n].Checked? && !steps[n].result.replayed then [steps[n].result] else []
  }

  /** How many of the last results in a row ended this way. */
  function RunLength(live: seq<Result>, success: bool): (n: nat) {
    if live == [] || live[|live| - 1].success != success then 0 else RunLength(live[..|live| - 1], success) + 1
  }

  function AtLeastOne(threshold: int): (r: int) {
    if threshold < 1 then 1 else threshold
  }

  /** The run that ends with result `i` is long enough. */
  predicate Reaches(live: seq<Result>, i: nat, success: bool, threshold: int)
    requires i < |live|
  {
    RunLength(live[..i + 1], success) >= AtLeastOne(threshold)
  }

  /** The last failure run to reach its threshold is later than the last success run to reach its own. */
  ghost predicate FailingLast(c: Config, live: seq<Result>) {
    exists i :: 0 <= i < |live| && Reaches(live, i, false, c.failureThreshold)
                && forall j :: i < j < |live| ==> !Reaches(live, j, true, c.recoveryThreshold)
  }

  lemma ReachesPrefix(live: seq<Result>, r: Result, i: nat, success: bool, threshold: int)
    requires i < |live|
    ensures Reaches(live + [r], i, success, threshold) == Reaches(live, i, success, threshold)
  {
    assert (live + [r])[..i + 1] == live[..i + 1];
  }

  lemma FailingLastSnoc(c: Config, live: seq<Result>, r: Result)
    ensures var more, n := live + [r], |live|;
            FailingLast(c, more) <==>
              Reaches(more, n, false, c.failureThreshold)
              || (FailingLast(c, live) && !Reaches(more, n, true, c.recoveryThreshold))
  {
    var more, n := live + [r], |live|;
    forall i, b, t | 0 <= i < n
      ensures Reaches(more, i, b, t) == Reaches(live, i, b, t)
    {
      ReachesPrefix(live, r, i, b, t);
    }
    if i :| 0 <= i < n && Reaches(live, i, false, c.failureThreshold)
            && forall j :: i < j < n ==> !Reaches(live, j, true, c.recoveryThreshold) {
      if !Reaches(more, n, true, c.recoveryThreshold) {
        assert Reaches(more, i, false, c.failureThreshold);
      }
    }
    if i :| 0 <= i < |more| && Reaches(more, i, false, c.failureThreshold)
            && forall j :: i < j < |more| ==> !Reaches(more, j, true, c.recoveryThreshold) {
      if i < n {
        assert Reaches(live, i, false, c.failureThreshold);
      }
    }
  }

  ghost predicate RowTellsHistory(c: Config, row: Row, live: seq<Result>) {
    && row.failures == RunLength(live, false) && row.successes == RunLength(live, true)
    && (row.alertState.Alerting? <==> FailingLast(c, live))
  }

  lemma RecordedTellsHistory(c: Config, row: Row, live: seq<Result>, r: Result)
    requires RowTellsHistory(c, row, live) && !r.replayed
    ensures RowTellsHistory(c, Recorded(c, row, r), live + [r])
  {
    var more := live + [r];
    assert more[..|live|] == live && more[..|live| + 1] == more;
    FailingLastSnoc(c, live, r);
  }

  /** The counters are the lengths of the current runs, and the state follows the two thresholds with hysteresis. */
  lemma {:induction false} CountersAndState(c: Config, steps: seq<Step>)
    ensures RowTellsHistory(c, After(c, steps), Live(steps))
  {
    if steps != [] {
      var n := |steps| - 1;
      CountersAndState(c, steps[..n]);
      if steps[n].Checked? && !steps[n].result.replayed {
        RecordedTellsHistory(c, After(c, steps[..n]), Live(steps[..n]), steps[n].result);
      } else {
        assert Live(steps) == Live(steps[..n]);
      }
    }
  }

  /** Alert, recovery, alert, ...; the endpoint is alerting exactly when the last one was an alert. */
  ghost predicate Alternates(xs: seq<Crossing>, alerting: bool) {
    && (forall i :: 0 <= i < |xs| ==> xs[i] == if i % 2 == 0 then Alerted else Recovered)
    && (alerting <==> |xs| % 2 == 1)
  }

  lemma {:induction false} AlertsAndRecoveriesAlternate(c: Config, steps: seq<Step>)
    ensures Alternates(Crossings(c, steps), After(c, steps).alertState.Alerting?)
  {
    if steps != [] {
      AlertsAndRecoveriesAlternate(c, steps[..|steps| - 1]);
    }
  }

  /** Replayed results, wherever they fall, change neither the row nor what is announced. */
  lemma {:induction false} ReplaysChangeNothing(c: Config, before: seq<Step>, r: Result, after: seq<Step>)
    requires r.replayed
    ensures After(c, before + [Checked(r)] + after) == After(c, before + after)
    ensures Crossings(c, before + [Checked(r)] + after) == Crossings(c, before + after)
    decreases |after|
  {
    var with, without := before + [Checked(r)] + after, before + after;
    if after == [] {
      assert with[..|before|] == before && without == before;
    } else {
      var n := |after| - 1;
      ReplaysChangeNothing(c, before, r, after[..n]);
      assert with[..|with| - 1] == before + [Checked(r)] + after[..n];
      assert without[..|without| - 1] == before + after[..n];
      assert with[|with| - 1] == without[|without| - 1] == after[n];
    }
  }

  // ---------------------------------------------------------------- the engine's view

  const SOURCE := "endpoint"
  const ENTITY := "endpoint"

  function FailureKey(c: Config): (k: Key) {
    Key(SOURCE, "consecutive_failure", ENTITY, c.id)
  }

  function TrustKey(c: Config): (k: Key) {
    Key(SOURCE, "certificate_untrusted", ENTITY, c.id)
  }

  /** A degraded result raises the trust alert, a clean success clears it, a failure says nothing. */
  function TrustEvents(c: Config, r: Result): (e: seq<Event>) {
    if r.degraded then
      [Event(TrustKey(c), WARNING, false, "Endpoint is reachable but its certificate is not trusted", c.name, c.agentId,
        "{}", r.at)]
    else if r.success then
      [Event(TrustKey(c), INFO, true, "Endpoint now presents a trusted certificate", c.name, c.agentId, "{}", r.at)]
    else []
  }

  function ThresholdEvents(c: Config, x: Option<Crossing>, at: int): (e: seq<Event>) {
    if x.None? then []
    else if x.value.Alerted? then
      [Event(FailureKey(c), CRITICAL, false, "Endpoint failed consecutive checks", c.name, c.agentId, "{}", at)]
    else
      [Event(FailureKey(c), INFO, true, "Endpoint recovered after consecutive successes", c.name, c.agentId, "{}", at)]
  }

  function StepEvents(c: Config, row: Row, step: Step): (e: seq<Event>) {
    if step.Checked? && !step.result.replayed
    then TrustEvents(c, step.result) + ThresholdEvents(c, CrossingOf(c, row, step.result), step.result.at)
    else []
  }

  /** Of the results that say anything about trust, the last one is degraded. */
  predicate Untrusted(live: seq<Result>) {
    if live == [] then false
    else
      var last := live[|live| - 1];
      last.degraded || (!last.success && Untrusted(live[..|live| - 1]))
  }

  lemma OneWord(e: seq<Event>, k: Key)
    requires |e| <= 1
    ensures LastWord(e, k) == if |e| == 1 && e[0].key == k then Some(!e[0].isRecover) else None
  {
    if |e| == 1 {
      assert e[..0] == [];
    }
  }

  /** What a live result says of each key is what the endpoint then remembers. */
  lemma StepSpeaks(c: Config, row: Row, step: Step, live: seq<Result>)
    requires step.Checked? && !step.result.replayed
    ensures var e, r := StepEvents(c, row, step), step.result;
            && Speaks(e, FailureKey(c), row.alertState.Alerting?, Recorded(c, row, r).alertState.Alerting?)
            && Speaks(e, TrustKey(c), Untrusted(live), Untrusted(live + [r]))
  {
    var r := step.result;
    var trust, threshold := TrustEvents(c, r), ThresholdEvents(c, CrossingOf(c, row, r), r.at);
    assert (live + [r])[..|live|] == live;
    LastWordAppend(trust, threshold, FailureKey(c));
    LastWordAppend(trust, threshold, TrustKey(c));
    OneWord(trust, FailureKey(c));
    OneWord(trust, TrustKey(c));
    OneWord(threshold, FailureKey(c));
    OneWord(threshold, TrustKey(c));
  }

  // ---------------------------------------------------------------- runs with a queue and restarts

  /**
   * The endpoint's steps so far and the engine behind its queue. The two flags are history:
   * a restart lost the last word on the alert, and nothing was said of it since.
   */
  datatype World = World(steps: seq<Step>, channel: Channel, failureLost: bool, trustLost: bool)

  datatype Action = Stepped(step: Step) | Deliver | Elsewhere(evt: Event) | Reboot(listed: seq<nat>)

  predicate OfEndpoint(c: Config, k: Key) {
    k == FailureKey(c) || k == TrustKey(c)
  }

  ghost predicate Can(c: Config, w: World, a: Action) {
    match a
    case Stepped(_) => true
    case Deliver => w.channel.queue != []
    case Elsewhere(evt) => !OfEndpoint(c, evt.key)
    case Reboot(listed) => ListsActive(w.channel.engine.store, listed)
  }

  ghost function Next(c: Config, w: World, a: Action): (v: World)
    requires Can(c, w, a)
  {
    match a
    case Stepped(step) =>
      var e := StepEvents(c, After(c, w.steps), step);
      World(w.steps + [step], Emitted(w.channel, e), w.failureLost && LastWord(e, FailureKey(c)).None?,
            w.trustLost && LastWord(e, TrustKey(c)).None?)
    case Deliver => w.(channel := Delivered(w.channel))
    case Elsewhere(evt) => w.(channel := Emitted(w.channel, [evt]))
    case Reboot(listed) =>
      w.(channel := Rebooted(w.channel, listed), failureLost := w.failureLost || LosesWord(w.channel, FailureKey(c)),
         trustLost := w.trustLost || LosesWord(w.channel, TrustKey(c)))
  }

  ghost predicate Runs(c: Config, w: World, actions: seq<Action>, v: World)
    decreases |actions|
  {
    if actions == [] then v == w else Can(c, w, actions[0]) && Runs(c, Next(c, w, actions[0]), actions[1..], v)
  }

  ghost predicate Inv(c: Config, w: World) {
    && MirrorsStore(w.channel.engine)
    && Tracks(w.channel, FailureKey(c), After(c, w.steps).alertState.Alerting?, w.failureLost)
    && Tracks(w.channel, TrustKey(c), Untrusted(Live(w.steps)), w.trustLost)
  }

  lemma SteppedKeeps(c: Config, w: World, step: Step)
    requires Inv(c, w)
    ensures Inv(c, Next(c, w, Stepped(step)))
  {
    var row, live, e := After(c, w.steps), Live(w.steps), StepEvents(c, After(c, w.steps), step);
    var v := Next(c, w, Stepped(step));
    assert v.steps[..|w.steps|] == w.steps;
    if step.Checked? && !step.result.replayed {
      StepSpeaks(c, row, step, live);
    } else {
      assert live + [] == live;
    }
    EmittedTracks(w.channel, FailureKey(c), row.alertState.Alerting?, w.failureLost, e,
      After(c, v.steps).alertState.Alerting?);
    EmittedTracks(w.channel, TrustKey(c), Untrusted(live), w.trustLost, e, Untrusted(Live(v.steps)));
  }

  lemma StepKeeps(c: Config, w: World, a: Action)
    requires Inv(c, w) && Can(c, w, a)
    ensures Inv(c, Next(c, w, a))
  {
    var failing, untrusted := After(c, w.steps).alertState.Alerting?, Untrusted(Live(w.steps));
    match a {
      case Stepped(step) => SteppedKeeps(c, w, step);
      case Deliver =>
        DeliveredMirrors(w.channel);
        DeliveredTracks(w.channel, FailureKey(c), failing, w.failureLost);
        DeliveredTracks(w.channel, TrustKey(c), untrusted, w.trustLost);
      case Elsewhere(evt) =>
        OneWord([evt], FailureKey(c));
        OneWord([evt], TrustKey(c));
        EmittedTracks(w.channel, FailureKey(c), failing, w.failureLost, [evt], failing);
        EmittedTracks(w.channel, TrustKey(c), untrusted, w.trustLost, [evt], untrusted);
      case Reboot(listed) =>
        SettledRebooted(w.channel, listed, FailureKey(c));
        RebootedTracks(w.channel, FailureKey(c), failing, w.failureLost, listed);
        RebootedTracks(w.channel, TrustKey(c), untrusted, w.trustLost, listed);
    }
  }

  lemma {:induction false} EveryRunKeeps(c: Config, w: World, actions: seq<Action>, v: World)
    requires Inv(c, w) && Runs(c, w, actions, v)
    ensures Inv(c, v)
    decreases |actions|
  {
    if actions != [] {
      StepKeeps(c, w, actions[0]);
      EveryRunKeeps(c, Next(c, w, actions[0]), actions[1..], v);
    }
  }

  /** A new endpoint on an engine that knows nothing of it. */
  ghost predicate New(c: Config, w: World) {
    && w.steps == [] && !w.failureLost && !w.trustLost && MirrorsStore(w.channel.engine)
    && !Settled(w.channel, FailureKey(c)) && !Settled(w.channel, TrustKey(c))
  }

  /** The action says a word on the key's alert. */
  ghost predicate SaysWord(c: Config, w: World, a: Action, k: Key) {
    a.Stepped? && LastWord(StepEvents(c, After(c, w.steps), a.step), k).Some?
  }

  ghost predicate StaysSilent(c: Config, w: World, actions: seq<Action>, k: Key)
    decreases |actions|
  {
    actions == [] || (Can(c, w, actions[0]) && !SaysWord(c, w, actions[0], k)
                      && StaysSilent(c, Next(c, w, actions[0]), actions[1..], k))
  }

  /** Some restart of the run loses the last word on the key's alert, and nothing after it says another. */
  ghost predicate ForgetsWord(c: Config, w: World, actions: seq<Action>, k: Key)
    decreases |actions|
  {
    && actions != [] && Can(c, w, actions[0])
    && var v := Next(c, w, actions[0]);
       (actions[0].Reboot? && LosesWord(w.channel, k) && StaysSilent(c, v, actions[1..], k))
       || ForgetsWord(c, v, actions[1..], k)
  }

  lemma {:induction false} FailureLostIff(c: Config, w: World, actions: seq<Action>, v: World)
    requires Runs(c, w, actions, v)
    ensures v.failureLost <==> ForgetsWord(c, w, actions, FailureKey(c))
                               || (w.failureLost && StaysSilent(c, w, actions, FailureKey(c)))
    decreases |actions|
  {
    if actions != [] {
      FailureLostIff(c, Next(c, w, actions[0]), actions[1..], v);
    }
  }

  lemma {:induction false} TrustLostIff(c: Config, w: World, actions: seq<Action>, v: World)
    requires Runs(c, w, actions, v)
    ensures v.trustLost <==> ForgetsWord(c, w, actions, TrustKey(c))
                             || (w.trustLost && StaysSilent(c, w, actions, TrustKey(c)))
    decreases |actions|
  {
    if actions != [] {
      TrustLostIff(c, Next(c, w, actions[0]), actions[1..], v);
    }
  }

  /**
   * After any run of results, deliveries, other events and restarts: consecutive_failure settles
   * at what the thresholds say if and only if no restart lost the last word on it with no
   * crossing since; certificate_untrusted at what the last telling result said if and only if
   * no restart lost that with no telling result since.
   */
  lemma EngineAgreesWithEndpointIff(c: Config, w: World, actions: seq<Action>, v: World)
    requires New(c, w) && Runs(c, w, actions, v)
    ensures Settled(v.channel, FailureKey(c)) == FailingLast(c, Live(v.steps)) <==>
              !ForgetsWord(c, w, actions, FailureKey(c))
    ensures Settled(v.channel, TrustKey(c)) == Untrusted(Live(v.steps)) <==> !ForgetsWord(c, w, actions, TrustKey(c))
    ensures v.channel.queue == [] ==> forall k :: Settled(v.channel, k) <==> k in v.channel.engine.active
  {
    EveryRunKeeps(c, w, actions, v);
    FailureLostIff(c, w, actions, v);
    TrustLostIff(c, w, actions, v);
    CountersAndState(c, v.steps);
  }

  const DOWN := Result(false, false, false, 1, "refused")

  /** The alert of the first failure is queued when the process stops: the endpoint alerts, and nothing is active. */
  lemma RestartLosesAlert(c: Config)
    requires c.failureThreshold <= 1
    ensures var w1 := Next(c, World([], Channel(EMPTY_STATE, []), false, false), Stepped(Checked(DOWN)));
            Can(c, w1, Reboot([])) && var w2 := Next(c, w1, Reboot([]));
            && After(c, w2.steps).alertState.Alerting? && w2.failureLost
            && w2.channel.queue == [] && FailureKey(c) !in w2.channel.engine.active
  {
    var w0 := World([], Channel(EMPTY_STATE, []), false, false);
    assert New(c, w0);
    var a1, a2 := Stepped(Checked(DOWN)), Reboot([]);
    var w1 := Next(c, w0, a1);
    assert w1.steps[..0] == [];
    assert After(c, w1.steps).alertState.Alerting?;
    var e := StepEvents(c, FRESH, Checked(DOWN));
    assert [] + e == e && e == ThresholdEvents(c, Some(Alerted), 1);
    OneWord(e, FailureKey(c));
    assert LosesWord(w1.channel, FailureKey(c));
  }

  // ---------------------------------------------------------------- in place

  class Endpoint {
    const config: Config
    var status: Status
    var alertState: AlertState
    var failures: nat
    var successes: nat

    ghost function View(): (row: Row)
      reads this
    {
      Row(status, alertState, failures, successes)
    }

    constructor (c: Config)
      ensures config == c && View() == FRESH
    {
      config := c;
      status, alertState, failures, successes := Unknown, Normal, 0, 0;
    }

    method ProcessCheckResult(r: Result) returns (x: Option<Crossing>)
      modifies this
      ensures View() == Recorded(config, old(View()), r)
      ensures x == CrossingOf(config, old(View()), r)
    {
      x := None;
      if r.replayed {
        return;
      }
      status := StatusFor(r);
      if r.success {
        successes := successes + 1;
        failures := 0;
      } else {
        failures := failures + 1;
        successes := 0;
      }
      x := EvaluateCheckResult(r);
      if x.Some? {
        match x.value {
          case Alerted => alertState := Alerting;
          case Recovered => alertState := Normal;
        }
      }
    }

    method EvaluateCheckResult(r: Result) returns (x: Option<Crossing>)
      ensures x == Evaluate(config, View(), r)
    {
      x := None;
      if !r.success {
        if failures >= config.failureThreshold && alertState == Normal {
          x := Some(Alerted);
        }
      } else if successes >= config.recoveryThreshold && alertState == Alerting {
        x := Some(Recovered);
      }
    }

    method HandleContainerStop()
      modifies `status
      ensures View() == old(View()).(status := Unknown)
    {
      status := Unknown;
    }
  }
}
