/**
 * The end-of-support detector and its alerts (internal/eol/service.go), with the engine it
 * drives. Events reach the engine through a queue; removals and acknowledgements do not wait
 * for it; a restart loses it.
 */
module EndOfLife {
  import opened Collections
  import opened AlertEngine
  import opened DetectorEvents
  import Os = OsSupport

  const HOST := "host"
  const OS_EOL := "os_eol"
  const AGENT := "agent"

  datatype Agent = Agent(id: string, title: string, hostname: string, os: Os.Identity)

  function HostKey(h: string): (k: Key) {
    Key(HOST, OS_EOL, AGENT, h)
  }

  /** "" when the state calls for no alert. */
  function SeverityFor(s: Os.SupportState): (r: string) {
    match s
    case Ended => CRITICAL
    case EndingSoon => WARNING
    case _ => ""
  }

  /** An agent that never reported a system is too old to do so, the server's own entry aside. */
  function IdentityOf(a: Agent): (r: Os.Identity) {
    if a.os.source == "" && a.os.unavailableReason == "" && a.os.id == "" && a.id != LOCAL_AGENT
    then a.os.(unavailableReason := "agent_too_old") else a.os
  }

  function SeverityOf(a: Agent, table: Os.Table, now: int): (r: string) {
    SeverityFor(Os.Evaluate(IdentityOf(a), table, now))
  }

  function NameOf(a: Agent): (r: string) {
    if a.title != "" then a.title else if a.hostname != "" then a.hostname else a.id
  }

  function Fire(a: Agent, severity: string, now: int): (e: Event) {
    Event(HostKey(a.id), severity, false, "Host operating system support", NameOf(a), a.id, "{}", now)
  }

  function Recovery(a: Agent, now: int): (e: Event) {
    Fire(a, INFO, now).(isRecover := true)
  }

  function Gone(h: string, now: int): (e: Event) {
    Event(HostKey(h), INFO, true, "Host is no longer monitored", h, h, "{}", now)
  }

  // ---------------------------------------------------------------- one evaluation

  function Remembered(last: map<string, string>, h: string, severity: string): (r: map<string, string>) {
    if severity == "" then last - {h} else last[h := severity]
  }

  /** The engine raises a severity in place but ignores a falling one, so a fall is a recovery and a fresh alert. */
  function Evaluated(last: map<string, string>, a: Agent, severity: string, now: int): (events: seq<Event>) {
    if severity == "" then [Recovery(a, now)]
    else if a.id in last && last[a.id] == CRITICAL && severity == WARNING
      then [Recovery(a, now), Fire(a, severity, now)]
    else [Fire(a, severity, now)]
  }

  function Forgotten(last: map<string, string>, h: string, now: int): (events: seq<Event>) {
    if h in last then [Gone(h, now)] else []
  }

  // ---------------------------------------------------------------- one host through a list of events

  /** The severity of the host's active alert, none when it has none. */
  function Held(s: State, h: string): (r: Option<string>) {
    if HostKey(h) in s.active then Some(s.active[HostKey(h)].severity) else None
  }

  function Taken(held: Option<string>, h: string, e: Event): (r: Option<string>) {
    if e.key != HostKey(h) then held
    else if e.isRecover then None
    else if held.None? || Rank(held.value) < Rank(e.severity) then Some(e.severity)
    else held
  }

  function TakenAll(held: Option<string>, h: string, events: seq<Event>): (r: Option<string>) {
    if events == [] then held else Taken(TakenAll(held, h, events[..|events| - 1]), h, events[|events| - 1])
  }

  lemma {:induction false} TakenIsHeld(s: State, h: string, events: seq<Event>)
    ensures Held(HandleAll(s, events), h) == TakenAll(Held(s, h), h, events)
  {
    if events != [] {
      TakenIsHeld(s, h, events[..|events| - 1]);
    }
  }

  lemma {:induction false} TakenAppend(held: Option<string>, h: string, x: seq<Event>, y: seq<Event>)
    ensures TakenAll(held, h, x + y) == TakenAll(TakenAll(held, h, x), h, y)
    decreases |y|
  {
    if y == [] {
      assert x + y == x;
    } else {
      var n := |y| - 1;
      TakenAppend(held, h, x, y[..n]);
      assert (x + y)[..|x| + n] == x + y[..n] && (x + y)[|x| + n] == y[n];
    }
  }

  // ---------------------------------------------------------------- what must hold

  datatype World = World(engine: State, queue: seq<Event>, last: map<string, string>)

  /** The host's alert once the engine has taken what is queued. */
  function SettlesAt(w: World, h: string): (r: Option<string>) {
    TakenAll(Held(w.engine, h), h, w.queue)
  }

  predicate AlertSeverity(s: string) {
    s == WARNING || s == CRITICAL
  }

  /** No alert, or one at the remembered severity. */
  predicate Fits(held: Option<string>, last: map<string, string>, h: string) {
    held.Some? ==> h in last && last[h] == held.value
  }

  /** From here on, and from any later point at which the alert is removed from outside. */
  ghost predicate HostInv(w: World, h: string) {
    && Fits(SettlesAt(w, h), w.last, h)
    && (forall i :: 0 <= i <= |w.queue| ==> Fits(TakenAll(None, h, w.queue[i..]), w.last, h))
  }

  predicate Ours(k: Key) {
    k.source == HOST && k.alertType == OS_EOL
  }

  ghost predicate OnlyAgents(w: World) {
    && (forall k :: k in w.engine.active && Ours(k) ==>
         k.entityType == AGENT && AlertSeverity(w.engine.active[k].severity))
    && (forall i :: 0 <= i < |w.queue| && Ours(w.queue[i].key) ==>
          w.queue[i].key.entityType == AGENT && (w.queue[i].isRecover || AlertSeverity(w.queue[i].severity)))
  }

  ghost predicate Inv(w: World) {
    && MirrorsStore(w.engine) && OnlyAgents(w)
    && (forall h :: h in w.last ==> AlertSeverity(w.last[h]))
    && (forall h :: HostInv(w, h))
  }

  // ---------------------------------------------------------------- steps

  function Queued(w: World, events: seq<Event>, last: map<string, string>): (v: World) {
    w.(queue := w.queue + events, last := last)
  }

  function EvaluateStep(w: World, a: Agent, severity: string, now: int): (v: World) {
    Queued(w, Evaluated(w.last, a, severity, now), Remembered(w.last, a.id, severity))
  }

  function ForgetStep(w: World, h: string, now: int): (v: World) {
    Queued(w, Forgotten(w.last, h, now), w.last - {h})
  }

  /** The seeds a restart takes from the active alerts, in the order the store lists them. */
  function Seeded(store: map<nat, Alert>, listed: seq<nat>): (r: map<string, string>)
    requires forall i :: i in listed ==> i in store
  {
    if listed == [] then map[]
    else
      var a := store[listed[|listed| - 1]];
      var seeds := Seeded(store, listed[..|listed| - 1]);
      if Ours(a.key) then seeds[a.key.entityId := a.severity] else seeds
  }

  lemma SuffixOfAppend(queue: seq<Event>, events: seq<Event>, i: nat)
    requires i <= |queue| + |events|
    ensures (queue + events)[i..] == if i <= |queue| then queue[i..] + events else events[i - |queue|..]
  {
  }

  /** Events that settle the host whatever came before keep the invariant. */
  lemma EmittedHost(w: World, events: seq<Event>, last: map<string, string>, h: string)
    requires HostInv(w, h)
    requires forall held :: Fits(held, w.last, h) ==> Fits(TakenAll(held, h, events), last, h)
    requires forall j :: 0 <= j <= |events| ==> Fits(TakenAll(None, h, events[j..]), last, h)
    ensures HostInv(Queued(w, events, last), h)
  {
    var v := Queued(w, events, last);
    TakenAppend(Held(w.engine, h), h, w.queue, events);
    forall i | 0 <= i <= |v.queue|
      ensures Fits(TakenAll(None, h, v.queue[i..]), last, h)
    {
      SuffixOfAppend(w.queue, events, i);
      if i <= |w.queue| {
        TakenAppend(None, h, w.queue[i..], events);
      }
    }
  }

  lemma OneTaken(held: Option<string>, h: string, e: Event)
    ensures TakenAll(held, h, [e]) == Taken(held, h, e)
  {
    assert [e][..0] == [];
  }

  lemma TwoTaken(held: Option<string>, h: string, e: Event, f: Event)
    ensures TakenAll(held, h, [e, f]) == Taken(Taken(held, h, e), h, f)
  {
    assert [e, f][..1] == [e];
    OneTaken(held, h, e);
  }

  /** One evaluation settles its own host at exactly the severity it found. */
  lemma EvaluatedTakes(last: map<string, string>, a: Agent, severity: string, now: int, held: Option<string>)
    requires Fits(held, last, a.id) && (severity == "" || AlertSeverity(severity))
    requires a.id in last ==> AlertSeverity(last[a.id])
    ensures TakenAll(held, a.id, Evaluated(last, a, severity, now)) == if severity == "" then None else Some(severity)
  {
    var r, f := Recovery(a, now), Fire(a, severity, now);
    OneTaken(held, a.id, r);
    OneTaken(held, a.id, f);
    TwoTaken(held, a.id, r, f);
  }

  lemma {:induction false} OtherHostTakes(held: Option<string>, h: string, events: seq<Event>)
    requires forall i :: 0 <= i < |events| ==> events[i].key != HostKey(h)
    ensures TakenAll(held, h, events) == held
  {
    if events != [] {
      OtherHostTakes(held, h, events[..|events| - 1]);
    }
  }
}
