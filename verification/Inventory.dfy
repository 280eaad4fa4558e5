/**
 * Containers reported by remote agents: single reports and whole inventories
 * (internal/container/agent_event.go).
 */
module Inventory {
  import opened Collections
  import opened Timeline

  const MAX_CONTAINERS := 10_000
  const MAX_LABELS := 256

  datatype Reported = ReportedRunning | ReportedExited | ReportedPaused | ReportedRestarting
                      | ReportedDead | ReportedCreated | Unspecified

  /**
   * One container of an agent's report. `exit` is the exit code its status message carries;
   * the two lists are what the store would show of the timeline if the report is a replay.
   */
  datatype Report = Report(id: string, state: Reported, exit: Option<int>, oomKilled: bool, health: string, labels: nat,
                           ignore: bool, destroyed: bool, at: int, healthListed: seq<Transition>,
                           stateListed: seq<Transition>)

  datatype Meta = Meta(replayed: bool, event: string)

  datatype Id = Id(agent: string, external: string)

  datatype Result = Ok | TooManyContainers | TooManyLabels

  // ---------------------------------------------------------------- one report

  function PlainState(s: Reported): (r: CState) {
    match s
    case ReportedExited => Exited
    case ReportedPaused => Paused
    case ReportedRestarting => Restarting
    case ReportedDead => Dead
    case ReportedCreated => Created
    case _ => Running
  }

  function InitialState(r: Report): (s: CState) {
    if r.state == ReportedExited && r.exit.Some? && IsCleanExit(r.exit.value, r.oomKilled) then Completed
    else PlainState(r.state)
  }

  /** The runtime's word for the reported state; an exit without a code is a stop. */
  function ActionOf(r: Report): (a: string) {
    match r.state
    case ReportedRunning => "start"
    case ReportedExited => if r.exit.None? then "stop" else "die"
    case ReportedPaused => "pause"
    case ReportedRestarting => "restart"
    case ReportedDead => "die"
    case ReportedCreated => "create"
    case Unspecified => ""
  }

  function EventOf(r: Report, action: string, meta: Meta): (e: Event) {
    Event(action, r.exit, r.oomKilled, r.health, r.at, meta.replayed, meta.event)
  }

  function HealthOf(r: Report): (h: Option<string>) {
    if r.health == "" then None else Some(r.health)
  }

  /** A container first heard of; a replayed one is no longer there and is kept as history. */
  function First(e: Entry, r: Report, replayed: bool): (n: Entry) {
    Entry(Some(Container(InitialState(r), HealthOf(r), r.at, r.ignore, replayed)),
          if InitialState(r) == Created then e.rows
          else e.rows + [Transition(Generated(StateRow), Created, InitialState(r), None, None, r.at)])
  }

  function Refreshed(e: Entry, r: Report): (n: Entry)
    requires e.c.Some?
  {
    e.(c := Some(e.c.value.(ignored := if r.labels > 0 then r.ignore else e.c.value.ignored, archived := false)))
  }

  function HealthTaken(e: Entry, r: Report, meta: Meta): (n: Entry)
    requires e.c.Some?
  {
    if r.health != "" && (meta.replayed || e.c.value.health != Some(r.health))
    then Processed(e, EventOf(r, "health_status", meta), r.healthListed) else e
  }

  function Handled(e: Entry, r: Report, meta: Meta): (n: Entry) {
    if r.destroyed then Processed(e, EventOf(r, "destroy", meta), [])
    else if e.c.None? then First(e, r, meta.replayed)
    else Processed(HealthTaken(if meta.replayed then e else Refreshed(e, r), r, meta), EventOf(r, ActionOf(r), meta),
      r.stateListed)
  }

  /** The states in which a report means the same for a container that is known as for one that is new. */
  predicate ReadsAlike(state: CState, r: Report) {
    match r.state
    case ReportedRunning => true
    case ReportedPaused => true
    case ReportedExited => r.exit.None? ==> state != Completed
    case ReportedDead => false
    case _ => state == InitialState(r)
  }

  /**
   * A live report leaves a known container in the state it would give a new one, except that a
   * stop keeps a completed container completed, a dead one is taken for an exit, and a
   * restarting or created one changes nothing.
   */
  lemma KnownReadsAsNewIff(e: Entry, r: Report, meta: Meta)
    requires e.c.Some? && !meta.replayed && !r.destroyed && !Refreshed(e, r).c.value.ignored
    ensures Handled(e, r, meta).c.Some?
    ensures Handled(e, r, meta).c.value.state == First(UNSEEN, r, false).c.value.state <==>
            ReadsAlike(e.c.value.state, r)
  {
    var e2 := HealthTaken(Refreshed(e, r), r, meta);
    assert e2.c.Some? && e2.c.value.state == e.c.value.state && !e2.c.value.ignored;
  }

  /** All the reports of one container, in order. */
  function HandledAll(e: Entry, reports: seq<Report>, id: string, meta: Meta): (n: Entry) {
    if reports == [] then e
    else
      var r, before := reports[|reports| - 1], HandledAll(e, reports[..|reports| - 1], id, meta);
      if r.id == id && id != "" then Handled(before, r, meta) else before
  }

  // ---------------------------------------------------------------- an agent container's timeline

  predicate ReportsHealth(e: Entry, r: Report) {
    e.c.Some? && r.health != "" && e.c.value.health != Some(r.health)
  }

  /** What keeps the path whole: of a known container, the report's health and state are each sound where they are
      taken. */
  predicate SoundReport(e: Entry, r: Report, meta: Meta) {
    r.destroyed || e.c.None? ||
    var e1 := Refreshed(e, r);
    && (ReportsHealth(e1, r) ==> Sound(e1, Live(EventOf(r, "health_status", meta))))
    && Sound(HealthTaken(e1, r, meta), Live(EventOf(r, ActionOf(r), meta)))
  }

  /** The path does not lead into row `i`. */
  predicate BrokenAt(e: Entry, i: nat) {
    && i < |e.rows| && e.c.Some? && e.rows[i].before == e.c.value.state
    && if i == 0 then e.c.value.state != Created else e.rows[i - 1].after != e.c.value.state
  }

  lemma BrokenIsBroken(e: Entry, i: nat)
    requires BrokenAt(e, i)
    ensures !Unbroken(e)
  {
    if i > 0 {
      var j := i - 1;
      assert e.rows[j].after != e.rows[j + 1].before;
    }
  }

  /** A health report that rewrote its row in another state is not mended by the state it comes with. */
  lemma HealthBreaks(e: Entry, evt: Event, next: Event)
    requires Unbroken(e) && WellKept(e.rows) && e.c.Some? && !evt.replayed && evt.action == "health_status"
    requires !Sound(e, Live(evt)) && !next.replayed && next.action != "health_status" && next.action != "destroy"
    requires next.event == evt.event
    ensures !Unbroken(Processed(Processed(e, evt, []), next, []))
  {
    var i, c := Find(e.rows, IdOf(evt, HealthRow)), e.c.value;
    var mid := Processed(e, evt, []);
    assert e.rows[i].before == e.rows[i].after;
    if i > 0 {
      var j := i - 1;
      assert e.rows[j].after == e.rows[j + 1].before;
    }
    assert BrokenAt(mid, i);
    var last := Processed(mid, next, []);
    BrokenIsBroken(mid, i);
    if last.rows != mid.rows || last.c != mid.c {
      var target := Target(next, c.state).value;
      var k := Find(mid.rows, IdOf(next, StateRow));
      assert k != i;
      assert last.rows[i] == mid.rows[i] && last.rows[i].before != target;
      StillBroken(mid, last, i, k, target);
    }
  }

  lemma StillBroken(mid: Entry, last: Entry, i: nat, k: nat, target: CState)
    requires BrokenAt(mid, i) && target != mid.c.value.state && k != i && |mid.rows| <= |last.rows|
    requires last.rows[i] == mid.rows[i]
    requires i > 0 ==> last.rows[i - 1] == mid.rows[i - 1] || last.rows[i - 1].after == target
    ensures !Unbroken(last)
  {
    if i > 0 {
      var j := i - 1;
      assert last.rows[j].after != last.rows[j + 1].before;
    }
  }

  /** One live report keeps an agent container's timeline an unbroken path if and only if it is sound. */
  lemma ReportUnbrokenIff(e: Entry, r: Report, meta: Meta)
    requires Unbroken(e) && WellKept(e.rows) && !meta.replayed
    ensures Unbroken(Handled(e, r, meta)) <==> SoundReport(e, r, meta)
    ensures WellKept(Handled(e, r, meta).rows)
  {
    if !r.destroyed && e.c.Some? {
      KnownUnbrokenIff(Refreshed(e, r), r, meta);
    } else if !r.destroyed && InitialState(r) != Created {
      AppendKept(e.rows, Transition(Generated(StateRow), Created, InitialState(r), None, None, r.at));
    }
  }

  lemma KnownUnbrokenIff(e: Entry, r: Report, meta: Meta)
    requires e.c.Some? && Unbroken(e) && WellKept(e.rows) && !meta.replayed
    ensures var mid, state := HealthTaken(e, r, meta), EventOf(r, ActionOf(r), meta);
            && (Unbroken(Processed(mid, state, r.stateListed)) <==>
                (ReportsHealth(e, r) ==> Sound(e, Live(EventOf(r, "health_status", meta)))) && Sound(mid, Live(state)))
            && WellKept(Processed(mid, state, r.stateListed).rows)
  {
    var health, state := EventOf(r, "health_status", meta), EventOf(r, ActionOf(r), meta);
    var mid := HealthTaken(e, r, meta);
    ListIgnored(e, health, r.healthListed);
    ListIgnored(mid, state, r.stateListed);
    if ReportsHealth(e, r) {
      StepUnbrokenIff(e, Live(health));
    }
    if ReportsHealth(e, r) && !Sound(e, Live(health)) {
      HealthBreaks(e, health, state);
      WellKeptAfter(mid, state);
    } else {
      StepUnbrokenIff(mid, Live(state));
    }
  }

  /** A live event does not look at what the store lists. */
  lemma ListIgnored(e: Entry, evt: Event, listed: seq<Transition>)
    requires !evt.replayed
    ensures Processed(e, evt, listed) == Processed(e, evt, [])
  {
  }

  lemma WellKeptAfter(e: Entry, evt: Event)
    requires WellKept(e.rows) && !evt.replayed && evt.action != "health_status"
    ensures WellKept(Processed(e, evt, []).rows)
  {
    if e.c.Some? && !e.c.value.ignored && evt.action != "destroy" {
      var c, target := e.c.value, Target(evt, e.c.value.state);
      if target.Some? && target.value != c.state {
        var t := Transition(IdOf(evt, StateRow), c.state, target.value, None, None, evt.at);
        if Find(e.rows, t.id) < |e.rows| {
          ReplaceKept(e.rows, t);
        } else {
          AppendKept(e.rows, t);
        }
      }
    }
  }

  ghost predicate ReportRun(e: Entry, reports: seq<Report>, metas: seq<Meta>, n: Entry)
    requires |metas| == |reports|
    decreases |reports|
  {
    if reports == [] then n == e
    else
      && !metas[0].replayed && SoundReport(e, reports[0], metas[0])
      && ReportRun(Handled(e, reports[0], metas[0]), reports[1..], metas[1..], n)
  }

  lemma {:induction false} ReportRunKeeps(e: Entry, reports: seq<Report>, metas: seq<Meta>, n: Entry)
    requires |metas| == |reports| && Unbroken(e) && WellKept(e.rows) && ReportRun(e, reports, metas, n)
    ensures Unbroken(n) && WellKept(n.rows)
    decreases |reports|
  {
    if reports != [] {
      ReportUnbrokenIff(e, reports[0], metas[0]);
      ReportRunKeeps(Handled(e, reports[0], metas[0]), reports[1..], metas[1..], n);
    }
  }

  /** From the first report of a container, any run of sound live reports keeps its path whole, gone and back again
      included. */
  lemma AgentTimelineIsUnbroken(reports: seq<Report>, metas: seq<Meta>, n: Entry)
    requires |metas| == |reports| && ReportRun(UNSEEN, reports, metas, n)
    ensures Unbroken(n)
  {
    ReportRunKeeps(UNSEEN, reports, metas, n);
  }

  // ---------------------------------------------------------------- who is there

  /** Known and not archived. */
  predicate Present(e: Entry) {
    IsStored(e)
  }

  lemma ProcessedPresence(e: Entry, evt: Event, listed: seq<Transition>)
    ensures Processed(e, evt, listed).c.Some? <==> e.c.Some?
    ensures Present(Processed(e, evt, listed)) <==> Present(e) && evt.action != "destroy"
  {
  }

  lemma HandledPresence(e: Entry, r: Report, meta: Meta)
    ensures Present(Handled(e, r, meta)) <==> if meta.replayed then Present(e) && !r.destroyed else !r.destroyed
  {
    if r.destroyed {
      ProcessedPresence(e, EventOf(r, "destroy", meta), []);
    } else if e.c.Some? {
      var e1 := if meta.replayed then e else Refreshed(e, r);
      ProcessedPresence(e1, EventOf(r, "health_status", meta), r.healthListed);
      ProcessedPresence(HealthTaken(e1, r, meta), EventOf(r, ActionOf(r), meta), r.stateListed);
    }
  }

  predicate Reports(reports: seq<Report>, id: string) {
    id != "" && exists i :: 0 <= i < |reports| && reports[i].id == id
  }

  /** The last word on a container says it is gone. */
  predicate DestroyedLast(reports: seq<Report>, id: string) {
    if reports == [] then false
    else
      var r := reports[|reports| - 1];
      if r.id == id then r.destroyed else DestroyedLast(reports[..|reports| - 1], id)
  }

  predicate EverDestroyed(reports: seq<Report>, id: string) {
    exists i :: 0 <= i < |reports| && reports[i].id == id && reports[i].destroyed
  }

  lemma ReportsSplit(reports: seq<Report>, id: string)
    requires reports != []
    ensures var n := |reports| - 1;
            && (Reports(reports, id) <==> Reports(reports[..n], id) || (id != "" && reports[n].id == id))
            && (EverDestroyed(reports, id) <==>
                 EverDestroyed(reports[..n], id) || (reports[n].id == id && reports[n].destroyed))
  {
    var n, less := |reports| - 1, reports[..|reports| - 1];
    if i :| 0 <= i < |less| && less[i].id == id {
      assert reports[i] == less[i];
    }
    if i :| 0 <= i < |less| && less[i].id == id && less[i].destroyed {
      assert reports[i] == less[i];
    }
    if i :| 0 <= i < |reports| && reports[i].id == id {
      assert i < n ==> less[i] == reports[i];
    }
    if i :| 0 <= i < |reports| && reports[i].id == id && reports[i].destroyed {
      assert i < n ==> less[i] == reports[i];
    }
  }

  /** After the reports, a live one: there unless its last report says gone; a replayed one: there only if it was and
      none says gone. */
  lemma {:induction false} HandledAllPresence(e: Entry, reports: seq<Report>, id: string, meta: Meta)
    requires id != ""
    ensures Present(HandledAll(e, reports, id, meta)) <==>
              if meta.replayed then Present(e) && !EverDestroyed(reports, id)
              else if Reports(reports, id) then !DestroyedLast(reports, id) else Present(e)
  {
    if reports != [] {
      var n := |reports| - 1;
      HandledAllPresence(e, reports[..n], id, meta);
      ReportsSplit(reports, id);
      HandledPresence(HandledAll(e, reports[..n], id, meta), reports[n], meta);
    }
  }

  // ---------------------------------------------------------------- an inventory

  function Gone(e: Entry): (n: Entry) {
    if e.c.Some? then e.(c := Some(e.c.value.(archived := true))) else e
  }

  /** What an inventory leaves of one of the agent's containers. */
  function Counted(e: Entry, reports: seq<Report>, id: string, meta: Meta): (n: Entry) {
    var after := HandledAll(e, reports, id, meta);
    if Present(after) && !Reports(reports, id) then Gone(after) else after
  }

  /**
   * After an inventory the agent's containers are exactly the reported ones, those reported
   * gone aside; a replayed inventory brings none back.
   */
  lemma InventoryIsWhatIsPresent(e: Entry, reports: seq<Report>, id: string, meta: Meta)
    requires id != ""
    ensures !meta.replayed ==>
              (Present(Counted(e, reports, id, meta)) <==> Reports(reports, id) && !DestroyedLast(reports, id))
    ensures meta.replayed ==>
              (Present(Counted(e, reports, id, meta)) <==>
                Reports(reports, id) && Present(e) && !EverDestroyed(reports, id))
  {
    HandledAllPresence(e, reports, id, meta);
  }

  lemma {:induction false} NoneDestroyed(reports: seq<Report>, id: string)
    requires forall i :: 0 <= i < |reports| ==> !reports[i].destroyed
    ensures !DestroyedLast(reports, id) && !EverDestroyed(reports, id)
  {
    if reports != [] {
      NoneDestroyed(reports[..|reports| - 1], id);
    }
  }

  /** With no entry marked destroyed: exactly the reported ids, and of a replayed inventory those that were there. */
  lemma PresentIsReported(e: Entry, reports: seq<Report>, id: string, meta: Meta)
    requires id != "" && forall i :: 0 <= i < |reports| ==> !reports[i].destroyed
    ensures Present(Counted(e, reports, id, meta)) <==> Reports(reports, id) && (meta.replayed ==> Present(e))
  {
    InventoryIsWhatIsPresent(e, reports, id, meta);
    NoneDestroyed(reports, id);
  }

  function Get(fleet: map<Id, Entry>, id: Id): (e: Entry) {
    if id in fleet then fleet[id] else UNSEEN
  }

  /** The checks that reject a whole inventory before anything is written. */
  function Checked(reports: seq<Report>): (r: Result) {
    if |reports| > MAX_CONTAINERS then TooManyContainers
    else if exists i :: 0 <= i < |reports| && reports[i].labels > MAX_LABELS then TooManyLabels
    else Ok
  }

  class AgentFleet {
    var fleet: map<Id, Entry>

    constructor ()
      ensures fleet == map[]
    {
      fleet := map[];
    }

    method HandleAgentEvent(agent: string, r: Report, meta: Meta) returns (result: Result)
      modifies this
      ensures result == if r.id != "" && r.labels > MAX_LABELS then TooManyLabels else Ok
      ensures forall id :: Get(fleet, id) == if id == Id(agent, r.id) && r.id != "" && result.Ok?
                                             then Handled(old(Get(fleet, id)), r, meta) else old(Get(fleet, id))
    {
      if r.id == "" {
        return Ok;
      }
      if r.labels > MAX_LABELS {
        return TooManyLabels;
      }
      result := Ok;
      var id := Id(agent, r.id);
      var e := Get(fleet, id);
      if r.destroyed {
        if e.c.Some? {
          fleet := fleet[id := Processed(e, EventOf(r, "destroy", meta), [])];
        }
        return;
      }
      if e.c.None? {
        fleet := fleet[id := First(e, r, meta.replayed)];
        return;
      }
      if !meta.replayed {
        e := Refreshed(e, r);
      }
      if r.health != "" && (meta.replayed || e.c.value.health != Some(r.health)) {
        e := Processed(e, EventOf(r, "health_status", meta), r.healthListed);
      }
      e := Processed(e, EventOf(r, ActionOf(r), meta), r.stateListed);
      fleet := fleet[id := e];
    }

    /** Every report in turn; the ids heard of. */
    method HandleReports(agent: string, reports: seq<Report>, meta: Meta) returns (live: set<string>)
      requires forall i :: 0 <= i < |reports| ==> reports[i].labels <= MAX_LABELS
      modifies this
      ensures forall id :: id in live <==> Reports(reports, id)
      ensures forall id ::
                Get(fleet, id) == if id.agent == agent then HandledAll(old(Get(fleet, id)), reports, id.external, meta)
                                  else old(Get(fleet, id))
    {
      live := {};
      for i := 0 to |reports|
        invariant forall id :: id in live <==> Reports(reports[..i], id)
        invariant forall id ::
                    Get(fleet, id) == if id.agent == agent
                                      then HandledAll(old(Get(fleet, id)), reports[..i], id.external, meta)
                                      else old(Get(fleet, id))
      {
        var r := reports[i];
        assert reports[..i + 1][..i] == reports[..i];
        forall id
          ensures Reports(reports[..i + 1], id) <==> Reports(reports[..i], id) || (id != "" && r.id == id)
        {
          ReportsSplit(reports[..i + 1], id);
        }
        if r.id != "" {
          live := live + {r.id};
          var _ := HandleAgentEvent(agent, r, meta);
        }
      }
      assert reports[..|reports|] == reports;
    }

    /** Archive what the agent still has on record and did not report. */
    method ArchiveMissing(agent: string, live: set<string>)
      modifies this
      ensures forall id ::
                Get(fleet, id) == if id.agent == agent && id.external !in live && Present(old(Get(fleet, id)))
                                  then Gone(old(Get(fleet, id))) else old(Get(fleet, id))
    {
      var todo := fleet.Keys;
      while todo != {}
        invariant forall id :: id in old(fleet) ==> id in fleet
        invariant todo <= old(fleet).Keys
        invariant forall id ::
                    Get(fleet, id) ==
                    if id !in todo && id.agent == agent && id.external !in live && Present(old(Get(fleet, id)))
                    then Gone(old(Get(fleet, id))) else old(Get(fleet, id))
        decreases |todo|
      {
        var id :| id in todo;
        if id.agent == agent && id.external !in live && Present(fleet[id]) {
          fleet := fleet[id := Gone(fleet[id])];
        }
        todo := todo - {id};
      }
    }

    /**
     * An inventory: refused as a whole when it is over a limit, ignored when it is empty and
     * not complete, and otherwise every container of the agent, and no other, is as counted.
     */
    method HandleAgentInventory(agent: string, reports: seq<Report>, complete: bool,
                                meta: Meta) returns (result: Result)
      modifies this
      ensures result == if reports == [] && !complete then Ok else Checked(reports)
      ensures forall id :: Get(fleet, id) == if id.agent == agent && result.Ok? && (reports != [] || complete)
                                             then Counted(old(Get(fleet, id)), reports, id.external, meta)
                                             else old(Get(fleet, id))
    {
      if |reports| == 0 && !complete {
        return Ok;
      }
      if |reports| > MAX_CONTAINERS {
        return TooManyContainers;
      }
      for i := 0 to |reports|
        invariant fleet == old(fleet)
        invariant forall j :: 0 <= j < i ==> reports[j].labels <= MAX_LABELS
      {
        if reports[i].labels > MAX_LABELS {
          return TooManyLabels;
        }
      }
      var live := HandleReports(agent, reports, meta);
      ArchiveMissing(agent, live);
      result := Ok;
    }
  }
}
