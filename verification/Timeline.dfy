/**
 * A container's state and the transitions recorded for it (internal/container/service.go, with
 * the row writes of internal/store/containers.go).
 *
 * Transitions are kept in the order their rows were created. A row written for an agent's event
 * is named after the event, so the same event delivered again rewrites that row; every other
 * row gets a name of its own.
 */
module Timeline {
  import opened Collections

  datatype CState = Created | Running | Exited | Completed | Paused | Restarting | Dead

  datatype RowKind = StateRow | HealthRow
  datatype RowId = Generated(kind: RowKind) | OfEvent(event: string, kind: RowKind)

  datatype Transition = Transition(id: RowId, before: CState, after: CState, healthBefore: Option<string>,
                                   health: Option<string>, at: int)

  datatype Container = Container(state: CState, health: Option<string>, changedAt: int, ignored: bool, archived: bool)

  /** What the store holds for one container; nothing at all before it is first seen. */
  datatype Entry = Entry(c: Option<Container>, rows: seq<Transition>)

  const UNSEEN := Entry(None, [])

  /** An event of the runtime or of an agent; `exit` is the exit code it carries, `event` its id, "" without one. */
  datatype Event = Event(action: string, exit: Option<int>, oomKilled: bool, health: string, at: int, replayed: bool,
                         event: string)

  datatype Emission = StateChanged(before: CState, after: CState, at: int) | HealthChanged(was: Option<string>,
                                   health: string, at: int)
                    | Archived(at: int) | Discovered

  predicate IsCleanExit(code: int, oomKilled: bool) {
    code == 0 || code == 143 || (code == 137 && !oomKilled)
  }

  /** The state an event announces, none when it announces none or a stop follows a clean exit. */
  function Target(evt: Event, state: CState): (r: Option<CState>) {
    match evt.action
    case "start" => Some(Running)
    case "unpause" => Some(Running)
    case "pause" => Some(Paused)
    case "stop" => if state == Completed then None else Some(Exited)
    case "die" => Some(if evt.exit.Some? && IsCleanExit(evt.exit.value, evt.oomKilled) then Completed else Exited)
    case _ => None
  }

  function IdOf(evt: Event, kind: RowKind): (r: RowId) {
    if evt.event == "" then Generated(kind) else OfEvent(evt.event, kind)
  }

  /** The row of that name, its position or the end. */
  function Find(rows: seq<Transition>, id: RowId): (i: nat)
    ensures i <= |rows| && (i < |rows| ==> rows[i].id == id && id.OfEvent?)
    ensures id.OfEvent? ==> forall j :: 0 <= j < i ==> rows[j].id != id
    ensures id.Generated? ==> i == |rows|
  {
    if id.Generated? then |rows|
    else if rows == [] || rows[0].id == id then 0
    else Find(rows[1..], id) + 1
  }

  function Upserted(rows: seq<Transition>, t: Transition): (r: seq<Transition>) {
    var i := Find(rows, t.id);
    if i < |rows| then rows[i := t] else rows + [t]
  }

  // ---------------------------------------------------------------- events

  /** State and health the timeline shows, given the rows the store lists, newest first. */
  function StateAt(c: Container, listed: seq<Transition>): (s: CState) {
    if listed == [] then c.state else listed[0].after
  }

  function HealthAt(c: Container, listed: seq<Transition>): (h: Option<string>) {
    if listed == [] then c.health else if listed[0].health.Some? then listed[0].health else HealthAt(c, listed[1..])
  }

  method TimelineAt(c: Container, listed: seq<Transition>) returns (s: CState, h: Option<string>)
    ensures s == StateAt(c, listed) && h == HealthAt(c, listed)
  {
    s := if |listed| > 0 then listed[0].after else c.state;
    var i := 0;
    while i < |listed|
      invariant 0 <= i <= |listed|
      invariant HealthAt(c, listed) == HealthAt(c, listed[i..])
    {
      if listed[i].health.Some? {
        return s, listed[i].health;
      }
      assert listed[i..][1..] == listed[i + 1..];
      i := i + 1;
    }
    h := c.health;
  }

  function StateChange(e: Entry, evt: Event, target: CState, listed: seq<Transition>): (r: Entry)
    requires e.c.Some?
  {
    var c := e.c.value;
    var before := if evt.replayed then StateAt(c, listed) else c.state;
    if c.ignored || before == target then e
    else
      Entry(Some(if evt.replayed then c else c.(state := target, changedAt := evt.at)),
            Upserted(e.rows, Transition(IdOf(evt, StateRow), before, target, None, None, evt.at)))
  }

  function HealthChange(e: Entry, evt: Event, listed: seq<Transition>): (r: Entry)
    requires e.c.Some?
  {
    var c := e.c.value;
    var state := if evt.replayed then StateAt(c, listed) else c.state;
    var before := if evt.replayed then HealthAt(c, listed) else c.health;
    if c.ignored || (evt.replayed && before == Some(evt.health)) then e
    else
      Entry(Some(if evt.replayed then c else c.(health := Some(evt.health), changedAt := evt.at)),
            Upserted(e.rows, Transition(IdOf(evt, HealthRow), state, state, before, Some(evt.health), evt.at)))
  }

  function Processed(e: Entry, evt: Event, listed: seq<Transition>): (r: Entry) {
    if e.c.None? then e
    else if evt.action == "health_status" then HealthChange(e, evt, listed)
    else if evt.action == "destroy" then e.(c := Some(e.c.value.(archived := true)))
    else
      var target := Target(evt, e.c.value.state);
      if target.None? then e else StateChange(e, evt, target.value, listed)
  }

  /** What an event of a known container announces to the outside. */
  function Emits(e: Entry, evt: Event): (r: seq<Emission>) {
    if e.c.None? then []
    else
      var c := e.c.value;
      if evt.action == "destroy" then [Archived(evt.at)]
      else if c.ignored || evt.replayed then []
      else if evt.action == "health_status" then [HealthChanged(c.health, evt.health, evt.at)]
      else
        var target := Target(evt, c.state);
        if target.None? || target.value == c.state then [] else [StateChanged(c.state, target.value, evt.at)]
  }

  // ---------------------------------------------------------------- reconciliation

  /** A container the runtime lists. */
  datatype Found = Found(id: string, state: CState, health: Option<string>, changedAt: int, ignored: bool)

  /** A container not among the stored ones: written anew, with the transition that starts its timeline. */
  function Inserted(e: Entry, f: Found, now: int): (r: Entry) {
    Entry(Some(Container(f.state, f.health, f.changedAt, f.ignored, false)),
          if f.state == Created then e.rows
          else e.rows + [Transition(Generated(StateRow), Created, f.state, None, None, now)])
  }

  function Adopted(e: Entry, f: Found, now: int): (r: Entry)
    requires e.c.Some?
  {
    var c := e.c.value.(ignored := f.ignored);
    if c.state == f.state then e.(c := Some(c))
    else Entry(Some(c.(state := f.state, changedAt := now)),
               e.rows + [Transition(Generated(StateRow), c.state, f.state, None, None, now)])
  }

  predicate IsStored(e: Entry) {
    e.c.Some? && !e.c.value.archived
  }

  function Reconciled(e: Entry, found: Option<Found>, now: int): (r: Entry) {
    if IsStored(e) then
      if found.None? then e.(c := Some(e.c.value.(archived := true))) else Adopted(e, found.value, now)
    else if found.Some? then Inserted(e, found.value, now)
    else e
  }

  // ---------------------------------------------------------------- an unbroken path

  predicate Linked(rows: seq<Transition>) {
    forall i :: 0 <= i < |rows| - 1 ==> rows[i].after == rows[i + 1].before
  }

  /** From created, through every recorded transition, to the current state. */
  predicate Unbroken(e: Entry) {
    if e.rows == [] then e.c.Some? ==> e.c.value.state == Created
    else e.rows[0].before == Created && Linked(e.rows) && e.c.Some? && e.rows[|e.rows| - 1].after == e.c.value.state
  }

  /** State rows change the state, health rows do not, and no two rows share an event's name. */
  predicate WellKept(rows: seq<Transition>) {
    && (forall i :: 0 <= i < |rows| ==>
          if rows[i].id.kind.HealthRow? then rows[i].before == rows[i].after else rows[i].before != rows[i].after)
    && (forall i, j :: 0 <= i < j < |rows| && rows[i].id.OfEvent? ==> rows[i].id != rows[j].id)
  }

  datatype Op = Live(evt: Event) | Reconcile(found: Option<Found>, now: int)

  predicate IsLive(op: Op) {
    op.Live? ==> !op.evt.replayed
  }

  function Step(e: Entry, op: Op): (r: Entry) {
    match op
    case Live(evt) => Processed(e, evt, [])
    case Reconcile(found, now) => Reconciled(e, found, now)
  }

  /** The event writes a row that is already there. */
  predicate Rewrites(e: Entry, evt: Event, kind: RowKind) {
    Find(e.rows, IdOf(evt, kind)) < |e.rows|
  }

  /**
   * What keeps the path whole: a state change is delivered once, a health report delivered
   * again finds the container in the state it was first recorded in, and a container that was
   * archived comes back only if it was still in state created.
   */
  predicate Sound(e: Entry, op: Op) {
    match op
    case Live(evt) =>
      if e.c.None? || e.c.value.ignored || evt.action == "destroy" then true
      else if evt.action == "health_status" then
        Rewrites(e, evt, HealthRow) ==> e.rows[Find(e.rows, IdOf(evt, HealthRow))].after == e.c.value.state
      else
        var target := Target(evt, e.c.value.state);
        target.Some? && target.value != e.c.value.state ==> !Rewrites(e, evt, StateRow)
    case Reconcile(found, _) => e.c.Some? && e.c.value.archived && found.Some? ==> e.c.value.state == Created
  }

  lemma AppendKept(rows: seq<Transition>, t: Transition)
    requires WellKept(rows) && Find(rows, t.id) == |rows|
    requires if t.id.kind.HealthRow? then t.before == t.after else t.before != t.after
    ensures WellKept(rows + [t])
  {
  }

  lemma ReplaceKept(rows: seq<Transition>, t: Transition)
    requires WellKept(rows) && Find(rows, t.id) < |rows|
    requires if t.id.kind.HealthRow? then t.before == t.after else t.before != t.after
    ensures WellKept(rows[Find(rows, t.id) := t])
  {
  }

  /** A rewritten state row always breaks the path. */
  lemma RewrittenStateRow(rows: seq<Transition>, i: nat, t: Transition, c: Container)
    requires i < |rows| && WellKept(rows) && rows[i].before != rows[i].after
    requires Unbroken(Entry(Some(c), rows)) && t.before == c.state && t.after != c.state
    ensures !Unbroken(Entry(Some(c.(state := t.after)), rows[i := t]))
  {
    var more := rows[i := t];
    if i == |rows| - 1 && i > 0 {
      var j := i - 1;
      assert rows[j].after == rows[j + 1].before;
      assert more[j].after != more[j + 1].before;
    }
  }

  /** A rewritten health row keeps it exactly when it still sits at the current state. */
  lemma RewrittenHealthRow(rows: seq<Transition>, i: nat, t: Transition, c: Container)
    requires i < |rows| && rows[i].before == rows[i].after && t.before == t.after == c.state
    requires Unbroken(Entry(Some(c), rows))
    ensures Unbroken(Entry(Some(c), rows[i := t])) <==> rows[i].after == c.state
  {
    var more := rows[i := t];
    if rows[i].after == c.state {
      forall j | 0 <= j < |more| - 1
        ensures more[j].after == more[j + 1].before
      {
        assert rows[j].after == rows[j + 1].before;
      }
    } else if i > 0 {
      var j := i - 1;
      assert rows[j].after == rows[j + 1].before;
      assert more[j].after != more[j + 1].before;
    }
  }

  lemma StateChangeUnbrokenIff(e: Entry, evt: Event, target: CState)
    requires e.c.Some? && Unbroken(e) && WellKept(e.rows) && !evt.replayed && !e.c.value.ignored
    requires target != e.c.value.state
    ensures var r := StateChange(e, evt, target, []);
            (Unbroken(r) <==> !Rewrites(e, evt, StateRow)) && WellKept(r.rows)
  {
    var c, i := e.c.value, Find(e.rows, IdOf(evt, StateRow));
    var t := Transition(IdOf(evt, StateRow), c.state, target, None, None, evt.at);
    if i < |e.rows| {
      ReplaceKept(e.rows, t);
      RewrittenStateRow(e.rows, i, t, c.(changedAt := evt.at));
    } else {
      AppendKept(e.rows, t);
    }
  }

  lemma HealthChangeUnbrokenIff(e: Entry, evt: Event)
    requires e.c.Some? && Unbroken(e) && WellKept(e.rows) && !evt.replayed && !e.c.value.ignored
    ensures var r := HealthChange(e, evt, []);
            WellKept(r.rows)
            && (Unbroken(r) <==> (Rewrites(e, evt, HealthRow) ==>
                 e.rows[Find(e.rows, IdOf(evt, HealthRow))].after == e.c.value.state))
  {
    var c, i := e.c.value, Find(e.rows, IdOf(evt, HealthRow));
    var t := Transition(IdOf(evt, HealthRow), c.state, c.state, c.health, Some(evt.health), evt.at);
    if i < |e.rows| {
      ReplaceKept(e.rows, t);
      RewrittenHealthRow(e.rows, i, t, c.(health := Some(evt.health), changedAt := evt.at));
    } else {
      AppendKept(e.rows, t);
    }
  }

  lemma ReconciledUnbrokenIff(e: Entry, found: Option<Found>, now: int)
    requires Unbroken(e) && WellKept(e.rows)
    ensures var r := Reconciled(e, found, now);
            (Unbroken(r) <==> Sound(e, Reconcile(found, now))) && WellKept(r.rows)
  {
    if found.Some? {
      var f := found.value;
      if IsStored(e) {
        var c := e.c.value;
        if c.state != f.state {
          AppendKept(e.rows, Transition(Generated(StateRow), c.state, f.state, None, None, now));
        }
      } else if f.state != Created {
        var t := Transition(Generated(StateRow), Created, f.state, None, None, now);
        AppendKept(e.rows, t);
        if e.rows != [] && e.c.value.state != Created {
          var j := |e.rows| - 1;
          assert (e.rows + [t])[j].after != (e.rows + [t])[j + 1].before;
        }
      }
    }
  }

  /** One step keeps the timeline an unbroken path if and only if it is sound. */
  lemma StepUnbrokenIff(e: Entry, op: Op)
    requires Unbroken(e) && WellKept(e.rows) && IsLive(op)
    ensures (Unbroken(Step(e, op)) <==> Sound(e, op)) && WellKept(Step(e, op).rows)
  {
    match op {
      case Reconcile(found, now) => ReconciledUnbrokenIff(e, found, now);
      case Live(evt) =>
        if e.c.Some? && !e.c.value.ignored && evt.action != "destroy" {
          if evt.action == "health_status" {
            HealthChangeUnbrokenIff(e, evt);
          } else {
            var target := Target(evt, e.c.value.state);
            if target.Some? && target.value != e.c.value.state {
              StateChangeUnbrokenIff(e, evt, target.value);
            }
          }
        }
    }
  }

  ghost predicate Runs(e: Entry, ops: seq<Op>, r: Entry)
    decreases |ops|
  {
    if ops == [] then r == e
    else IsLive(ops[0]) && Sound(e, ops[0]) && Runs(Step(e, ops[0]), ops[1..], r)
  }

  lemma {:induction false} RunKeepsPath(e: Entry, ops: seq<Op>, r: Entry)
    requires Unbroken(e) && WellKept(e.rows) && Runs(e, ops, r)
    ensures Unbroken(r) && WellKept(r.rows)
    decreases |ops|
  {
    if ops != [] {
      StepUnbrokenIff(e, ops[0]);
      RunKeepsPath(Step(e, ops[0]), ops[1..], r);
    }
  }

  /** From the first sight of a container, any run of sound live events and reconciliations keeps its path whole. */
  lemma TimelineIsUnbroken(ops: seq<Op>, r: Entry)
    requires Runs(UNSEEN, ops, r)
    ensures Unbroken(r)
  {
    RunKeepsPath(UNSEEN, ops, r);
  }

  // ---------------------------------------------------------------- where it breaks

  const STARTED := Found("c", Running, None, 0, false)

  /** A running container drops out of the runtime's list and comes back: its timeline starts over. */
  lemma RediscoveryBreaksPath()
    ensures var e0 := Reconciled(UNSEEN, Some(STARTED), 0);
            var e1 := Reconciled(e0, None, 1);
            Unbroken(e1) && !Unbroken(Reconciled(e1, Some(STARTED), 2))
  {
    var e0 := Reconciled(UNSEEN, Some(STARTED), 0);
    StepUnbrokenIff(UNSEEN, Reconcile(Some(STARTED), 0));
    StepUnbrokenIff(e0, Reconcile(None, 1));
    StepUnbrokenIff(Reconciled(e0, None, 1), Reconcile(Some(STARTED), 2));
  }

  // ---------------------------------------------------------------- replays

  predicate ReportsStateOrHealth(evt: Event) {
    evt.action != "destroy"
  }

  /** Replayed events only add to the record: the container as it is now stays as it was, and nobody is told. */
  lemma ReplayLeavesLiveAlone(e: Entry, evt: Event, listed: seq<Transition>)
    requires evt.replayed && ReportsStateOrHealth(evt)
    ensures Processed(e, evt, listed).c == e.c && Emits(e, evt) == []
    ensures |e.rows| <= |Processed(e, evt, listed).rows| <= |e.rows| + 1
  {
  }

  /** An event as it is handled, with what the store would list for it. */
  datatype Delivery = Delivery(evt: Event, listed: seq<Transition>)

  function ProcessedAll(e: Entry, ds: seq<Delivery>): (r: Entry)
    decreases |ds|
  {
    if ds == [] then e else ProcessedAll(Processed(e, ds[0].evt, ds[0].listed), ds[1..])
  }

  function EmitsAll(e: Entry, ds: seq<Delivery>): (r: seq<Emission>)
    decreases |ds|
  {
    if ds == [] then [] else Emits(e, ds[0].evt) + EmitsAll(Processed(e, ds[0].evt, ds[0].listed), ds[1..])
  }

  function LiveOnly(ds: seq<Delivery>): (r: seq<Delivery>) {
    if ds == [] then []
    else (if ds[0].evt.replayed && ReportsStateOrHealth(ds[0].evt) then [] else [ds[0]]) + LiveOnly(ds[1..])
  }

  /** Live handling looks at the container, never at the rows. */
  lemma LiveIgnoresRows(e: Entry, e2: Entry, d: Delivery)
    requires e.c == e2.c && !(d.evt.replayed && ReportsStateOrHealth(d.evt))
    ensures Processed(e, d.evt, d.listed).c == Processed(e2, d.evt, d.listed).c && Emits(e, d.evt) == Emits(e2, d.evt)
  {
  }

  /** Replayed state and health events, anywhere in a run, change neither the live container nor what is announced. */
  lemma {:induction false} ReplaysAreInvisible(e: Entry, e2: Entry, ds: seq<Delivery>)
    requires e.c == e2.c
    ensures ProcessedAll(e, ds).c == ProcessedAll(e2, LiveOnly(ds)).c
    ensures EmitsAll(e, ds) == EmitsAll(e2, LiveOnly(ds))
    decreases |ds|
  {
    if ds != [] {
      var d, rest := ds[0], LiveOnly(ds[1..]);
      var next := Processed(e, d.evt, d.listed);
      if d.evt.replayed && ReportsStateOrHealth(d.evt) {
        ReplayLeavesLiveAlone(e, d.evt, d.listed);
        assert [] + rest == rest;
        ReplaysAreInvisible(next, e2, ds[1..]);
      } else {
        LiveIgnoresRows(e, e2, d);
        assert ([d] + rest)[1..] == rest;
        ReplaysAreInvisible(next, Processed(e2, d.evt, d.listed), ds[1..]);
      }
    }
  }
}
