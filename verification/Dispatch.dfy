/**
 * Who is notified: internal/alert/engine.go dispatchNotifications, matchesTrigger and the
 * places that call them, on top of the engine's runs.
 */
module Dispatch {
  import opened Collections
  import opened Csv
  import opened AlertEngine

  datatype Trigger = Trigger(severities: string, sources: string, scopes: string, notifyOnResolve: bool,
                             channelIds: seq<string>)

  /** The enabled triggers, every known channel with its enabled flag, and the channels whose lookup fails. */
  datatype Routes = Routes(triggers: seq<Trigger>, channels: map<string, bool>, unreadable: set<string>)

  predicate Passes(filter: string, value: string) {
    filter == "" || value in Items(filter)
  }

  function Scope(k: Key): (r: string) {
    k.entityType + ":" + k.entityId
  }

  predicate Matches(t: Trigger, a: Alert) {
    && (a.status.Resolved? ==> t.notifyOnResolve)
    && Passes(t.severities, a.severity) && Passes(t.sources, a.key.source) && Passes(t.scopes, Scope(a.key))
  }

  predicate Open(r: Routes, channel: string) {
    channel in r.channels && r.channels[channel] && channel !in r.unreadable
  }

  predicate Named(triggers: seq<Trigger>, a: Alert, channel: string) {
    exists i :: 0 <= i < |triggers| && Matches(triggers[i], a) && channel in triggers[i].channelIds
  }

  predicate Recipient(r: Routes, a: Alert, channel: string) {
    Open(r, channel) && Named(r.triggers, a, channel)
  }

  method MatchesTrigger(t: Trigger, a: Alert) returns (ok: bool)
    ensures ok <==> Matches(t, a)
  {
    if a.status.Resolved? && !t.notifyOnResolve {
      return false;
    }
    if t.severities != "" {
      var found := ContainsCsv(t.severities, a.severity);
      if !found { return false; }
    }
    if t.sources != "" {
      var found := ContainsCsv(t.sources, a.key.source);
      if !found { return false; }
    }
    if t.scopes != "" {
      var found := ContainsCsv(t.scopes, Scope(a.key));
      if !found { return false; }
    }
    ok := true;
  }

  predicate Distinct(s: seq<string>) {
    forall i, j :: 0 <= i < j < |s| ==> s[i] != s[j]
  }

  lemma NamedSnoc(triggers: seq<Trigger>, a: Alert, n: nat)
    requires n < |triggers|
    ensures forall c :: Named(triggers[..n + 1], a, c) <==>
                        Named(triggers[..n], a, c) || (Matches(triggers[n], a) && c in triggers[n].channelIds)
  {
    var less, more := triggers[..n], triggers[..n + 1];
    forall c
      ensures Named(more, a, c) <==> Named(less, a, c) || (Matches(triggers[n], a) && c in triggers[n].channelIds)
    {
      if i :| 0 <= i < |less| && Matches(less[i], a) && c in less[i].channelIds {
        assert more[i] == less[i];
      }
      if i :| 0 <= i < |more| && Matches(more[i], a) && c in more[i].channelIds {
        assert i < n ==> less[i] == more[i];
      }
      assert more[n] == triggers[n];
    }
  }

  /** One trigger's channels, given what earlier triggers already reached. */
  method NotifyChannels(r: Routes, ids: seq<string>, reached: seq<string>) returns (sent: seq<string>)
    requires Distinct(reached)
    ensures Distinct(sent)
    ensures forall c :: c in sent <==> c in reached || (Open(r, c) && c in ids)
  {
    sent := reached;
    for i := 0 to |ids|
      invariant Distinct(sent)
      invariant forall c :: c in sent <==> c in reached || (Open(r, c) && c in ids[..i])
    {
      assert ids[..i + 1] == ids[..i] + [ids[i]];
      if ids[i] !in sent && Open(r, ids[i]) {
        sent := sent + [ids[i]];
      }
    }
    assert ids[..|ids|] == ids;
  }

  /** Exactly one notification for each enabled channel that a matching trigger names, and none elsewhere. */
  method DispatchNotifications(r: Routes, routeBy: Alert) returns (sent: seq<string>)
    ensures Distinct(sent)
    ensures forall c :: c in sent <==> Recipient(r, routeBy, c)
  {
    sent := [];
    for i := 0 to |r.triggers|
      invariant Distinct(sent)
      invariant forall c :: c in sent <==> Open(r, c) && Named(r.triggers[..i], routeBy, c)
    {
      NamedSnoc(r.triggers, routeBy, i);
      var matching := MatchesTrigger(r.triggers[i], routeBy);
      if matching {
        sent := NotifyChannels(r, r.triggers[i].channelIds, sent);
      }
    }
    assert r.triggers[..|r.triggers|] == r.triggers;
  }

  // ---------------------------------------------------------------- what a run of the engine sends

  /** The alert the triggers are matched against, and the one the channels are shown. */
  datatype Sent = Sent(routeBy: Alert, payload: Alert)

  function RaisedMessage(was: string, a: Alert): (r: string) {
    "Severity raised from " + was + " to " + a.severity + ": " + a.message
  }

  function RecoveryNotice(a: Alert, evt: Event, record: nat): (r: Sent) {
    var closed := Closed(a, evt.timestamp, Some(record));
    Sent(closed, closed.(message := evt.message, severity := evt.severity))
  }

  /** The dispatch of one event, none when the event is a duplicate, silenced or not stored. */
  function Notices(s: State, evt: Event, silenced: bool, f: Faults): (r: seq<Sent>) {
    if evt.isRecover then
      if evt.key !in s.active || f.insert then [] else [RecoveryNotice(s.active[evt.key], evt, s.next)]
    else if evt.key in s.active then
      if f.update || Rank(evt.severity) <= Rank(s.active[evt.key].severity) then []
      else
        var a := Escalated(s, evt, f).active[evt.key];
        [Sent(a, a.(message := RaisedMessage(s.active[evt.key].severity, a)))]
    else if f.insert || silenced then []
    else
      var a := Opened(s.next, evt, silenced);
      [Sent(a, a)]
  }

  function Sends(s: State, op: Op): (r: seq<Sent>) {
    if op.Process? then Notices(s, op.evt, op.silenced, op.f) else []
  }

  ghost predicate Sending(s: State, ops: seq<Op>, t: State, sent: seq<Sent>)
    decreases |ops|
  {
    if ops == [] then t == s && sent == []
    else
      && Enabled(s, ops[0]) && Sends(s, ops[0]) <= sent
      && Sending(Apply(s, ops[0]), ops[1..], t, sent[|Sends(s, ops[0])|..])
  }

  /** Some dispatch was routed by this alert at the severity it has now. */
  ghost predicate Told(past: seq<Sent>, a: Alert) {
    exists i :: 0 <= i < |past| && Announces(past[i], a)
  }

  predicate Announces(m: Sent, a: Alert) {
    && m.payload.id == a.id && m.routeBy.key == a.key && m.routeBy.severity == a.severity && m.routeBy.status.Active?
  }

  ghost predicate AllTold(past: seq<Sent>, s: State) {
    forall k :: k in s.active ==> Told(past, s.active[k])
  }

  lemma ToldStays(past: seq<Sent>, more: seq<Sent>, a: Alert, b: Alert)
    requires Told(past, a) && b.id == a.id && b.key == a.key && b.severity == a.severity
    ensures Told(past + more, b)
  {
    var i :| 0 <= i < |past| && Announces(past[i], a);
    assert (past + more)[i] == past[i];
  }

  lemma ToldNow(past: seq<Sent>, m: Sent, a: Alert)
    requires Announces(m, a)
    ensures Told(past + [m], a)
  {
    assert (past + [m])[|past|] == m;
  }

  lemma ProcessTold(s: State, evt: Event, silenced: bool, past: seq<Sent>)
    requires NamesActive(s) && AllTold(past, s)
    ensures AllTold(past + Notices(s, evt, silenced, NO_FAULTS), Processed(s, evt, silenced, NO_FAULTS))
  {
    var t, out := Processed(s, evt, silenced, NO_FAULTS), Notices(s, evt, silenced, NO_FAULTS);
    forall k | k in t.active
      ensures Told(past + out, t.active[k])
    {
      if !evt.isRecover && k == evt.key && out != [] {
        ToldNow(past, out[0], t.active[k]);
      } else {
        ToldStays(past, out, s.active[k], t.active[k]);
      }
    }
  }

  lemma RestartTold(s: State, listed: seq<nat>, past: seq<Sent>)
    requires MirrorsStore(s) && ListsActive(s.store, listed) && AllTold(past, s)
    ensures AllTold(past, s.(active := Indexed(s.store, listed)))
  {
    IndexedNames(s.store, listed);
    var t := Indexed(s.store, listed);
    forall k | k in t
      ensures Told(past, t[k])
    {
      var i :| i in listed && t[k] == s.store[i];
      ToldStays(past, [], s.active[k], t[k]);
      assert past + [] == past;
    }
  }

  lemma StepTold(s: State, op: Op, past: seq<Sent>)
    requires MirrorsStore(s) && Enabled(s, op) && Faultless(op) && AllTold(past, s)
    ensures AllTold(past + Sends(s, op), Apply(s, op)) && MirrorsStore(Apply(s, op))
  {
    MirrorsStoreStep(s, op);
    assert past + [] == past;
    match op {
      case Process(evt, silenced, _) => ProcessTold(s, evt, silenced, past);
      case Restart(listed) => RestartTold(s, listed, past);
      case _ =>
    }
  }

  lemma {:induction false} EveryActiveAlertWasTold(s: State, ops: seq<Op>, t: State, past: seq<Sent>, sent: seq<Sent>)
    requires MirrorsStore(s) && Sending(s, ops, t, sent) && AllTold(past, s)
    requires forall op :: op in ops ==> Faultless(op)
    ensures AllTold(past + sent, t) && Path(s, ops, t)
    decreases |ops|
  {
    if ops == [] {
      assert past + sent == past;
    } else {
      var op, now := ops[0], Sends(s, ops[0]);
      assert op in ops;
      StepTold(s, op, past);
      var u, rest := Apply(s, op), sent[|now|..];
      assert past + sent == past + now + rest;
      EveryActiveAlertWasTold(u, ops[1..], t, past + now, rest);
    }
  }

  /**
   * After any faultless run, a recovery goes only to channels that an earlier dispatch of the
   * same alert, at its final severity, went to; of those it goes to exactly the ones a
   * matching trigger with notify-on-resolve names.
   */
  lemma RecoveryGoesToThoseTold(ops: seq<Op>, t: State, sent: seq<Sent>, evt: Event, r: Routes)
    requires Sending(EMPTY_STATE, ops, t, sent) && forall op :: op in ops ==> Faultless(op)
    requires evt.isRecover && evt.key in t.active
    ensures var out := Notices(t, evt, false, NO_FAULTS);
            && |out| == 1
            && exists i :: 0 <= i < |sent| && sent[i].payload.id == out[0].payload.id
                           && Announces(sent[i], t.active[evt.key])
                           && OnlyThoseTold(r, sent[i].routeBy, out[0].routeBy)
  {
    EveryActiveAlertWasTold(EMPTY_STATE, ops, t, [], sent);
    assert [] + sent == sent;
    EveryFaultlessRunMirrorsStore(EMPTY_STATE, ops, t);
    var a := t.active[evt.key];
    var i :| 0 <= i < |sent| && Announces(sent[i], a);
    ClosedMatchesLess(r, sent[i].routeBy, RecoveryNotice(a, evt, t.next).routeBy);
  }

  function Resolving(triggers: seq<Trigger>): (r: seq<Trigger>) {
    Filter(triggers, (t: Trigger) => t.notifyOnResolve)
  }

  ghost predicate OnlyThoseTold(r: Routes, told: Alert, closed: Alert) {
    && (forall c :: Recipient(r, closed, c) ==> Recipient(r, told, c))
    && (forall c :: Recipient(r, closed, c) <==> Recipient(r.(triggers := Resolving(r.triggers)), told, c))
  }

  lemma ClosedMatchesLess(r: Routes, told: Alert, closed: Alert)
    requires told.key == closed.key && told.severity == closed.severity && told.status.Active?
    requires closed.status.Resolved?
    ensures OnlyThoseTold(r, told, closed)
  {
    var some := Resolving(r.triggers);
    forall c
      ensures Named(r.triggers, closed, c) <==> Named(some, told, c)
    {
      if i :| 0 <= i < |r.triggers| && Matches(r.triggers[i], closed) && c in r.triggers[i].channelIds {
        assert r.triggers[i] in some;
        var j :| 0 <= j < |some| && some[j] == r.triggers[i];
      }
      if i :| 0 <= i < |some| && Matches(some[i], told) && c in some[i].channelIds {
        assert some[i] in r.triggers;
        var j :| 0 <= j < |r.triggers| && r.triggers[j] == some[i];
      }
    }
  }
}
