/** Certificate alerts over whole runs of scans, stored or not, of one monitor. */
module CertificateRuns {
  import opened Collections
  import opened AlertEngine
  import opened DetectorEvents
  import opened Certificates

  /** `lost` is history: a restart lost the last word on the expiring alert, and nothing was said of it since. */
  datatype World = World(rows: seq<Row>, last: Option<int>, channel: Channel, now: int, lost: bool)

  /**
   * `t` when the scan was checked, `until` when its alerts were judged, `previous` the row the
   * store gave. A purge at `at` drops the rows older than the retention.
   */
  datatype Action =
    | Scanned(scan: Scan, pushed: bool, auto: bool, t: int, until: int, previous: Option<Row>)
    | Purged(at: int, retention: int)
    | Elsewhere(evt: Event)
    | Deliver
    | Reboot(listed: seq<nat>)

  /** Newest first by stored second, one row; among rows of one second any may come. */
  ghost predicate IsLatest(rows: seq<Row>, previous: Option<Row>) {
    if rows == [] then previous == None
    else previous.Some? && previous.value in rows && forall r :: r in rows ==> r.at <= previous.value.at
  }

  predicate OfMonitor(m: Monitor, k: Key) {
    k.source == SOURCE && k.entityType == ENTITY && k.entityId == m.id
  }

  ghost predicate Can(w: World, m: Monitor, a: Action) {
    match a
    case Scanned(_, _, _, t, until, previous) => w.now <= t <= until && IsLatest(w.rows, previous)
    case Purged(at, retention) => w.now <= at && 0 < retention
    case Elsewhere(evt) => !OfMonitor(m, evt.key)
    case Deliver => w.channel.queue != []
    case Reboot(listed) => ListsActive(w.channel.engine.store, listed)
  }

  /** The rows not older than the cutoff, in order. */
  function Recent(rows: seq<Row>, cutoff: int): (r: seq<Row>) {
    if rows == [] then []
    else
      var n := |rows| - 1;
      Recent(rows[..n], cutoff) + if rows[n].at >= cutoff then [rows[n]] else []
  }

  ghost function Next(w: World, m: Monitor, a: Action): (v: World)
    requires Can(w, m, a)
  {
    match a
    case Scanned(scan, pushed, auto, t, until, previous) =>
      var n := NoticeOf(m, w.last, scan, until);
      World(if Keeps(m, previous, scan, pushed, t) then w.rows + [Stored(scan, t)] else w.rows, Noticed(w.last, n),
            Emitted(w.channel, ScanEvents(m, previous, w.last, scan, auto, t, until)), until, w.lost && n.None?)
    case Purged(at, retention) => w.(rows := Recent(w.rows, Cut(at - retention)), now := at)
    case Elsewhere(evt) => w.(channel := Emitted(w.channel, [evt]))
    case Deliver => w.(channel := Delivered(w.channel))
    case Reboot(listed) =>
      w.(channel := Rebooted(w.channel, listed), lost := w.lost || LosesWord(w.channel, ExpiringKey(m)))
  }

  /** The alert is active once the engine has taken what is queued. */
  ghost predicate Active(w: World, m: Monitor, p: Problem) {
    Settled(w.channel, ProblemKey(m, p))
  }

  /** The active alerts are exactly the certificate's problems. */
  ghost predicate Agrees(w: World, m: Monitor, c: Cert, at: int) {
    forall p :: Active(w, m, p) <==> HasProblem(c, p, at)
  }

  // ---------------------------------------------------------------- one scan, any history

  lemma ActiveAfterScan(w: World, m: Monitor, a: Action, p: Problem)
    requires Can(w, m, a) && a.Scanned?
    ensures Active(Next(w, m, a), m, p) <==>
              if a.scan.error != "" then Active(w, m, p)
              else HasProblem(a.scan.cert, p, a.until) || (Active(w, m, p) && !Cleared(a.previous, a.scan.cert, p, a.t))
  {
    SettledEmitted(w.channel, ScanEvents(m, a.previous, w.last, a.scan, a.auto, a.t, a.until), ProblemKey(m, p));
    if a.scan.error == "" {
      ScanSaysProblem(m, a.previous, w.last, a.scan, a.auto, a.t, a.until, p, Active(w, m, p));
    }
  }

  /** The row the store gave explains the alert: it has the problem, or its scan failed. */
  ghost predicate Explained(previous: Option<Row>, p: Problem, t: int) {
    previous.Some? && (RowHasProblem(previous.value, p, t) || previous.value.error != "")
  }

  lemma ProblemsOnlyAppear(c: Cert, p: Problem, t: int, until: int)
    requires t <= until && HasProblem(c, p, t)
    ensures HasProblem(c, p, until)
  {
  }

  /**
   * Whatever came before, a successful scan brings the alerts into line if and only if every
   * active alert the certificate does not deserve is explained by the row it is compared to.
   */
  lemma ScanAgreesIff(w: World, m: Monitor, a: Action)
    requires Can(w, m, a) && a.Scanned? && a.scan.error == ""
    ensures Agrees(Next(w, m, a), m, a.scan.cert, a.until) <==>
              forall p :: Active(w, m, p) && !HasProblem(a.scan.cert, p, a.until) ==> Explained(a.previous, p, a.t)
  {
    forall p
      ensures Active(Next(w, m, a), m, p) <==>
                HasProblem(a.scan.cert, p, a.until) || (Active(w, m, p) && !Explained(a.previous, p, a.t))
    {
      ActiveAfterScan(w, m, a, p);
      if HasProblem(a.scan.cert, p, a.t) {
        ProblemsOnlyAppear(a.scan.cert, p, a.t, a.until);
      }
    }
  }

  // ---------------------------------------------------------------- runs

  /** No queued recovery of an active alert. */
  ghost predicate NoRecoveryQueued(w: World, m: Monitor) {
    forall p :: ProblemKey(m, p) in w.channel.engine.active ==> Active(w, m, p)
  }

  /**
   * Stored rows fall in distinct seconds, the newest one outlives the retention, and no restart
   * loses the recovery of an alert. Losing an alert itself does no harm: the next scan raises
   * it again.
   */
  ghost predicate Spaced(w: World, m: Monitor, a: Action) {
    match a
    case Scanned(scan, pushed, _, t, _, previous) =>
      w.rows != [] && Keeps(m, previous, scan, pushed, t) ==> w.rows[|w.rows| - 1].at < Cut(t)
    case Purged(at, retention) => w.rows != [] ==> Cut(at - retention) <= w.rows[|w.rows| - 1].at
    case Reboot(_) => NoRecoveryQueued(w, m)
    case _ => true
  }

  ghost predicate Runs(w: World, m: Monitor, actions: seq<Action>, v: World)
    decreases |actions|
  {
    if actions == [] then v == w
    else Can(w, m, actions[0]) && Spaced(w, m, actions[0]) && Runs(Next(w, m, actions[0]), m, actions[1..], v)
  }

  ghost predicate RowsOrdered(rows: seq<Row>, now: int) {
    && (forall i, j :: 0 <= i < j < |rows| ==> rows[i].at < rows[j].at)
    && (forall i :: 0 <= i < |rows| ==> rows[i].at <= now && (rows[i].error == "" <==> rows[i].cert.Some?))
  }

  /** Every active alert is explained by the newest row, now and later. */
  ghost predicate Inv(w: World, m: Monitor) {
    && RowsOrdered(w.rows, w.now) && MirrorsStore(w.channel.engine)
    && (forall p :: Active(w, m, p) ==> w.rows != [] && Explained(Some(w.rows[|w.rows| - 1]), p, w.now))
  }

  lemma LatestIsLast(rows: seq<Row>, now: int, previous: Option<Row>)
    requires RowsOrdered(rows, now) && IsLatest(rows, previous)
    ensures rows != [] ==> previous == Some(rows[|rows| - 1])
  {
    if rows != [] {
      var i :| 0 <= i < |rows| && rows[i] == previous.value;
      assert rows[|rows| - 1] in rows;
    }
  }

  lemma CutBelow(t: int)
    ensures Cut(t) <= t
  {
  }

  /** A row of the same outcome as a scan has its problems, at any later time. */
  lemma SameOutcomeExplains(row: Row, scan: Scan, p: Problem, at: int)
    requires SameOutcome(row, scan) && scan.error == "" && HasProblem(scan.cert, p, at)
    ensures RowHasProblem(row, p, at)
  {
    CutBelow(scan.cert.notAfter);
  }

  lemma ExplainedLater(row: Row, p: Problem, t: int, until: int)
    requires Explained(Some(row), p, t) && t <= until
    ensures Explained(Some(row), p, until)
  {
  }

  /** The row the scan left newest has its outcome. */
  lemma NewestRow(w: World, m: Monitor, a: Action)
    requires RowsOrdered(w.rows, w.now) && Can(w, m, a) && a.Scanned?
    ensures var rows := Next(w, m, a).rows; rows != [] && SameOutcome(rows[|rows| - 1], a.scan)
  {
    LatestIsLast(w.rows, w.now, a.previous);
  }

  lemma ScannedRows(w: World, m: Monitor, a: Action)
    requires RowsOrdered(w.rows, w.now) && Can(w, m, a) && Spaced(w, m, a) && a.Scanned?
    ensures RowsOrdered(Next(w, m, a).rows, a.until)
  {
    CutBelow(a.t);
    var v := Next(w, m, a);
    if |v.rows| > |w.rows| {
      forall i | 0 <= i < |w.rows|
        ensures w.rows[i].at < Cut(a.t)
      {
        assert w.rows[i].at <= w.rows[|w.rows| - 1].at;
      }
    }
  }

  /** So a scan's row explains every alert that is left active. */
  lemma ScannedExplains(w: World, m: Monitor, a: Action, newest: Row)
    requires a.Scanned? && SameOutcome(newest, a.scan)
    requires a.scan.error == "" ==> Agrees(w, m, a.scan.cert, a.until)
    ensures forall p :: Active(w, m, p) ==> Explained(Some(newest), p, a.until)
  {
    forall p | Active(w, m, p)
      ensures Explained(Some(newest), p, a.until)
    {
      if a.scan.error == "" {
        SameOutcomeExplains(newest, a.scan, p, a.until);
      }
    }
  }

  lemma ScannedKeeps(w: World, m: Monitor, a: Action)
    requires Inv(w, m) && Can(w, m, a) && Spaced(w, m, a) && a.Scanned?
    ensures Inv(Next(w, m, a), m)
    ensures a.scan.error == "" ==> Agrees(Next(w, m, a), m, a.scan.cert, a.until)
  {
    var v := Next(w, m, a);
    ScannedRows(w, m, a);
    NewestRow(w, m, a);
    if a.scan.error == "" {
      AgreesAfterScan(w, m, a);
    }
    ScannedExplains(v, m, a, v.rows[|v.rows| - 1]);
  }

  lemma AgreesAfterScan(w: World, m: Monitor, a: Action)
    requires Inv(w, m) && Can(w, m, a) && a.Scanned? && a.scan.error == ""
    ensures Agrees(Next(w, m, a), m, a.scan.cert, a.until)
  {
    LatestIsLast(w.rows, w.now, a.previous);
    forall p | Active(w, m, p) && !HasProblem(a.scan.cert, p, a.until)
      ensures Explained(a.previous, p, a.t)
    {
      ExplainedLater(w.rows[|w.rows| - 1], p, w.now, a.t);
    }
    ScanAgreesIff(w, m, a);
  }

  lemma {:induction false} RecentKeepsLast(rows: seq<Row>, cutoff: int, now: int)
    requires RowsOrdered(rows, now) && rows != [] && cutoff <= rows[|rows| - 1].at
    ensures var r := Recent(rows, cutoff); r != [] && r[|r| - 1] == rows[|rows| - 1]
  {
  }

  lemma {:induction false} RecentOrdered(rows: seq<Row>, cutoff: int, now: int)
    requires RowsOrdered(rows, now)
    ensures RowsOrdered(Recent(rows, cutoff), now)
    ensures forall r :: r in Recent(rows, cutoff) ==> r in rows
  {
    if rows != [] {
      var n := |rows| - 1;
      RecentOrdered(rows[..n], cutoff, now);
      var less := Recent(rows[..n], cutoff);
      forall i | 0 <= i < |less|
        ensures less[i].at < rows[n].at
      {
        assert less[i] in rows[..n];
      }
    }
  }

  lemma PurgedKeeps(w: World, m: Monitor, a: Action)
    requires Inv(w, m) && Can(w, m, a) && Spaced(w, m, a) && a.Purged?
    ensures Inv(Next(w, m, a), m)
  {
    var cutoff := Cut(a.at - a.retention);
    RecentOrdered(w.rows, cutoff, w.now);
    if w.rows != [] {
      RecentKeepsLast(w.rows, cutoff, w.now);
    }
    forall p | Active(Next(w, m, a), m, p)
      ensures w.rows != [] && Explained(Some(w.rows[|w.rows| - 1]), p, a.at)
    {
      assert Active(w, m, p);
      ExplainedLater(w.rows[|w.rows| - 1], p, w.now, a.at);
    }
  }

  lemma ChannelActive(w: World, m: Monitor, a: Action, p: Problem)
    requires MirrorsStore(w.channel.engine) && Can(w, m, a) && Spaced(w, m, a)
    requires (a.Elsewhere? || a.Deliver? || a.Reboot?)
    ensures Active(Next(w, m, a), m, p) ==> Active(w, m, p)
  {
    match a {
      case Elsewhere(evt) =>
        SettledEmitted(w.channel, [evt], ProblemKey(m, p));
        OthersSilent([evt], ProblemKey(m, p), Active(w, m, p));
      case Deliver => SettledDelivered(w.channel, ProblemKey(m, p));
      case Reboot(listed) => SettledRebooted(w.channel, listed, ProblemKey(m, p));
    }
  }

  lemma ChannelKeeps(w: World, m: Monitor, a: Action)
    requires Inv(w, m) && Can(w, m, a) && Spaced(w, m, a) && (a.Elsewhere? || a.Deliver? || a.Reboot?)
    ensures Inv(Next(w, m, a), m)
  {
    if a.Deliver? {
      DeliveredMirrors(w.channel);
    } else if a.Reboot? {
      SettledRebooted(w.channel, a.listed, ExpiringKey(m));
    }
    forall p | Active(Next(w, m, a), m, p)
      ensures Active(w, m, p)
    {
      ChannelActive(w, m, a, p);
    }
  }

  lemma StepKeeps(w: World, m: Monitor, a: Action)
    requires Inv(w, m) && Can(w, m, a) && Spaced(w, m, a)
    ensures Inv(Next(w, m, a), m)
  {
    match a {
      case Scanned(_, _, _, _, _, _) => ScannedKeeps(w, m, a);
      case Purged(_, _) => PurgedKeeps(w, m, a);
      case _ => ChannelKeeps(w, m, a);
    }
  }

  /** A monitor nothing is known of: no rows, no threshold alerted, no alert of its own active or queued. */
  ghost predicate Unknown(w: World, m: Monitor) {
    && w.rows == [] && w.last == None && !w.lost && MirrorsStore(w.channel.engine)
    && !Settled(w.channel, ExpiringKey(m)) && forall p :: !Active(w, m, p)
  }

  lemma {:induction false} EveryRunKeeps(w: World, m: Monitor, actions: seq<Action>, v: World)
    requires Inv(w, m) && Runs(w, m, actions, v)
    ensures Inv(v, m)
    decreases |actions|
  {
    if actions != [] {
      StepKeeps(w, m, actions[0]);
      EveryRunKeeps(Next(w, m, actions[0]), m, actions[1..], v);
    }
  }

  /**
   * After any mix of failed, scheduled and pushed scans, purges, deliveries, restarts and other events,
   * a successful scan leaves the monitor's chain, hostname, revocation and expiry alerts
   * exactly at that scan's problems, although most pushed scans were never stored.
   */
  lemma AlertsAgreeAfterEveryScan(w: World, m: Monitor, actions: seq<Action>, v: World, a: Action)
    requires Unknown(w, m) && Runs(w, m, actions, v) && a.Scanned? && Can(v, m, a) && a.scan.error == ""
    ensures Agrees(Next(v, m, a), m, a.scan.cert, a.until)
  {
    EveryRunKeeps(w, m, actions, v);
    AgreesAfterScan(v, m, a);
  }

  // ---------------------------------------------------------------- restarts

  /** A restart keeps the alerts in line if and only if it loses the last word on none of them. */
  lemma RestartAgreesIff(w: World, m: Monitor, listed: seq<nat>, c: Cert, at: int)
    requires MirrorsStore(w.channel.engine) && Can(w, m, Reboot(listed)) && Agrees(w, m, c, at)
    ensures Agrees(Next(w, m, Reboot(listed)), m, c, at) <==> forall p :: !LosesWord(w.channel, ProblemKey(m, p))
  {
    forall p
      ensures (Active(Next(w, m, Reboot(listed)), m, p) <==> HasProblem(c, p, at)) <==>
              !LosesWord(w.channel, ProblemKey(m, p))
    {
      RestartKeepsIff(w.channel, listed, ProblemKey(m, p));
    }
  }

  // ---------------------------------------------------------------- where the history fails the alerts

  const GOOD := Cert("", "", "", [], "", "", 0, 1_000 * DAY, true, "", true, false, "", "")
  const BAD := GOOD.(chainValid := false)

  function Scheduled(c: Cert, t: int, previous: Option<Row>): (a: Action) {
    Scanned(Scan("", c), false, false, t, t, previous)
  }

  const GOOD_ROW := Stored(Scan("", GOOD), SECOND)
  const BAD_ROW := Stored(Scan("", BAD), SECOND + 1)
  const RAISED := Scheduled(BAD, SECOND + 1, None)

  lemma ScheduledStores(w: World, m: Monitor, a: Action)
    requires Can(w, m, a) && a.Scanned? && !a.pushed
    ensures Next(w, m, a).rows == w.rows + [Stored(a.scan, a.t)] && Next(w, m, a).now == a.until
  {
  }

  lemma RaisedIs(m: Monitor, w: World)
    requires Unknown(w, m) && w.now == 0
    ensures Can(w, m, RAISED)
    ensures var w1 := Next(w, m, RAISED);
            w1.rows == [BAD_ROW] && w1.now == SECOND + 1 && Active(w1, m, ChainInvalid)
  {
    ScheduledStores(w, m, RAISED);
    assert [] + [BAD_ROW] == [BAD_ROW];
    ActiveAfterScan(w, m, RAISED, ChainInvalid);
  }

  /** No row to compare to: a good certificate does not clear the alert. */
  lemma Strands(w: World, m: Monitor, a: Action)
    requires Can(w, m, a) && a.Scanned? && a.scan == Scan("", GOOD) && a.until <= 1_000 * DAY
    requires Active(w, m, ChainInvalid) && !Explained(a.previous, ChainInvalid, a.t)
    ensures Active(Next(w, m, a), m, ChainInvalid) && !Agrees(Next(w, m, a), m, GOOD, a.until)
  {
    ActiveAfterScan(w, m, a, ChainInvalid);
    assert !HasProblem(GOOD, ChainInvalid, a.until);
  }

  const RETENTION := 30 * DAY
  const PURGE := Purged(80 * DAY, RETENTION)

  /** Raised, purged with its row after eighty days without a scan, fixed: the alert stays. */
  lemma PurgedHistoryStrandsAlert(m: Monitor, w: World)
    requires Unknown(w, m) && w.now == 0
    ensures Can(w, m, RAISED)
    ensures var w1 := Next(w, m, RAISED);
            Can(w1, m, PURGE) && var w2 := Next(w1, m, PURGE);
            var a := Scheduled(GOOD, 80 * DAY, None);
            Can(w2, m, a) && !Agrees(Next(w2, m, a), m, GOOD, 80 * DAY)
  {
    RaisedIs(m, w);
    var w1 := Next(w, m, RAISED);
    var w2 := Next(w1, m, PURGE);
    assert BAD_ROW.at < Cut(50 * DAY);
    assert Recent(w1.rows, Cut(50 * DAY)) == [] by { assert w1.rows[..0] == []; }
    assert w2.rows == [] && Active(w2, m, ChainInvalid);
    Strands(w2, m, Scheduled(GOOD, 80 * DAY, None));
  }

  const FIRST := Scheduled(GOOD, SECOND, None)
  const SECOND_LATER := Scheduled(BAD, SECOND + 1, Some(GOOD_ROW))
  const THIRD := Scheduled(GOOD, 2 * SECOND, Some(GOOD_ROW))

  lemma SameSecondRows(m: Monitor, w: World)
    requires Unknown(w, m) && w.now == 0
    ensures Can(w, m, FIRST)
    ensures var w1 := Next(w, m, FIRST);
            Can(w1, m, SECOND_LATER) && var w2 := Next(w1, m, SECOND_LATER);
            w2.rows == [GOOD_ROW, BAD_ROW] && w2.now == SECOND + 1 && Active(w2, m, ChainInvalid)
  {
    ScheduledStores(w, m, FIRST);
    assert [] + [GOOD_ROW] == [GOOD_ROW] && [GOOD_ROW] + [BAD_ROW] == [GOOD_ROW, BAD_ROW];
    var w1 := Next(w, m, FIRST);
    ScheduledStores(w1, m, SECOND_LATER);
    ActiveAfterScan(w1, m, SECOND_LATER, ChainInvalid);
  }

  /** Two scans stored in one second, the store gives the older: the alert of the newer is not cleared. */
  lemma SameSecondStrandsAlert(m: Monitor, w: World)
    requires Unknown(w, m) && w.now == 0
    ensures Can(w, m, FIRST)
    ensures var w1 := Next(w, m, FIRST);
            Can(w1, m, SECOND_LATER) && var w2 := Next(w1, m, SECOND_LATER);
            Can(w2, m, THIRD) && !Agrees(Next(w2, m, THIRD), m, GOOD, 2 * SECOND)
  {
    SameSecondRows(m, w);
    var w2 := Next(Next(w, m, FIRST), m, SECOND_LATER);
    assert BAD_ROW.at == GOOD_ROW.at;
    assert GOOD_ROW in w2.rows && forall r :: r in w2.rows ==> r == GOOD_ROW || r == BAD_ROW;
    Strands(w2, m, THIRD);
  }

  const FIXED := Scheduled(GOOD, 2 * SECOND, Some(BAD_ROW))
  const FIXED_ROW := Stored(Scan("", GOOD), 2 * SECOND)
  const AGAIN := Scheduled(GOOD, 3 * SECOND, Some(FIXED_ROW))

  lemma Prepend(w: World, m: Monitor, a: Action, actions: seq<Action>, v: World)
    requires Can(w, m, a) && AnyRun(Next(w, m, a), m, actions, v)
    ensures AnyRun(w, m, [a] + actions, v)
  {
    assert ([a] + actions)[1..] == actions;
  }

  lemma FixedIs(w: World, m: Monitor)
    requires Inv(w, m) && w.rows == [BAD_ROW] && w.now == SECOND + 1 && w.channel.queue == []
    ensures Can(w, m, FIXED)
    ensures var v := Next(w, m, FIXED);
            v.rows == [BAD_ROW] + [FIXED_ROW] && v.now == 2 * SECOND && v.channel.engine == w.channel.engine
            && Agrees(v, m, GOOD, 2 * SECOND)
  {
    AgreesAfterScan(w, m, FIXED);
    ScheduledStores(w, m, FIXED);
  }

  /** The engine takes what is queued, and then the certificate is found fixed. */
  lemma {:induction false} DrainsAndFixes(w: World, m: Monitor) returns (actions: seq<Action>, v: World)
    requires Inv(w, m) && w.rows == [BAD_ROW] && w.now == SECOND + 1 && Active(w, m, ChainInvalid)
    ensures AnyRun(w, m, actions, v) && Agrees(v, m, GOOD, 2 * SECOND)
    ensures MirrorsStore(v.channel.engine) && ProblemKey(m, ChainInvalid) in v.channel.engine.active
    ensures v.rows == [BAD_ROW] + [FIXED_ROW] && v.now == 2 * SECOND
    decreases |w.channel.queue|
  {
    if w.channel.queue == [] {
      FixedIs(w, m);
      v := Next(w, m, FIXED);
      assert AnyRun(v, m, [], v);
      Prepend(w, m, FIXED, [], v);
      actions := [FIXED] + [];
    } else {
      ChannelKeeps(w, m, Deliver);
      SettledDelivered(w.channel, ProblemKey(m, ChainInvalid));
      actions, v := DrainsAndFixes(Next(w, m, Deliver), m);
      Prepend(w, m, Deliver, actions, v);
      actions := [Deliver] + actions;
    }
  }

  /** Some list of the active alerts, as a restart reads it. */
  lemma {:induction false} ActiveListing(store: map<nat, Alert>, ids: set<nat>) returns (listed: seq<nat>)
    requires ids <= store.Keys
    ensures forall i :: i in listed <==> i in ids && store[i].status.Active?
    decreases |ids|
  {
    if ids == {} {
      listed := [];
    } else {
      var i :| i in ids;
      listed := ActiveListing(store, ids - {i});
      if store[i].status.Active? {
        listed := listed + [i];
      }
    }
  }

  /** The recovery is queued when the process stops: the next scan compares to a good row, and the alert stays. */
  lemma LostRecoveryStrandsAlert(m: Monitor, w: World) returns (actions: seq<Action>, v: World, listed: seq<nat>)
    requires Unknown(w, m) && w.now == 0
    ensures AnyRun(w, m, actions, v) && Agrees(v, m, GOOD, 2 * SECOND) && Can(v, m, Reboot(listed))
    ensures var u := Next(v, m, Reboot(listed));
            Can(u, m, AGAIN) && !Agrees(Next(u, m, AGAIN), m, GOOD, 3 * SECOND)
  {
    RaisedIs(m, w);
    StepKeeps(w, m, RAISED);
    actions, v := DrainsAndFixes(Next(w, m, RAISED), m);
    Prepend(w, m, RAISED, actions, v);
    actions := [RAISED] + actions;
    listed := ActiveListing(v.channel.engine.store, v.channel.engine.store.Keys);
    StaysAfterRestart(v, m, listed);
  }

  lemma StaysAfterRestart(v: World, m: Monitor, listed: seq<nat>)
    requires MirrorsStore(v.channel.engine) && ListsActive(v.channel.engine.store, listed)
    requires ProblemKey(m, ChainInvalid) in v.channel.engine.active && v.rows == [BAD_ROW] + [FIXED_ROW]
    requires v.now == 2 * SECOND
    ensures var u := Next(v, m, Reboot(listed));
            Can(u, m, AGAIN) && !Agrees(Next(u, m, AGAIN), m, GOOD, 3 * SECOND)
  {
    var u := Next(v, m, Reboot(listed));
    SettledRebooted(v.channel, listed, ProblemKey(m, ChainInvalid));
    assert forall r :: r in u.rows ==> r == BAD_ROW || r == FIXED_ROW;
    assert FIXED_ROW == u.rows[1] && BAD_ROW.at <= FIXED_ROW.at;
    Strands(u, m, AGAIN);
  }

  // ---------------------------------------------------------------- expiry warnings

  lemma NoticeWord(m: Monitor, n: Option<Notice>, severity: string, now: int)
    ensures LastWord(NoticeEvents(m, n, severity, now), ExpiringKey(m)) ==
            if n.None? then None else Some(n.value.Warned?)
  {
    var e := NoticeEvents(m, n, severity, now);
    if e != [] {
      assert e[..0] == [];
    }
  }

  /** What a scan says of the expiring alert is what the threshold on record then says. */
  lemma ScanSpeaks(m: Monitor, previous: Option<Row>, last: Option<int>, scan: Scan, auto: bool, t: int, now: int)
    ensures var n, e := NoticeOf(m, last, scan, now), ScanEvents(m, previous, last, scan, auto, t, now);
            && Speaks(e, ExpiringKey(m), last.Some?, Noticed(last, n).Some?)
            && (LastWord(e, ExpiringKey(m)).None? <==> n.None?)
  {
    var c, k := scan.cert, ExpiringKey(m);
    if scan.error == "" {
      var x, y := Clears(m, previous, c, t, now, CLEARABLE), Raises(m, c, now, CLEARABLE);
      var n, severity := NoticeOf(m, last, scan, now), ExpiringSeverity(DaysLeft(c.notAfter, now), auto);
      ProblemEventsKeys(m, previous, c, t, now, CLEARABLE);
      NoWord(x, k);
      NoWord(y, k);
      LastWordAppend(x, y, k);
      LastWordAppend(x + y, NoticeEvents(m, n, severity, now), k);
      NoticeWord(m, n, severity, now);
    }
  }

  ghost predicate ExpiringInv(w: World, m: Monitor) {
    MirrorsStore(w.channel.engine) && Tracks(w.channel, ExpiringKey(m), w.last.Some?, w.lost)
  }

  lemma ExpiringStep(w: World, m: Monitor, a: Action)
    requires ExpiringInv(w, m) && Can(w, m, a)
    ensures ExpiringInv(Next(w, m, a), m)
  {
    var k, v := ExpiringKey(m), Next(w, m, a);
    match a {
      case Scanned(scan, pushed, auto, t, until, previous) =>
        var e := ScanEvents(m, previous, w.last, scan, auto, t, until);
        ScanSpeaks(m, previous, w.last, scan, auto, t, until);
        EmittedTracks(w.channel, k, w.last.Some?, w.lost, e, v.last.Some?);
      case Purged(_, _) =>
      case Elsewhere(evt) =>
        NoWord([evt], k);
        EmittedTracks(w.channel, k, w.last.Some?, w.lost, [evt], w.last.Some?);
      case Deliver =>
        DeliveredMirrors(w.channel);
        DeliveredTracks(w.channel, k, w.last.Some?, w.lost);
      case Reboot(listed) =>
        SettledRebooted(w.channel, listed, k);
        RebootedTracks(w.channel, k, w.last.Some?, w.lost, listed);
    }
  }

  /** Any run, spaced or not. */
  ghost predicate AnyRun(w: World, m: Monitor, actions: seq<Action>, v: World)
    decreases |actions|
  {
    if actions == [] then v == w
    else Can(w, m, actions[0]) && AnyRun(Next(w, m, actions[0]), m, actions[1..], v)
  }

  lemma {:induction false} ExpiringRun(w: World, m: Monitor, actions: seq<Action>, v: World)
    requires ExpiringInv(w, m) && AnyRun(w, m, actions, v)
    ensures ExpiringInv(v, m)
    decreases |actions|
  {
    if actions != [] {
      ExpiringStep(w, m, actions[0]);
      ExpiringRun(Next(w, m, actions[0]), m, actions[1..], v);
    }
  }

  /** The action says a word on the expiring alert. */
  ghost predicate SaysWord(w: World, m: Monitor, a: Action) {
    a.Scanned? && NoticeOf(m, w.last, a.scan, a.until).Some?
  }

  ghost predicate StaysSilent(w: World, m: Monitor, actions: seq<Action>)
    decreases |actions|
  {
    actions == [] || (Can(w, m, actions[0]) && !SaysWord(w, m, actions[0])
                      && StaysSilent(Next(w, m, actions[0]), m, actions[1..]))
  }

  /** Some restart of the run loses the last word on the expiring alert, and nothing after it says another. */
  ghost predicate ForgetsWord(w: World, m: Monitor, actions: seq<Action>)
    decreases |actions|
  {
    && actions != [] && Can(w, m, actions[0])
    && var v := Next(w, m, actions[0]);
       (actions[0].Reboot? && LosesWord(w.channel, ExpiringKey(m)) && StaysSilent(v, m, actions[1..]))
       || ForgetsWord(v, m, actions[1..])
  }

  lemma {:induction false} LostIff(w: World, m: Monitor, actions: seq<Action>, v: World)
    requires AnyRun(w, m, actions, v)
    ensures v.lost <==> ForgetsWord(w, m, actions) || (w.lost && StaysSilent(w, m, actions))
    decreases |actions|
  {
    if actions != [] {
      LostIff(Next(w, m, actions[0]), m, actions[1..], v);
    }
  }

  /**
   * Over every run the expiring alert settles at whether a threshold is on record, if and only
   * if no restart lost the last word on it with no warning or renewal since.
   */
  lemma ExpiringFollowsThresholdIff(w: World, m: Monitor, actions: seq<Action>, v: World)
    requires Unknown(w, m) && AnyRun(w, m, actions, v)
    ensures Settled(v.channel, ExpiringKey(m)) == v.last.Some? <==> !ForgetsWord(w, m, actions)
  {
    ExpiringRun(w, m, actions, v);
    LostIff(w, m, actions, v);
  }

  const DUE := GOOD.(notAfter := 2 * DAY)

  /** A first warning is queued when the process stops: the threshold is on record, and nothing is active. */
  lemma RestartLosesWarning(m: Monitor)
    requires 1 in m.thresholds
    ensures var w := World([], None, Channel(EMPTY_STATE, []), 0, false);
            var a := Scheduled(DUE, DAY, None);
            Unknown(w, m) && Can(w, m, a) && var w1 := Next(w, m, a);
            Can(w1, m, Reboot([])) && var w2 := Next(w1, m, Reboot([]));
            w2.last.Some? && w2.lost && w2.channel.queue == [] && ExpiringKey(m) !in w2.channel.engine.active
  {
    var w := World([], None, Channel(EMPTY_STATE, []), 0, false);
    var a := Scheduled(DUE, DAY, None);
    CrossedIs(m.thresholds, 1);
    assert DaysLeft(2 * DAY, DAY) == 1;
    assert NoticeOf(m, None, a.scan, DAY).Some?;
    ScanSpeaks(m, None, None, a.scan, false, DAY, DAY);
    var w1 := Next(w, m, a);
    assert [] + w1.channel.queue == w1.channel.queue;
    assert LosesWord(w1.channel, ExpiringKey(m));
  }

  /** The warnings and renewals a run announces, in order. */
  ghost function Notices(w: World, m: Monitor, actions: seq<Action>): (r: seq<Notice>)
    decreases |actions|
  {
    if actions == [] || !Can(w, m, actions[0]) then []
    else
      var n := if actions[0].Scanned? then NoticeOf(m, w.last, actions[0].scan, actions[0].until) else None;
      (if n.Some? then [n.value] else []) + Notices(Next(w, m, actions[0]), m, actions[1..])
  }

  /** A list of notices that can follow a recorded threshold. */
  ghost predicate Follows(last: Option<int>, ns: seq<Notice>)
    decreases |ns|
  {
    if ns == [] then true
    else
      && (ns[0].Renewed? ==> last.Some?)
      && (ns[0].Warned? && last.Some? ==> ns[0].threshold < last.value)
      && Follows(Noticed(last, Some(ns[0])), ns[1..])
  }

  lemma {:induction false} NoticesFollow(w: World, m: Monitor, actions: seq<Action>)
    ensures Follows(w.last, Notices(w, m, actions))
    decreases |actions|
  {
    if actions != [] && Can(w, m, actions[0]) {
      NoticesFollow(Next(w, m, actions[0]), m, actions[1..]);
      var n := if actions[0].Scanned? then NoticeOf(m, w.last, actions[0].scan, actions[0].until) else None;
      var rest := Notices(Next(w, m, actions[0]), m, actions[1..]);
      if n.Some? {
        assert ([n.value] + rest)[1..] == rest;
      } else {
        assert [] + rest == rest;
      }
    }
  }

  ghost predicate RenewedBetween(ns: seq<Notice>, i: int, j: int)
    requires 0 <= i && j <= |ns|
  {
    exists r :: i < r < j && ns[r].Renewed?
  }

  lemma {:induction false} FollowsDecreases(last: Option<int>, ns: seq<Notice>, j: nat)
    requires Follows(last, ns) && j < |ns| && ns[j].Warned? && forall r :: 0 <= r < j ==> ns[r].Warned?
    ensures last.Some? ==> ns[j].threshold < last.value
    ensures forall i :: 0 <= i < j ==> ns[j].threshold < ns[i].threshold
    decreases |ns|
  {
    if j > 0 {
      var rest := ns[1..];
      FollowsDecreases(Some(ns[0].threshold), rest, j - 1);
      forall i | 0 < i < j
        ensures ns[j].threshold < ns[i].threshold
      {
        assert rest[i - 1] == ns[i] && rest[j - 1] == ns[j];
      }
    }
  }

  lemma {:induction false} FollowsDrop(last: Option<int>, ns: seq<Notice>, i: nat) returns (l: Option<int>)
    requires Follows(last, ns) && i <= |ns|
    ensures Follows(l, ns[i..])
    decreases i
  {
    if i == 0 {
      l := last;
      assert ns[0..] == ns;
    } else {
      l := FollowsDrop(Noticed(last, Some(ns[0])), ns[1..], i - 1);
      assert ns[1..][i - 1..] == ns[i..];
    }
  }

  /** Between two renewals every warning is about a smaller threshold than the ones before it. */
  lemma WarningsDecreaseBetweenRenewals(w: World, m: Monitor, actions: seq<Action>, i: nat, j: nat)
    requires var ns := Notices(w, m, actions);
             i < j < |ns| && ns[i].Warned? && ns[j].Warned? && !RenewedBetween(ns, i, j)
    ensures var ns := Notices(w, m, actions); ns[j].threshold < ns[i].threshold
  {
    var ns := Notices(w, m, actions);
    NoticesFollow(w, m, actions);
    var l := FollowsDrop(w.last, ns, i);
    var rest := ns[i..];
    forall r | 0 <= r < j - i
      ensures rest[r].Warned?
    {
      assert rest[r] == ns[i + r];
    }
    assert rest[j - i] == ns[j] && rest[0] == ns[i];
    FollowsDecreases(l, rest, j - i);
  }

  // ---------------------------------------------------------------- in place

  class Checker {
    const monitor: Monitor
    var rows: seq<Row>
    var lastAlerted: Option<int>
    var status: Certificates.Status

    constructor (m: Monitor)
      ensures monitor == m && rows == [] && lastAlerted == None
    {
      monitor, rows, lastAlerted, status := m, [], None, Valid;
    }

    /** `judged` is when the status is computed, `now` when the alerts are. */
    method ProcessCheckResult(scan: Scan, pushed: bool, auto: bool, t: int, judged: int, now: int,
                              previous: Option<Row>)
      returns (events: seq<Event>)
      requires IsLatest(rows, previous)
      modifies this
      ensures rows == if Keeps(monitor, previous, scan, pushed, t) then old(rows) + [Stored(scan, t)] else old(rows)
      ensures status == if scan.error != "" then Broken else StatusOf(scan.cert, monitor.thresholds, judged)
      ensures events == ScanEvents(monitor, previous, old(lastAlerted), scan, auto, t, now)
      ensures lastAlerted == Noticed(old(lastAlerted), NoticeOf(monitor, old(lastAlerted), scan, now))
    {
      if scan.error != "" {
        status := Broken;
      } else {
        status := ComputeStatus(scan.cert, monitor.thresholds, judged);
      }
      if !pushed || previous.None? || t - previous.value.at >= monitor.interval || !SameOutcome(previous.value, scan) {
        rows := rows + [Stored(scan, t)];
      }
      events := EvaluateAlerts(scan, auto, t, now, previous);
    }

    method EvaluateAlerts(scan: Scan, auto: bool, t: int, now: int, previous: Option<Row>) returns (events: seq<Event>)
      modifies `lastAlerted
      ensures events == ScanEvents(monitor, previous, old(lastAlerted), scan, auto, t, now)
      ensures lastAlerted == Noticed(old(lastAlerted), NoticeOf(monitor, old(lastAlerted), scan, now))
    {
      if scan.error != "" {
        return [];
      }
      var clears := ClearAlerts(scan.cert, t, now, previous);
      var raises := RaiseAlerts(scan.cert, now);
      var expiry := EvaluateExpiry(scan, auto, now);
      events := clears + raises + expiry;
    }

    method ClearAlerts(c: Cert, t: int, now: int, previous: Option<Row>) returns (events: seq<Event>)
      ensures events == Clears(monitor, previous, c, t, now, CLEARABLE)
    {
      events := [];
      for i := 0 to |CLEARABLE|
        invariant events == Clears(monitor, previous, c, t, now, CLEARABLE[..i])
      {
        var p := CLEARABLE[i];
        assert CLEARABLE[..i + 1][..i] == CLEARABLE[..i];
        assert events + [] == events;
        if previous.Some? && !HasProblem(c, p, t)
            && (RowHasProblem(previous.value, p, t) || previous.value.error != "") {
          events := events + [Clear(monitor, ProblemKey(monitor, p), now)];
        }
      }
      assert CLEARABLE[..|CLEARABLE|] == CLEARABLE;
    }

    method RaiseAlerts(c: Cert, now: int) returns (events: seq<Event>)
      ensures events == Raises(monitor, c, now, CLEARABLE)
    {
      events := [];
      for i := 0 to |CLEARABLE|
        invariant events == Raises(monitor, c, now, CLEARABLE[..i])
      {
        var p := CLEARABLE[i];
        assert CLEARABLE[..i + 1][..i] == CLEARABLE[..i];
        assert events + [] == events;
        if HasProblem(c, p, now) {
          events := events + [Raise(monitor, ProblemKey(monitor, p), CRITICAL, now)];
        }
      }
      assert CLEARABLE[..|CLEARABLE|] == CLEARABLE;
    }

    method EvaluateExpiry(scan: Scan, auto: bool, now: int) returns (events: seq<Event>)
      requires scan.error == ""
      modifies `lastAlerted
      ensures var n := NoticeOf(monitor, old(lastAlerted), scan, now);
              && lastAlerted == Noticed(old(lastAlerted), n)
              && events == NoticeEvents(monitor, n, ExpiringSeverity(DaysLeft(scan.cert.notAfter, now), auto), now)
    {
      events := [];
      if scan.cert.notAfter < now {
        return;
      }
      var days := DaysLeft(scan.cert.notAfter, now);
      var crossed := CrossedThreshold(monitor.thresholds, days);
      if crossed.None? {
        if lastAlerted.Some? {
          events := [Clear(monitor, ExpiringKey(monitor), now)];
          lastAlerted := None;
        }
        return;
      }
      if lastAlerted.None? || crossed.value < lastAlerted.value {
        events := [Raise(monitor, ExpiringKey(monitor), ExpiringSeverity(days, auto), now)];
        lastAlerted := crossed;
      }
    }
  }
}
