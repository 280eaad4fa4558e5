/**
 * Certificate scans: what is stored, what is alerted and what is cleared
 * (internal/certificate/service.go), with times in nanoseconds and stored times cut to the
 * second.
 */
module Certificates {
  import opened Collections
  import opened AlertEngine
  import opened DetectorEvents

  const SECOND := 1_000_000_000
  const DAY := 86_400_000_000_000

  datatype Cert = Cert(subject: string, issuer: string, issuerOrg: string, sans: seq<string>, serial: string,
                       algorithm: string, notBefore: int, notAfter: int, chainValid: bool, chainError: string,
                       hostnameMatch: bool, ocspStapled: bool, ocspStatus: string, ocspError: string)

  /** A scan failed when it carries an error; only then is the certificate not looked at. */
  datatype Scan = Scan(error: string, cert: Cert)

  datatype Row = Row(error: string, cert: Option<Cert>, at: int)

  datatype Monitor = Monitor(id: string, host: string, agentId: string, thresholds: seq<int>, interval: int)

  datatype Problem = ChainInvalid | HostnameMismatch | OcspRevoked | Expired

  const CLEARABLE := [ChainInvalid, HostnameMismatch, OcspRevoked, Expired]

  function Cut(t: int): (r: int) {
    t / SECOND * SECOND
  }

  function CutDates(c: Cert): (r: Cert) {
    c.(notBefore := Cut(c.notBefore), notAfter := Cut(c.notAfter))
  }

  function Outcome(scan: Scan): (r: Option<Cert>) {
    if scan.error != "" then None else Some(CutDates(scan.cert))
  }

  function Stored(scan: Scan, t: int): (r: Row) {
    Row(scan.error, Outcome(scan), Cut(t))
  }

  /** The same certificate in the same state, at the second precision the store keeps. */
  predicate SameOutcome(row: Row, scan: Scan) {
    row.error == scan.error && row.cert == Outcome(scan)
  }

  predicate HasProblem(c: Cert, p: Problem, at: int) {
    match p
    case ChainInvalid => !c.chainValid
    case HostnameMismatch => !c.hostnameMatch
    case OcspRevoked => c.ocspStatus == "revoked"
    case Expired => c.notAfter < at
  }

  predicate RowHasProblem(row: Row, p: Problem, at: int) {
    row.cert.Some? && HasProblem(row.cert.value, p, at)
  }

  // ---------------------------------------------------------------- events

  const SOURCE := "certificate"
  const ENTITY := "certificate"

  function TypeName(p: Problem): (r: string) {
    match p
    case ChainInvalid => "chain_invalid"
    case HostnameMismatch => "hostname_mismatch"
    case OcspRevoked => "ocsp_revoked"
    case Expired => "expired"
  }

  function ProblemKey(m: Monitor, p: Problem): (k: Key) {
    Key(SOURCE, TypeName(p), ENTITY, m.id)
  }

  function ExpiringKey(m: Monitor): (k: Key) {
    Key(SOURCE, "expiring", ENTITY, m.id)
  }

  lemma KeysDiffer(m: Monitor, p: Problem, q: Problem)
    ensures ProblemKey(m, p) == ProblemKey(m, q) ==> p == q
    ensures ProblemKey(m, p) != ExpiringKey(m)
  {
    var a, b := TypeName(p), TypeName(q);
    assert |"chain_invalid"| == 13 && |"hostname_mismatch"| == 17 && |"ocsp_revoked"| == 12 && |"expired"| == 7
      && |"expiring"| == 8;
  }

  function Raise(m: Monitor, k: Key, severity: string, now: int): (e: Event) {
    Event(k, severity, false, "Certificate alert", m.host, m.agentId, "{}", now)
  }

  function Clear(m: Monitor, k: Key, now: int): (e: Event) {
    Event(k, INFO, true, "Certificate recovery", m.host, m.agentId, "{}", now)
  }

  /** Absent now, and present in the row before or unknown since that scan failed. */
  predicate Cleared(previous: Option<Row>, c: Cert, p: Problem, t: int) {
    previous.Some? && !HasProblem(c, p, t) && (RowHasProblem(previous.value, p, t) || previous.value.error != "")
  }

  function Clears(m: Monitor, previous: Option<Row>, c: Cert, t: int, now: int, ps: seq<Problem>): (e: seq<Event>) {
    if ps == [] then []
    else
      var n := |ps| - 1;
      Clears(m, previous, c, t, now, ps[..n])
      + if Cleared(previous, c, ps[n], t) then [Clear(m, ProblemKey(m, ps[n]), now)] else []
  }

  function Raises(m: Monitor, c: Cert, now: int, ps: seq<Problem>): (e: seq<Event>) {
    if ps == [] then []
    else
      var n := |ps| - 1;
      Raises(m, c, now, ps[..n])
      + if HasProblem(c, ps[n], now) then [Raise(m, ProblemKey(m, ps[n]), CRITICAL, now)] else []
  }

  // ---------------------------------------------------------------- expiry thresholds

  /** Whole days, cut towards zero. */
  function DaysLeft(notAfter: int, now: int): (d: int) {
    if notAfter >= now then (notAfter - now) / DAY else -((now - notAfter) / DAY)
  }

  /** The smallest threshold at or above the days left, if any. */
  ghost predicate IsCrossed(thresholds: seq<int>, days: int, r: Option<int>) {
    if r.Some? then
      r.value in thresholds && days <= r.value && forall x :: x in thresholds && days <= x ==> r.value <= x
    else forall x :: x in thresholds ==> x < days
  }

  function Crossed(thresholds: seq<int>, days: int): (r: Option<int>) {
    if thresholds == [] then None
    else
      var x, rest := thresholds[0], Crossed(thresholds[1..], days);
      if days <= x && (rest.None? || x < rest.value) then Some(x) else rest
  }

  lemma {:induction false} CrossedIs(thresholds: seq<int>, days: int)
    ensures IsCrossed(thresholds, days, Crossed(thresholds, days))
  {
    if thresholds != [] {
      CrossedIs(thresholds[1..], days);
      assert thresholds == [thresholds[0]] + thresholds[1..];
    }
  }

  predicate Descending(s: seq<int>) {
    forall i, j :: 0 <= i <= j < |s| ==> s[i] >= s[j]
  }

  function Inserted(s: seq<int>, x: int): (r: seq<int>) {
    if s == [] || s[0] <= x then [x] + s else [s[0]] + Inserted(s[1..], x)
  }

  function SortedDescending(s: seq<int>): (r: seq<int>) {
    if s == [] then [] else Inserted(SortedDescending(s[1..]), s[0])
  }

  lemma {:induction false} InsertedIs(s: seq<int>, x: int)
    requires Descending(s)
    ensures Descending(Inserted(s, x)) && forall y :: y in Inserted(s, x) <==> y == x || y in s
  {
    if s != [] && s[0] > x {
      InsertedIs(s[1..], x);
      assert s == [s[0]] + s[1..];
      var rest := Inserted(s[1..], x);
      forall i | 0 <= i < |rest|
        ensures rest[i] <= s[0]
      {
        assert rest[i] in rest;
        if rest[i] != x {
          var j :| 0 <= j < |s[1..]| && s[1..][j] == rest[i];
        }
      }
    }
  }

  lemma {:induction false} SortedIs(s: seq<int>)
    ensures Descending(SortedDescending(s)) && forall y :: y in SortedDescending(s) <==> y in s
  {
    if s != [] {
      SortedIs(s[1..]);
      InsertedIs(SortedDescending(s[1..]), s[0]);
      assert s == [s[0]] + s[1..];
    }
  }

  /** Walking down a sorted copy, the last threshold crossed is the smallest. */
  method CrossedThreshold(thresholds: seq<int>, days: int) returns (r: Option<int>)
    ensures IsCrossed(thresholds, days, r)
    ensures r == Crossed(thresholds, days)
  {
    var sorted := SortedDescending(thresholds);
    SortedIs(thresholds);
    r := None;
    for i := 0 to |sorted|
      invariant IsCrossed(sorted[..i], days, r)
    {
      assert sorted[..i + 1] == sorted[..i] + [sorted[i]];
      if days <= sorted[i] {
        r := Some(sorted[i]);
      }
    }
    assert sorted[..|sorted|] == sorted;
    CrossedIs(thresholds, days);
  }

  datatype Status = Valid | Expiring | PastExpiry | Broken

  /** The status shown: expired, or expiring exactly when some threshold is crossed. */
  method ComputeStatus(c: Cert, thresholds: seq<int>, now: int) returns (s: Status)
    ensures s == StatusOf(c, thresholds, now)
    ensures s.Expiring? <==> now <= c.notAfter && exists x :: x in thresholds && DaysLeft(c.notAfter, now) <= x
  {
    if c.notAfter < now {
      return PastExpiry;
    }
    var days := DaysLeft(c.notAfter, now);
    CrossedIs(thresholds, days);
    var sorted := SortedDescending(thresholds);
    SortedIs(thresholds);
    for i := 0 to |sorted|
      invariant forall j :: 0 <= j < i ==> days > sorted[j]
    {
      if days <= sorted[i] {
        assert sorted[i] in sorted;
        return Expiring;
      }
    }
    s := Valid;
  }

  function StatusOf(c: Cert, thresholds: seq<int>, now: int): (s: Status) {
    if c.notAfter < now then PastExpiry
    else if Crossed(thresholds, DaysLeft(c.notAfter, now)).Some? then Expiring else Valid
  }

  const AUTO_CRITICAL_DAYS := 3
  const AUTO_WARNING_DAYS := 7
  const CRITICAL_DAYS := 7
  const WARNING_DAYS := 14

  /** Issuers that renew on their own get the lower severity. */
  function ExpiringSeverity(days: int, autoRenewable: bool): (r: string) {
    if autoRenewable then
      if days <= AUTO_CRITICAL_DAYS then CRITICAL else if days <= AUTO_WARNING_DAYS then WARNING else INFO
    else if days <= CRITICAL_DAYS then CRITICAL else if days <= WARNING_DAYS then WARNING else INFO
  }

  /** Fewer days left never lower the severity, and a self-renewing issuer never raises it. */
  lemma SeverityRises(days: int, fewer: int, auto: bool)
    requires fewer <= days
    ensures Rank(ExpiringSeverity(days, auto)) <= Rank(ExpiringSeverity(fewer, auto))
    ensures Rank(ExpiringSeverity(days, true)) <= Rank(ExpiringSeverity(days, false))
  {
  }

  /** What a scan that is not expired does about the thresholds. */
  datatype Notice = Warned(threshold: int) | Renewed

  function ExpiryNotice(last: Option<int>, crossed: Option<int>): (r: Option<Notice>) {
    if crossed.None? then if last.Some? then Some(Renewed) else None
    else if last.None? || crossed.value < last.value then Some(Warned(crossed.value))
    else None
  }

  function Noticed(last: Option<int>, n: Option<Notice>): (r: Option<int>) {
    if n.None? then last else if n.value.Renewed? then None else Some(n.value.threshold)
  }

  function NoticeOf(m: Monitor, last: Option<int>, scan: Scan, now: int): (r: Option<Notice>) {
    if scan.error != "" || scan.cert.notAfter < now then None
    else ExpiryNotice(last, Crossed(m.thresholds, DaysLeft(scan.cert.notAfter, now)))
  }

  function NoticeEvents(m: Monitor, n: Option<Notice>, severity: string, now: int): (e: seq<Event>) {
    if n.None? then []
    else if n.value.Renewed? then [Clear(m, ExpiringKey(m), now)]
    else [Raise(m, ExpiringKey(m), severity, now)]
  }

  // ---------------------------------------------------------------- one scan

  /** `t` is when the scan was checked, `now` when its alerts are judged. */
  function ScanEvents(m: Monitor, previous: Option<Row>, last: Option<int>, scan: Scan, auto: bool, t: int,
                      now: int): (e: seq<Event>) {
    if scan.error != "" then []
    else
      var c := scan.cert;
      Clears(m, previous, c, t, now, CLEARABLE) + Raises(m, c, now, CLEARABLE)
      + NoticeEvents(m, NoticeOf(m, last, scan, now), ExpiringSeverity(DaysLeft(c.notAfter, now), auto), now)
  }

  /** A pushed scan is stored once per interval or when its outcome changes; any other is stored. */
  predicate Keeps(m: Monitor, previous: Option<Row>, scan: Scan, pushed: bool, t: int) {
    !pushed || previous.None? || t - previous.value.at >= m.interval || !SameOutcome(previous.value, scan)
  }

  // ---------------------------------------------------------------- what one scan says of each key

  lemma SaysOneMore(x: seq<Event>, e: Event, k: Key, before: bool)
    ensures Says(x + [e], k, before) == if e.key == k then !e.isRecover else Says(x, k, before)
  {
    assert (x + [e])[..|x|] == x;
  }

  lemma {:induction false} ClearsSay(m: Monitor, previous: Option<Row>, c: Cert, t: int, now: int, ps: seq<Problem>,
                                     p: Problem, before: bool)
    ensures Says(Clears(m, previous, c, t, now, ps), ProblemKey(m, p), before)
            == (before && !(p in ps && Cleared(previous, c, p, t)))
  {
    if ps != [] {
      var n := |ps| - 1;
      ClearsSay(m, previous, c, t, now, ps[..n], p, before);
      assert ps == ps[..n] + [ps[n]];
      KeysDiffer(m, p, ps[n]);
      assert Clears(m, previous, c, t, now, ps[..n]) + [] == Clears(m, previous, c, t, now, ps[..n]);
      SaysOneMore(Clears(m, previous, c, t, now, ps[..n]), Clear(m, ProblemKey(m, ps[n]), now), ProblemKey(m, p),
        before);
    }
  }

  lemma {:induction false} RaisesSay(m: Monitor, c: Cert, now: int, ps: seq<Problem>, p: Problem, before: bool)
    ensures Says(Raises(m, c, now, ps), ProblemKey(m, p), before) == (before || (p in ps && HasProblem(c, p, now)))
  {
    if ps != [] {
      var n := |ps| - 1;
      RaisesSay(m, c, now, ps[..n], p, before);
      assert ps == ps[..n] + [ps[n]];
      KeysDiffer(m, p, ps[n]);
      assert Raises(m, c, now, ps[..n]) + [] == Raises(m, c, now, ps[..n]);
      SaysOneMore(Raises(m, c, now, ps[..n]), Raise(m, ProblemKey(m, ps[n]), CRITICAL, now), ProblemKey(m, p), before);
    }
  }

  lemma {:induction false} OthersSilent(e: seq<Event>, k: Key, before: bool)
    requires forall i :: 0 <= i < |e| ==> e[i].key != k
    ensures Says(e, k, before) == before
  {
    if e != [] {
      OthersSilent(e[..|e| - 1], k, before);
    }
  }

  lemma {:induction false} ProblemEventsKeys(m: Monitor, previous: Option<Row>, c: Cert, t: int, now: int,
                                             ps: seq<Problem>)
    ensures forall i :: 0 <= i < |Clears(m, previous, c, t, now, ps)| ==>
            Clears(m, previous, c, t, now, ps)[i].key != ExpiringKey(m)
    ensures forall i :: 0 <= i < |Raises(m, c, now, ps)| ==> Raises(m, c, now, ps)[i].key != ExpiringKey(m)
  {
    if ps != [] {
      ProblemEventsKeys(m, previous, c, t, now, ps[..|ps| - 1]);
      KeysDiffer(m, ps[|ps| - 1], ChainInvalid);
    }
  }

  /** A successful scan leaves each problem's alert active exactly when it has it, or nothing cleared it. */
  lemma ScanSaysProblem(m: Monitor, previous: Option<Row>, last: Option<int>, scan: Scan, auto: bool, t: int, now: int,
                        p: Problem, before: bool)
    requires scan.error == ""
    ensures Says(ScanEvents(m, previous, last, scan, auto, t, now), ProblemKey(m, p), before)
            == (HasProblem(scan.cert, p, now) || (before && !Cleared(previous, scan.cert, p, t)))
  {
    var c, k := scan.cert, ProblemKey(m, p);
    var x, y := Clears(m, previous, c, t, now, CLEARABLE), Raises(m, c, now, CLEARABLE);
    var z := NoticeEvents(m, NoticeOf(m, last, scan, now), ExpiringSeverity(DaysLeft(c.notAfter, now), auto), now);
    assert p in CLEARABLE by {
      assert CLEARABLE[0] == ChainInvalid && CLEARABLE[1] == HostnameMismatch;
      assert CLEARABLE[2] == OcspRevoked && CLEARABLE[3] == Expired;
    }
    ClearsSay(m, previous, c, t, now, CLEARABLE, p, before);
    RaisesSay(m, c, now, CLEARABLE, p, Says(x, k, before));
    SaysAppend(x, y, k, before);
    SaysAppend(x + y, z, k, before);
    KeysDiffer(m, p, p);
    OthersSilent(z, k, Says(x + y, k, before));
  }
}
