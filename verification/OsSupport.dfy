/**
 * Where a host stands in its operating system's support cycle on a given day
 * (internal/eol/support.go, internal/eol/table.go, internal/eol/match.go).
 */
module OsSupport {
  import opened Collections

  const WARNING_DAYS := 30
  const SECONDS_PER_DAY := 86400

  /** The longest span a 64-bit nanosecond duration holds, in whole days. */
  const DURATION_DAYS := 106751

  const PRODUCTS := ["debian", "ubuntu", "rhel", "rocky-linux", "almalinux", "alpine-linux", "sles"]

  datatype SupportState = Unknown | Untracked | Supported | SecurityOnly | EndingSoon | Ended

  datatype Identity = Identity(id: string, versionId: string, prettyName: string, source: string,
                               unavailableReason: string)

  /** Dates are days since the epoch; a missing security date is the zero date. */
  datatype Cycle = Cycle(name: string, activeUntil: Option<int>, securityUntil: Option<int>, extendedUntil: Option<int>)

  type Table = map<string, seq<Cycle>>

  const ZERO_DATE := -719162

  function Day(now: int): (day: int) {
    now / SECONDS_PER_DAY
  }

  function DaysUntil(date: int, today: int): (days: int) {
    var days := date - today;
    if days > DURATION_DAYS then DURATION_DAYS else if days < -DURATION_DAYS then -DURATION_DAYS else days
  }

  function Cycles(table: Table, product: string): (r: seq<Cycle>) {
    if product in table then table[product] else []
  }

  function CycleOf(cycles: seq<Cycle>, name: string): (r: Option<Cycle>) {
    if cycles == [] then None else if cycles[0].name == name then Some(cycles[0]) else CycleOf(cycles[1..], name)
  }

  /** What stands before the first dot that ends the given number of parts. */
  function VersionPrefix(version: string, parts: nat): (r: string) {
    if version == "" || (version[0] == '.' && parts == 1) then ""
    else [version[0]] + VersionPrefix(version[1..], if version[0] == '.' && parts > 1 then parts - 1 else parts)
  }

  function Dots(s: string): (n: nat) {
    if s == "" then 0 else (if s[0] == '.' then 1 else 0) + Dots(s[1..])
  }

  /** The first parts of a version: all of it when it has no more, otherwise up to the dot that follows them. */
  lemma {:induction false} VersionPrefixIs(version: string, parts: nat)
    requires 0 < parts
    ensures var r := VersionPrefix(version, parts);
            && r <= version && Dots(r) < parts
            && (r == version || (version[|r|] == '.' && Dots(r) == parts - 1))
  {
    if version != "" && !(version[0] == '.' && parts == 1) {
      var left := if version[0] == '.' then parts - 1 else parts;
      VersionPrefixIs(version[1..], left);
      var rest := VersionPrefix(version[1..], left);
      assert ([version[0]] + rest)[1..] == rest;
      assert version == [version[0]] + version[1..];
    }
  }

  function Match(id: string, version: string): (r: Option<(string, string)>) {
    if version == "" then None
    else if id == "debian" || id == "ubuntu" || id == "sles" then Some((id, version))
    else if id == "rhel" || id == "almalinux" then Some((id, VersionPrefix(version, 1)))
    else if id == "rocky" then Some(("rocky-linux", VersionPrefix(version, 1)))
    else if id == "alpine" then Some(("alpine-linux", VersionPrefix(version, 2)))
    else None
  }

  function SecurityUntil(c: Cycle): (date: int) {
    if c.securityUntil.Some? then c.securityUntil.value else ZERO_DATE
  }

  function StateOn(c: Cycle, today: int): (s: SupportState) {
    var days := DaysUntil(SecurityUntil(c), today);
    if days < 0 then Ended
    else if days <= WARNING_DAYS then EndingSoon
    else if c.activeUntil.Some? && DaysUntil(c.activeUntil.value, today) < 0 then SecurityOnly
    else Supported
  }

  function Evaluate(identity: Identity, table: Table, now: int): (s: SupportState) {
    if identity.id == "" && (identity.unavailableReason != "" || identity == Identity("", "", "", "", "")) then Unknown
    else
      var m := Match(identity.id, identity.versionId);
      if m.None? then Untracked
      else
        var c := CycleOf(Cycles(table, m.value.0), m.value.1);
        if c.None? then Untracked else StateOn(c.value, Day(now))
  }

  // ---------------------------------------------------------------- as days pass

  function Rank(s: SupportState): (r: int) {
    match s
    case Supported => 1
    case SecurityOnly => 2
    case EndingSoon => 3
    case Ended => 4
    case _ => 0
  }

  /** The saturating subtraction never changes a verdict: each state is a plain comparison of dates. */
  lemma StateOnDates(c: Cycle, today: int)
    ensures StateOn(c, today).Ended? <==> SecurityUntil(c) < today
    ensures StateOn(c, today).EndingSoon? <==> today <= SecurityUntil(c) <= today + WARNING_DAYS
    ensures StateOn(c, today).SecurityOnly? <==>
              today + WARNING_DAYS < SecurityUntil(c) && c.activeUntil.Some? && c.activeUntil.value < today
  {
  }

  /** With the table and the host's system fixed, time only moves a host towards its end of support. */
  lemma StateNeverMovesBack(identity: Identity, table: Table, now: int, later: int)
    requires now <= later
    ensures Rank(Evaluate(identity, table, now)) <= Rank(Evaluate(identity, table, later))
    ensures Rank(Evaluate(identity, table, now)) == 0 <==> Rank(Evaluate(identity, table, later)) == 0
  {
    DaysPass(now, later);
    var m := Match(identity.id, identity.versionId);
    if m.Some? {
      var c := CycleOf(Cycles(table, m.value.0), m.value.1);
      if c.Some? {
        StateOnDates(c.value, Day(now));
        StateOnDates(c.value, Day(later));
      }
    }
  }

  lemma DaysPass(now: int, later: int)
    requires now <= later
    ensures Day(now) <= Day(later)
  {
  }

  // ---------------------------------------------------------------- the table

  method FindCycle(cycles: seq<Cycle>, name: string) returns (r: Option<Cycle>)
    ensures r == CycleOf(cycles, name)
    ensures r.Some? <==> exists c :: c in cycles && c.name == name
  {
    var i := 0;
    while i < |cycles|
      invariant 0 <= i <= |cycles|
      invariant CycleOf(cycles, name) == CycleOf(cycles[i..], name)
      invariant forall j :: 0 <= j < i ==> cycles[j].name != name
    {
      if cycles[i].name == name {
        assert cycles[i] in cycles;
        return Some(cycles[i]);
      }
      assert cycles[i..][1..] == cycles[i + 1..];
      i := i + 1;
    }
    r := None;
  }

  predicate GoodCycle(c: Cycle) {
    && c.name != "" && c.securityUntil.Some?
    && (c.activeUntil.Some? ==> c.activeUntil.value <= c.securityUntil.value)
    && (c.extendedUntil.Some? ==> c.securityUntil.value <= c.extendedUntil.value)
  }

  predicate GoodProduct(cycles: seq<Cycle>) {
    && cycles != []
    && (forall c :: c in cycles ==> GoodCycle(c))
    && (forall i, j :: 0 <= i < j < |cycles| ==> cycles[i].name != cycles[j].name)
  }

  ghost predicate GoodTable(table: Table) {
    forall i :: 0 <= i < |PRODUCTS| ==> GoodProduct(Cycles(table, PRODUCTS[i]))
  }

  method ValidateProduct(cycles: seq<Cycle>) returns (ok: bool)
    ensures ok <==> GoodProduct(cycles)
  {
    if |cycles| == 0 {
      return false;
    }
    var seen: set<string> := {};
    for i := 0 to |cycles|
      invariant forall name :: name in seen <==> exists j :: 0 <= j < i && cycles[j].name == name
      invariant forall j :: 0 <= j < i ==> GoodCycle(cycles[j])
      invariant forall j, k :: 0 <= j < k < i ==> cycles[j].name != cycles[k].name
    {
      var c := cycles[i];
      if c.name == "" || c.name in seen {
        assert c in cycles;
        return false;
      }
      seen := seen + {c.name};
      if !GoodCycle(c) {
        assert c in cycles;
        return false;
      }
    }
    ok := true;
  }

  /** Accepts a table exactly when every product has cycles, each named once, with ordered dates. */
  method Validate(table: Table) returns (ok: bool)
    ensures ok <==> GoodTable(table)
  {
    for i := 0 to |PRODUCTS|
      invariant forall j :: 0 <= j < i ==> GoodProduct(Cycles(table, PRODUCTS[j]))
    {
      ok := ValidateProduct(Cycles(table, PRODUCTS[i]));
      if !ok {
        return;
      }
    }
    ok := true;
  }

  /** In an accepted table a name finds its one cycle, whatever the order the cycles are listed in. */
  lemma {:induction false} CycleOfOnly(cycles: seq<Cycle>, i: nat)
    requires i < |cycles| && forall i, j :: 0 <= i < j < |cycles| ==> cycles[i].name != cycles[j].name
    ensures CycleOf(cycles, cycles[i].name) == Some(cycles[i])
  {
    if i > 0 {
      CycleOfOnly(cycles[1..], i - 1);
    }
  }
}
