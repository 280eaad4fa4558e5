/**
 * The comma-separated filters of a trigger (internal/alert/engine.go: containsCSV, splitCSV,
 * trimSpace), against a reference that cuts at commas and strips spaces.
 */
module Csv {
  // ---------------------------------------------------------------- reference

  /** What stands between the commas, in order. */
  function Fields(s: string): (r: seq<string>)
    ensures r != []
  {
    if s == [] then [""]
    else
      var rest := Fields(s[1..]);
      if s[0] == ',' then [""] + rest else [[s[0]] + rest[0]] + rest[1..]
  }

  function Joined(fields: seq<string>): (r: string)
    requires fields != []
  {
    if |fields| == 1 then fields[0] else fields[0] + "," + Joined(fields[1..])
  }

  predicate Spaces(s: string) {
    forall i :: 0 <= i < |s| ==> s[i] == ' '
  }

  /** No space at either end. */
  predicate Tight(s: string) {
    s != "" ==> s[0] != ' ' && s[|s| - 1] != ' '
  }

  function Trimmed(s: string): (r: string)
    decreases |s|
  {
    if s == "" then s
    else if s[0] == ' ' then Trimmed(s[1..])
    else if s[|s| - 1] == ' ' then Trimmed(s[..|s| - 1])
    else s
  }

  /** The fields without their outer spaces, blank ones left out. */
  function Kept(fields: seq<string>): (r: seq<string>) {
    if fields == [] then []
    else (if Trimmed(fields[0]) == "" then [] else [Trimmed(fields[0])]) + Kept(fields[1..])
  }

  function Items(s: string): (r: seq<string>) {
    Kept(Fields(s))
  }

  /** Cutting at commas loses nothing and leaves no comma inside a field. */
  lemma {:induction false} FieldsOf(s: string)
    ensures Joined(Fields(s)) == s
    ensures forall f :: f in Fields(s) ==> ',' !in f
  {
    if s != [] {
      FieldsOf(s[1..]);
      var rest := Fields(s[1..]);
      if s[0] == ',' {
        assert ([""] + rest)[1..] == rest;
      } else {
        assert rest[0] in rest;
        assert ([[s[0]] + rest[0]] + rest[1..])[1..] == rest[1..];
      }
    }
  }

  /** A field without a comma, a comma and anything after it are cut right after that field. */
  lemma {:induction false} FieldsFirst(f: string, rest: string)
    requires ',' !in f
    ensures Fields(f + "," + rest) == [f] + Fields(rest)
  {
    var s := f + "," + rest;
    if f == "" {
      assert s[1..] == rest;
    } else {
      FieldsFirst(f[1..], rest);
      assert s[1..] == f[1..] + "," + rest;
      assert f == [f[0]] + f[1..];
    }
  }

  lemma {:induction false} FieldsSingle(f: string)
    requires ',' !in f
    ensures Fields(f) == [f]
  {
    if f != "" {
      FieldsSingle(f[1..]);
      assert f == [f[0]] + f[1..];
    }
  }

  /** Comma-free fields survive being joined and cut again. */
  lemma {:induction false} FieldsJoined(fields: seq<string>)
    requires fields != [] && forall f :: f in fields ==> ',' !in f
    ensures Fields(Joined(fields)) == fields
  {
    assert fields[0] in fields;
    if |fields| == 1 {
      FieldsSingle(fields[0]);
    } else {
      FieldsJoined(fields[1..]);
      FieldsFirst(fields[0], Joined(fields[1..]));
    }
  }

  /** `Trimmed(s)` is the tight text that is left when spaces are cut off both ends, and nothing else is. */
  lemma {:induction false} TrimmedIs(s: string) returns (a: string, b: string)
    ensures Tight(Trimmed(s)) && Spaces(a) && Spaces(b) && s == a + Trimmed(s) + b
    decreases |s|
  {
    a, b := "", "";
    if s != "" {
      if s[0] == ' ' {
        a, b := TrimmedIs(s[1..]);
        assert s == " " + s[1..];
        a := " " + a;
      } else if s[|s| - 1] == ' ' {
        a, b := TrimmedIs(s[..|s| - 1]);
        assert s == s[..|s| - 1] + " ";
        b := b + " ";
      }
    }
  }

  lemma {:induction false} TrimmedOf(a: string, v: string, b: string)
    requires Spaces(a) && Spaces(b) && Tight(v)
    ensures Trimmed(a + v + b) == v
    decreases |a| + |b|
  {
    var s := a + v + b;
    if a != "" {
      assert s[0] == a[0];
      assert s[1..] == a[1..] + v + b;
      TrimmedOf(a[1..], v, b);
    } else if b != "" {
      var n := |b| - 1;
      assert s[|s| - 1] == b[n];
      assert s[..|s| - 1] == a + v + b[..n];
      TrimmedOf(a, v, b[..n]);
      if s[0] == ' ' {
        SpacesOnly(v, b);
      }
    } else {
      assert s == v;
    }
  }

  lemma SpacesOnly(v: string, b: string)
    requires Spaces(b) && Tight(v) && b != "" && (v + b)[0] == ' '
    ensures v == "" && Trimmed(v + b) == ""
  {
    assert v + b == b;
    SpacesTrimmed(b);
  }

  lemma {:induction false} SpacesTrimmed(b: string)
    requires Spaces(b)
    ensures Trimmed(b) == ""
  {
    if b != "" {
      SpacesTrimmed(b[1..]);
    }
  }

  // ---------------------------------------------------------------- what the filters accept

  /**
   * A filter written as a list of comma-free items names exactly the values those items
   * hold between their outer spaces; an empty or blank item names none.
   */
  lemma ListNames(fields: seq<string>, value: string)
    requires fields != [] && forall f :: f in fields ==> ',' !in f
    ensures value in Items(Joined(fields)) <==> value != "" && exists f :: f in fields && Trimmed(f) == value
  {
    FieldsJoined(fields);
    ItemsHold(Joined(fields), value);
  }

  lemma ItemsHold(s: string, value: string)
    ensures value in Items(s) <==> value != "" && exists f :: f in Fields(s) && Trimmed(f) == value
  {
    KeptHold(Fields(s), value);
  }

  lemma {:induction false} KeptHold(fields: seq<string>, value: string)
    ensures value in Kept(fields) <==> value != "" && exists f :: f in fields && Trimmed(f) == value
  {
    if fields != [] {
      KeptHold(fields[1..], value);
      assert fields == [fields[0]] + fields[1..];
      if value != "" && Trimmed(fields[0]) == value {
        assert fields[0] in fields;
      }
    }
  }

  /** A value some filter can name: not blank, no comma, no space at its ends. */
  predicate Nameable(value: string) {
    value != "" && ',' !in value && Tight(value)
  }

  /** A value no filter can name is exactly one that is empty, holds a comma or has a space at an end. */
  lemma NamedBySomeFilterIff(value: string)
    ensures (exists s :: value in Items(s)) <==> Nameable(value)
  {
    if s :| value in Items(s) {
      ItemsHold(s, value);
      var f :| f in Fields(s) && Trimmed(f) == value;
      FieldsOf(s);
      var a, b := TrimmedIs(f);
      assert forall c :: c in value ==> c in f;
    }
    if Nameable(value) {
      FieldsSingle(value);
      ItemsHold(value, value);
      TrimmedOf("", value, "");
      assert "" + value + "" == value;
      assert value in Fields(value);
      assert value in Items(value);
    }
  }

  // ---------------------------------------------------------------- the loops

  method TrimSpace(s: string) returns (r: string)
    ensures r == Trimmed(s)
  {
    var start, end := 0, |s|;
    while start < end && s[start] == ' '
      invariant 0 <= start <= end
      invariant Spaces(s[..start])
    {
      assert s[..start + 1] == s[..start] + [s[start]];
      start := start + 1;
    }
    while end > start && s[end - 1] == ' '
      invariant start <= end <= |s|
      invariant Spaces(s[end..])
      decreases end
    {
      assert s[end - 1..] == [s[end - 1]] + s[end..];
      end := end - 1;
    }
    r := s[start..end];
    assert s == s[..start] + r + s[end..];
    TrimmedOf(s[..start], r, s[end..]);
  }

  function Unblank(item: string): (r: seq<string>) {
    if item == "" then [] else [item]
  }

  lemma ItemsCut(s: string, start: nat, i: nat, r: seq<string>)
    requires start <= i < |s| && s[i] == ',' && forall j :: start <= j < i ==> s[j] != ','
    ensures r + Items(s[start..]) == r + Unblank(Trimmed(s[start..i])) + Items(s[i + 1..])
  {
    var f, rest := s[start..i], s[i + 1..];
    assert s[start..] == f + "," + rest;
    FieldsFirst(f, rest);
    assert ([f] + Fields(rest))[1..] == Fields(rest);
  }

  lemma ItemsSingle(s: string)
    requires ',' !in s
    ensures Items(s) == Unblank(Trimmed(s))
  {
    FieldsSingle(s);
    assert [s][1..] == [];
  }

  method SplitCsv(s: string) returns (r: seq<string>)
    ensures r == Items(s)
  {
    r := [];
    if s == "" {
      ItemsSingle(s);
      return;
    }
    var start, i := 0, 0;
    ghost var all := Items(s);
    assert s[0..] == s;
    while i < |s|
      invariant 0 <= start <= i <= |s|
      invariant forall j :: start <= j < i ==> s[j] != ','
      invariant all == r + Items(s[start..])
    {
      if s[i] == ',' {
        ItemsCut(s, start, i, r);
        var item := TrimSpace(s[start..i]);
        if item != "" {
          r := r + [item];
        } else {
          assert r + Unblank(item) == r;
        }
        start := i + 1;
      }
      i := i + 1;
    }
    var last := TrimSpace(s[start..]);
    ItemsSingle(s[start..]);
    if last != "" {
      r := r + [last];
    }
  }

  method ContainsCsv(csv: string, value: string) returns (found: bool)
    ensures found <==> value in Items(csv)
  {
    var items := SplitCsv(csv);
    for i := 0 to |items|
      invariant value !in items[..i]
    {
      if items[i] == value {
        return true;
      }
      assert items[..i + 1] == items[..i] + [items[i]];
    }
    assert items[..|items|] == items;
    found := false;
  }
}
