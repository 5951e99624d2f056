/** The list of migration files, in the order in which they are applied. */
module MigrationNames {
  import opened Outcomes

  const SUFFIX: string := ".up.sql"

  datatype Entry = Entry(name: string, isDir: bool)

  predicate HasSuffix(name: string) {
    |SUFFIX| <= |name| && name[|name| - |SUFFIX|..] == SUFFIX
  }

  predicate IsMigration(e: Entry) {
    !e.isDir && HasSuffix(e.name)
  }

  predicate IsMigrationName(x: string, entries: seq<Entry>) {
    exists i :: 0 <= i < |entries| && IsMigration(entries[i]) && entries[i].name == x
  }

  function TrimSuffix(name: string): string {
    if HasSuffix(name) then name[..|name| - |SUFFIX|] else name
  }

  function Migrations(entries: seq<Entry>): seq<string> {
    if entries == [] then []
    else
      var last := entries[|entries| - 1];
      Migrations(entries[..|entries| - 1]) + (if IsMigration(last) then [last.name] else [])
  }

  predicate Leq(a: string, b: string)
    decreases |a|
  {
    a == [] || (b != [] && (a[0] < b[0] || (a[0] == b[0] && Leq(a[1..], b[1..]))))
  }

  // The two strings first differ at position i.
  predicate DifferAt(a: string, b: string, i: nat) {
    i < |a| && i < |b| && a[..i] == b[..i] && a[i] != b[i]
  }

  // One string comes no later than another exactly if it is a prefix of it or is smaller at the first
  // position where they differ.
  lemma {:induction false} LeqIff(a: string, b: string)
    ensures Leq(a, b) <==> a <= b || exists i: nat :: DifferAt(a, b, i) && a[i] < b[i]
    decreases |a|
  {
    if a != [] && b != [] {
      if a[0] == b[0] {
        LeqIff(a[1..], b[1..]);
        TailsDiffer(a, b);
        assert a <= b <==> a[1..] <= b[1..] by {
          assert a == [a[0]] + a[1..] && b == [b[0]] + b[1..];
        }
      } else {
        assert a[..0] == b[..0] && DifferAt(a, b, 0);
      }
    }
  }

  lemma TailsDiffer(a: string, b: string)
    requires a != [] && b != [] && a[0] == b[0]
    ensures forall i: nat :: DifferAt(a, b, i + 1) <==> DifferAt(a[1..], b[1..], i)
    ensures !DifferAt(a, b, 0)
  {
    forall i: nat ensures DifferAt(a, b, i + 1) <==> DifferAt(a[1..], b[1..], i) {
      if i + 1 < |a| && i + 1 < |b| {
        assert a[..i + 1] == [a[0]] + a[1..][..i] && b[..i + 1] == [b[0]] + b[1..][..i];
      }
    }
  }

  // Numbers are compared digit by digit, so they count in order only if they are of equal length.
  lemma NumbersCompareByDigit()
    ensures Leq("0009_x.up.sql", "0010_a.up.sql") && !Leq("0010_a.up.sql", "0009_x.up.sql")
    ensures Leq("10_a.up.sql", "9_x.up.sql") && !Leq("9_x.up.sql", "10_a.up.sql")
  {
    assert DifferAt("0009_x.up.sql", "0010_a.up.sql", 2) && DifferAt("0010_a.up.sql", "0009_x.up.sql", 2);
    LeqIff("0009_x.up.sql", "0010_a.up.sql");
    LeqIff("0010_a.up.sql", "0009_x.up.sql");
    assert DifferAt("10_a.up.sql", "9_x.up.sql", 0);
  }

  function Insert(x: string, s: seq<string>): seq<string> {
    if s == [] || Leq(x, s[0]) then [x] + s else [s[0]] + Insert(x, s[1..])
  }

  function SortStrings(s: seq<string>): seq<string> {
    if s == [] then [] else Insert(s[0], SortStrings(s[1..]))
  }

  predicate Sorted(s: seq<string>) {
    forall i, j :: 0 <= i < j < |s| ==> Leq(s[i], s[j])
  }

  predicate Distinct(s: seq<string>) {
    forall i, j :: 0 <= i < j < |s| ==> s[i] != s[j]
  }

  // A directory holds no two entries of the same name.
  predicate UniqueNames(entries: seq<Entry>) {
    forall i, j :: 0 <= i < j < |entries| ==> entries[i].name != entries[j].name
  }

  lemma {:induction false} LeqTotal(a: string, b: string)
    ensures Leq(a, b) || Leq(b, a)
    decreases |a|
  {
    if a != [] && b != [] && a[0] == b[0] {
      LeqTotal(a[1..], b[1..]);
    }
  }

  lemma {:induction false} LeqTransitive(a: string, b: string, c: string)
    requires Leq(a, b) && Leq(b, c)
    ensures Leq(a, c)
    decreases |a|
  {
    if a != [] && a[0] == b[0] == c[0] {
      LeqTransitive(a[1..], b[1..], c[1..]);
    }
  }

  lemma SmallestFirst(x: string, s: seq<string>)
    requires Sorted(s) && s != [] && Leq(x, s[0])
    ensures Sorted([x] + s)
  {
    forall i | 0 <= i < |s| ensures Leq(x, s[i]) {
      if i > 0 {
        LeqTransitive(x, s[0], s[i]);
      }
    }
  }

  // What is below everything in s and below x is below everything in a permutation of both.
  lemma BelowEither(low: string, x: string, s: seq<string>, r: seq<string>)
    requires multiset(r) == multiset(s) + multiset{x}
    requires Leq(low, x) && forall i :: 0 <= i < |s| ==> Leq(low, s[i])
    ensures forall i :: 0 <= i < |r| ==> Leq(low, r[i])
  {
    forall i | 0 <= i < |r| ensures Leq(low, r[i]) {
      assert r[i] in multiset(r);
      assert r[i] in multiset(s) || r[i] == x;
    }
  }

  lemma BelowAllFirst(low: string, r: seq<string>)
    requires Sorted(r) && forall i :: 0 <= i < |r| ==> Leq(low, r[i])
    ensures Sorted([low] + r) && multiset([low] + r) == multiset(r) + multiset{low}
  {
  }

  lemma {:induction false} InsertKeeps(x: string, s: seq<string>)
    requires Sorted(s)
    ensures Sorted(Insert(x, s)) && multiset(Insert(x, s)) == multiset(s) + multiset{x}
  {
    if s == [] {
    } else if Leq(x, s[0]) {
      SmallestFirst(x, s);
    } else {
      var rest := s[1..];
      LeqTotal(x, s[0]);
      InsertKeeps(x, rest);
      assert s == [s[0]] + rest;
      BelowEither(s[0], x, rest, Insert(x, rest));
      BelowAllFirst(s[0], Insert(x, rest));
    }
  }

  lemma {:induction false} SortKeeps(s: seq<string>)
    ensures Sorted(SortStrings(s)) && multiset(SortStrings(s)) == multiset(s)
  {
    if s != [] {
      SortKeeps(s[1..]);
      InsertKeeps(s[0], SortStrings(s[1..]));
      assert s == [s[0]] + s[1..];
    }
  }

  lemma {:induction false} MigrationsFrom(entries: seq<Entry>)
    ensures forall x :: x in Migrations(entries) <==> IsMigrationName(x, entries)
  {
    if entries != [] {
      var init, last := entries[..|entries| - 1], entries[|entries| - 1];
      MigrationsFrom(init);
      assert entries == init + [last];
      forall x ensures x in Migrations(entries) <==> IsMigrationName(x, entries) {
        if i :| 0 <= i < |entries| && IsMigration(entries[i]) && entries[i].name == x {
          assert i < |init| ==> init[i] == entries[i];
        }
        if x in Migrations(init) {
          var i :| 0 <= i < |init| && IsMigration(init[i]) && init[i].name == x;
          assert entries[i] == init[i];
        }
      }
    }
  }

  lemma {:induction false} MigrationsDistinct(entries: seq<Entry>)
    requires UniqueNames(entries)
    ensures Distinct(Migrations(entries))
  {
    if entries != [] {
      var init, last := entries[..|entries| - 1], entries[|entries| - 1];
      MigrationsDistinct(init);
      MigrationsFrom(init);
      var found := Migrations(init);
      forall k | 0 <= k < |found| ensures found[k] != last.name {
        assert found[k] in found;
        var i :| 0 <= i < |init| && IsMigration(init[i]) && init[i].name == found[k];
        assert entries[i] == init[i];
      }
    }
  }

  lemma CountsOne(s: seq<string>)
    ensures Distinct(s) <==> forall x :: multiset(s)[x] <= 1
  {
    if Distinct(s) {
      forall x ensures multiset(s)[x] <= 1 {
        DistinctCount(s, x);
      }
    } else {
      var i, j :| 0 <= i < j < |s| && s[i] == s[j];
      assert s == s[..i] + [s[i]] + s[i + 1..j] + [s[j]] + s[j + 1..];
      assert multiset(s)[s[i]] >= 2;
    }
  }

  lemma {:induction false} DistinctCount(s: seq<string>, x: string)
    requires Distinct(s)
    ensures multiset(s)[x] <= 1
  {
    if s != [] {
      var init, last := s[..|s| - 1], s[|s| - 1];
      DistinctCount(init, x);
      assert s == init + [last];
      forall i | 0 <= i < |init| ensures init[i] != last {
        assert s[i] == init[i];
      }
    }
  }

  lemma NameIsFile(x: string, entries: seq<Entry>)
    ensures IsMigrationName(x, entries) <==> |x| >= 7 && x[|x| - 7..] == ".up.sql" && Entry(x, false) in entries
  {
    if IsMigrationName(x, entries) {
      var i :| 0 <= i < |entries| && IsMigration(entries[i]) && entries[i].name == x;
      assert entries[i] == Entry(x, false);
    }
  }

  // The names are exactly those of the files that end in .up.sql, each once, in lexicographic order;
  // directories do not count.
  lemma NamesAreSorted(entries: seq<Entry>)
    requires UniqueNames(entries)
    ensures var names := SortStrings(Migrations(entries));
      && Sorted(names) && Distinct(names)
      && (forall x :: x in names <==> IsMigrationName(x, entries))
      && (forall x :: x in names <==> |x| >= 7 && x[|x| - 7..] == ".up.sql" && Entry(x, false) in entries)
  {
    forall x ensures IsMigrationName(x, entries) <==>
      |x| >= 7 && x[|x| - 7..] == ".up.sql" && Entry(x, false) in entries
    {
      NameIsFile(x, entries);
    }
    var found := Migrations(entries);
    MigrationsFrom(entries);
    MigrationsDistinct(entries);
    SortKeeps(found);
    CountsOne(found);
    CountsOne(SortStrings(found));
    forall x ensures x in SortStrings(found) <==> x in found {
      assert x in SortStrings(found) <==> x in multiset(SortStrings(found));
      assert x in found <==> x in multiset(found);
    }
  }

  function VersionsOf(names: seq<string>): (v: seq<string>)
    ensures |v| == |names|
    ensures forall i :: 0 <= i < |v| ==> v[i] == TrimSuffix(names[i])
  {
    if names == [] then [] else [TrimSuffix(names[0])] + VersionsOf(names[1..])
  }

  lemma TrimIsInjective(a: string, b: string)
    requires HasSuffix(a) && HasSuffix(b) && TrimSuffix(a) == TrimSuffix(b)
    ensures a == b
  {
    assert a == a[..|a| - |SUFFIX|] + SUFFIX && b == b[..|b| - |SUFFIX|] + SUFFIX;
  }

  lemma TrimKeepsDistinct(names: seq<string>)
    requires Distinct(names) && forall i :: 0 <= i < |names| ==> HasSuffix(names[i])
    ensures Distinct(VersionsOf(names))
  {
    forall i, j | 0 <= i < j < |names| ensures TrimSuffix(names[i]) != TrimSuffix(names[j]) {
      if TrimSuffix(names[i]) == TrimSuffix(names[j]) {
        TrimIsInjective(names[i], names[j]);
      }
    }
  }

  lemma NamesHaveSuffix(names: seq<string>, entries: seq<Entry>)
    requires forall x :: x in names <==> IsMigrationName(x, entries)
    ensures forall k :: 0 <= k < |names| ==> HasSuffix(names[k])
  {
    forall k | 0 <= k < |names| ensures HasSuffix(names[k]) {
      assert names[k] in names;
    }
  }

  // The versions of a directory, in the order they are to be applied.
  function Versions(entries: seq<Entry>): seq<string> {
    VersionsOf(SortStrings(Migrations(entries)))
  }

  lemma VersionsAreDistinct(entries: seq<Entry>)
    requires UniqueNames(entries)
    ensures Distinct(Versions(entries))
  {
    var names := SortStrings(Migrations(entries));
    NamesAreSorted(entries);
    NamesHaveSuffix(names, entries);
    TrimKeepsDistinct(names);
  }

  lemma NoNames(entries: seq<Entry>)
    ensures SortStrings(Migrations(entries)) == [] <==> forall i :: 0 <= i < |entries| ==> !IsMigration(entries[i])
  {
    var found := Migrations(entries);
    MigrationsFrom(entries);
    SortKeeps(found);
    assert |SortStrings(found)| == |multiset(SortStrings(found))| == |found|;
    if i :| 0 <= i < |entries| && IsMigration(entries[i]) {
      assert entries[i].name in found;
    }
    if found != [] {
      assert found[0] in found;
    }
  }

  method List(entries: seq<Entry>) returns (r: Result<seq<string>, ()>)
    ensures r.Err? <==> forall i :: 0 <= i < |entries| ==> !IsMigration(entries[i])
    ensures r.Ok? ==> r.value == SortStrings(Migrations(entries))
  {
    var names: seq<string> := [];
    for i := 0 to |entries|
      invariant names == Migrations(entries[..i])
    {
      assert entries[..i + 1][..i] == entries[..i];
      if !IsMigration(entries[i]) {
        continue;
      }
      names := names + [entries[i].name];
    }
    assert entries[..|entries|] == entries;
    NoNames(entries);
    names := SortStrings(names);
    if |names| == 0 {
      return Err(());
    }
    return Ok(names);
  }
}
