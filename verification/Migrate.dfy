/** Schema migration: the runner, and any number of runs over one database. */
module Migrate {
  import opened Outcomes
  import opened MigrationNames

  // `executed` lists the migrations whose statements were committed, in commit order; `recorded` is
  // the contents of schema_migrations.
  datatype Db = Db(recorded: set<string>, executed: seq<string>)

  // How a transaction goes: it fails at some step and rolls back, or the commit takes effect, and
  // then its confirmation may still be lost.
  datatype Fate = ReadFails | BeginFails | BodyFails | RecordFails | CommitFails | ConfirmationLost | Commits

  datatype Failure = NoTable | NoMigrations | Unreadable | NotApplied(version: string)

  // The version is the primary key, so recording it twice fails and the transaction rolls back.
  function Apply(db: Db, version: string, fate: Fate): (Db, bool) {
    if (fate != Commits && fate != ConfirmationLost) || version in db.recorded then (db, false)
    else (Db(db.recorded + {version}, db.executed + [version]), fate == Commits)
  }

  // A transaction that fails before its commit, or records a version a second time, changes nothing; a
  // committed one has both effects, and is a success unless its confirmation is lost.
  lemma BothOrNeither(db: Db, version: string, fate: Fate)
    ensures fate in {ReadFails, BeginFails, BodyFails, RecordFails, CommitFails} || version in db.recorded ==>
      Apply(db, version, fate) == (db, false)
    ensures fate in {ConfirmationLost, Commits} && version !in db.recorded ==>
      Apply(db, version, fate) == (Db(db.recorded + {version}, db.executed + [version]), fate == Commits)
  {
  }

  function AsSet(s: seq<string>): set<string> {
    set x | x in s
  }

  // What is left to do for a run that found these versions applied.
  function Pending(versions: seq<string>, applied: set<string>): seq<string> {
    if versions == [] then []
    else
      var last := versions[|versions| - 1];
      Pending(versions[..|versions| - 1], applied) + (if last in applied then [] else [last])
  }

  // ---------- runs ----------

  datatype Status = Running | Completed | Failed(failure: Failure) | Crashed

  // A run works on its own list: two deployments need not carry the same files. `applied` is what it
  // read from the table, `ran` what it applied since.
  datatype Run = Run(versions: seq<string>, applied: set<string>, next: nat, ran: seq<string>, status: Status)

  datatype World = World(db: Db, runs: map<nat, Run>)

  datatype Event =
    | Begin(id: nat, versions: seq<string>)
    | Fail(id: nat, failure: Failure)
    | Turn(id: nat, fate: Fate)
    | Crash(id: nat)

  // One turn of the loop: skip a version found applied, or apply it; or return.
  function TakeTurn(db: Db, run: Run, fate: Fate): (Db, Run) {
    if run.next >= |run.versions| then (db, run.(status := Completed))
    else
      var version := run.versions[run.next];
      if version in run.applied then (db, run.(next := run.next + 1))
      else
        var (after, ok) := Apply(db, version, fate);
        (after, if ok then run.(next := run.next + 1, ran := run.ran + [version])
                else run.(status := Failed(NotApplied(version))))
  }

  // Events that are not possible in a state leave it as it is, so every list of events is a history.
  function Step(w: World, e: Event): World {
    match e
    case Begin(id, versions) =>
      if id in w.runs then w else w.(runs := w.runs[id := Run(versions, w.db.recorded, 0, [], Running)])
    case Fail(id, failure) =>
      if id in w.runs then w else w.(runs := w.runs[id := Run([], w.db.recorded, 0, [], Failed(failure))])
    case Turn(id, fate) =>
      if id in w.runs && w.runs[id].status.Running? then
        var (db, run) := TakeTurn(w.db, w.runs[id], fate);
        World(db, w.runs[id := run])
      else w
    case Crash(id) =>
      if id in w.runs && w.runs[id].status.Running? then w.(runs := w.runs[id := w.runs[id].(status := Crashed)]) else w
  }

  function History(w: World, events: seq<Event>): World
    decreases |events|
  {
    if events == [] then w else Step(History(w, events[..|events| - 1]), events[|events| - 1])
  }

  lemma {:induction false} HistoryConcat(w: World, a: seq<Event>, b: seq<Event>)
    ensures History(w, a + b) == History(History(w, a), b)
    decreases |b|
  {
    if b == [] {
      assert a + b == a;
    } else {
      assert (a + b)[..|a + b| - 1] == a + b[..|b| - 1] && (a + b)[|a + b| - 1] == b[|b| - 1];
      HistoryConcat(w, a, b[..|b| - 1]);
    }
  }

  const EMPTY: World := World(Db({}, []), map[])

  // ---------- what one run keeps, whatever is in the database ----------

  // Everything up to `next` is recorded; what the run found missing there, it applied itself.
  predicate RunOk(run: Run, db: Db) {
    && run.next <= |run.versions| && run.applied <= db.recorded
    && run.ran == Pending(run.versions[..run.next], run.applied)
    && (forall k :: 0 <= k < run.next ==> run.versions[k] in db.recorded)
    && (run.status.Completed? ==> run.next == |run.versions|)
  }

  lemma PendingNext(versions: seq<string>, applied: set<string>, i: nat)
    requires i < |versions|
    ensures Pending(versions[..i + 1], applied) ==
      Pending(versions[..i], applied) + if versions[i] in applied then [] else [versions[i]]
  {
    assert versions[..i + 1][..i] == versions[..i];
  }

  lemma {:induction false} PendingIsNew(versions: seq<string>, applied: set<string>)
    ensures AsSet(Pending(versions, applied)) == AsSet(versions) - applied
  {
    if versions != [] {
      var init, last := versions[..|versions| - 1], versions[|versions| - 1];
      PendingIsNew(init, applied);
      assert versions == init + [last];
      assert AsSet(versions) == AsSet(init) + {last};
      assert AsSet(Pending(versions, applied))
          == AsSet(Pending(init, applied)) + if last in applied then {} else {last};
    }
  }

  lemma TurnKeepsRun(db: Db, run: Run, fate: Fate)
    requires RunOk(run, db) && run.status.Running?
    ensures var (after, next) := TakeTurn(db, run, fate);
      RunOk(next, after) && db.recorded <= after.recorded && db.executed <= after.executed
  {
    if run.next < |run.versions| {
      PendingNext(run.versions, run.applied, run.next);
    }
  }

  lemma RunStaysOk(run: Run, db: Db, after: Db)
    requires RunOk(run, db) && db.recorded <= after.recorded
    ensures RunOk(run, after)
  {
  }

  // No event takes a migration back.
  lemma StepGrows(w: World, e: Event)
    ensures w.db.recorded <= Step(w, e).db.recorded && w.db.executed <= Step(w, e).db.executed
  {
  }

  lemma {:induction false} HistoryGrows(w: World, events: seq<Event>)
    ensures w.db.recorded <= History(w, events).db.recorded && w.db.executed <= History(w, events).db.executed
    decreases |events|
  {
    if events != [] {
      HistoryGrows(w, events[..|events| - 1]);
      StepGrows(History(w, events[..|events| - 1]), events[|events| - 1]);
    }
  }

  // ---------- each migration once, whatever lists the runs carry ----------

  ghost predicate OnceInv(w: World) {
    && Distinct(w.db.executed) && w.db.recorded == AsSet(w.db.executed)
    && (forall id :: id in w.runs ==> RunOk(w.runs[id], w.db) && AsSet(w.runs[id].ran) <= w.db.recorded)
    && (forall a, b :: a in w.runs && b in w.runs && a != b ==> AsSet(w.runs[a].ran) !! AsSet(w.runs[b].ran))
  }

  lemma ApplyOnce(db: Db, version: string, fate: Fate)
    requires Distinct(db.executed) && db.recorded == AsSet(db.executed)
    ensures var after := Apply(db, version, fate).0;
      && Distinct(after.executed) && after.recorded == AsSet(after.executed)
      && (after == db || (version !in db.recorded && after.recorded == db.recorded + {version}))
  {
    if version !in db.recorded {
      assert forall k :: 0 <= k < |db.executed| ==> db.executed[k] in AsSet(db.executed);
    }
  }

  lemma TurnOnce(db: Db, run: Run, fate: Fate)
    requires Distinct(db.executed) && db.recorded == AsSet(db.executed) && AsSet(run.ran) <= db.recorded
    ensures var (after, next) := TakeTurn(db, run, fate);
      && Distinct(after.executed) && after.recorded == AsSet(after.executed)
      && AsSet(next.ran) <= after.recorded && AsSet(next.ran) <= AsSet(run.ran) + (after.recorded - db.recorded)
  {
    if run.next < |run.versions| {
      var version := run.versions[run.next];
      ApplyOnce(db, version, fate);
      assert AsSet(run.ran + [version]) == AsSet(run.ran) + {version};
    }
  }

  lemma TurnKeepsOnce(w: World, id: nat, fate: Fate)
    requires OnceInv(w) && id in w.runs && w.runs[id].status.Running?
    ensures OnceInv(Step(w, Turn(id, fate)))
  {
    var (db, run) := TakeTurn(w.db, w.runs[id], fate);
    TurnKeepsRun(w.db, w.runs[id], fate);
    TurnOnce(w.db, w.runs[id], fate);
    forall other | other in w.runs && other != id ensures RunOk(w.runs[other], db) {
      RunStaysOk(w.runs[other], w.db, db);
    }
  }

  lemma StepKeepsOnce(w: World, e: Event)
    requires OnceInv(w)
    ensures OnceInv(Step(w, e))
  {
    match e
    case Turn(id, fate) => if id in w.runs && w.runs[id].status.Running? { TurnKeepsOnce(w, id, fate); }
    case Crash(id) =>
    case Begin(id, versions) => assert versions[..0] == [] && AsSet([]) == {};
    case Fail(id, failure) => assert AsSet([]) == {};
  }

  lemma {:induction false} HistoryKeepsOnce(events: seq<Event>)
    ensures OnceInv(History(EMPTY, events))
    decreases |events|
  {
    if events != [] {
      HistoryKeepsOnce(events[..|events| - 1]);
      StepKeepsOnce(History(EMPTY, events[..|events| - 1]), events[|events| - 1]);
    }
  }

  // Whatever runs are started, on whatever lists, however they interleave and wherever each stops: no
  // migration is committed twice, and exactly those committed are recorded.
  lemma {:induction false} ExecutedOnce(events: seq<Event>)
    ensures var db := History(EMPTY, events).db;
      Distinct(db.executed) && db.recorded == AsSet(db.executed)
  {
    HistoryKeepsOnce(events);
  }

  // A run that completes leaves nothing of its list unapplied, and reports exactly what was missing
  // when it looked; no migration is reported by two runs.
  lemma CompletedRuns(events: seq<Event>, a: nat)
    requires var runs := History(EMPTY, events).runs; a in runs && runs[a].status.Completed?
    ensures var w := History(EMPTY, events); var run := w.runs[a];
      && AsSet(run.versions) <= w.db.recorded
      && run.ran == Pending(run.versions, run.applied)
      && (forall b :: b in w.runs && b != a ==> AsSet(run.ran) !! AsSet(w.runs[b].ran))
  {
    HistoryKeepsOnce(events);
    var w := History(EMPTY, events);
    assert RunOk(w.runs[a], w.db);
    assert w.runs[a].versions[..w.runs[a].next] == w.runs[a].versions;
  }

  // ---------- in order, when later lists extend earlier ones ----------

  // Every run's list is a beginning of the newest one.
  predicate Extending(events: seq<Event>, newest: seq<string>) {
    forall i :: 0 <= i < |events| && events[i].Begin? ==> events[i].versions <= newest
  }

  ghost predicate SnapshotOk(run: Run, newest: seq<string>) {
    run.versions <= newest && exists from :: 0 <= from <= |newest| && run.applied == AsSet(newest[..from])
  }

  ghost predicate OrderInv(w: World, newest: seq<string>) {
    OnceInv(w) && w.db.executed <= newest && forall id :: id in w.runs ==> SnapshotOk(w.runs[id], newest)
  }

  lemma PrefixMembers(versions: seq<string>, k: nat, i: nat)
    requires Distinct(versions) && k <= |versions| && i < |versions|
    ensures versions[i] in AsSet(versions[..k]) <==> i < k
  {
    if i < k {
      assert versions[..k][i] == versions[i];
    }
  }

  // A run applies a version only when everything before it in the newest list has been.
  lemma NextInOrder(db: Db, run: Run, fate: Fate, newest: seq<string>)
    requires Distinct(newest) && db.executed <= newest && db.recorded == AsSet(db.executed)
    requires RunOk(run, db) && run.versions <= newest
    ensures TakeTurn(db, run, fate).0.executed <= newest
  {
    var m, i := |db.executed|, run.next;
    assert db.executed == newest[..m];
    if i < |run.versions| && run.versions[i] !in db.recorded {
      assert run.versions[i] == newest[i];
      PrefixMembers(newest, m, i);
      if i > 0 {
        assert run.versions[i - 1] == newest[i - 1] && run.versions[i - 1] in db.recorded;
        PrefixMembers(newest, m, i - 1);
      }
      assert m == i;
      assert db.executed + [newest[m]] == newest[..m + 1];
    }
  }

  // Only the start of a run takes a snapshot.
  lemma SnapshotsStay(w: World, e: Event, newest: seq<string>)
    requires w.db.executed <= newest && w.db.recorded == AsSet(w.db.executed) && (e.Begin? ==> e.versions <= newest)
    requires forall id :: id in w.runs ==> SnapshotOk(w.runs[id], newest)
    ensures forall id :: id in Step(w, e).runs ==> SnapshotOk(Step(w, e).runs[id], newest)
  {
    assert w.db.executed == newest[..|w.db.executed|];
    forall id | id in Step(w, e).runs ensures SnapshotOk(Step(w, e).runs[id], newest) {
      var run := Step(w, e).runs[id];
      if id in w.runs {
        assert run.versions == w.runs[id].versions && run.applied == w.runs[id].applied;
      }
    }
  }

  lemma StepKeepsOrder(w: World, e: Event, newest: seq<string>)
    requires Distinct(newest) && OrderInv(w, newest) && (e.Begin? ==> e.versions <= newest)
    ensures OrderInv(Step(w, e), newest)
  {
    StepKeepsOnce(w, e);
    SnapshotsStay(w, e, newest);
    if e.Turn? && e.id in w.runs && w.runs[e.id].status.Running? {
      NextInOrder(w.db, w.runs[e.id], e.fate, newest);
    }
  }

  lemma {:induction false} HistoryKeepsOrder(events: seq<Event>, newest: seq<string>)
    requires Distinct(newest) && Extending(events, newest)
    ensures OrderInv(History(EMPTY, events), newest)
    decreases |events|
  {
    if events != [] {
      HistoryKeepsOrder(events[..|events| - 1], newest);
      StepKeepsOrder(History(EMPTY, events[..|events| - 1]), events[|events| - 1], newest);
    } else {
      assert AsSet([]) == {};
    }
  }

  // If every deployment's list begins like the newest one, what was committed is a beginning of the
  // sorted list, at every point of every history.
  lemma ExecutedInOrder(entries: seq<Entry>, events: seq<Event>)
    requires UniqueNames(entries) && Extending(events, Versions(entries))
    ensures History(EMPTY, events).db.executed <= Versions(entries)
  {
    VersionsAreDistinct(entries);
    HistoryKeepsOrder(events, Versions(entries));
  }

  lemma {:induction false} PendingOfPrefix(newest: seq<string>, n: nat, from: nat)
    requires Distinct(newest) && n <= |newest| && from <= |newest|
    ensures Pending(newest[..n], AsSet(newest[..from])) == if from <= n then newest[from..n] else []
    decreases n
  {
    if n > 0 {
      PendingOfPrefix(newest, n - 1, from);
      PendingNext(newest, AsSet(newest[..from]), n - 1);
      PrefixMembers(newest, from, n - 1);
    }
  }

  // Then a completed run reports exactly the suffix of its list that it applied.
  lemma CompletedRunReportsSuffix(entries: seq<Entry>, events: seq<Event>, a: nat)
    requires UniqueNames(entries) && Extending(events, Versions(entries))
    requires var runs := History(EMPTY, events).runs; a in runs && runs[a].status.Completed?
    ensures var run := History(EMPTY, events).runs[a];
      && |run.ran| <= |run.versions| && run.ran == run.versions[|run.versions| - |run.ran|..]
      && run.versions <= History(EMPTY, events).db.executed
  {
    var newest := Versions(entries);
    VersionsAreDistinct(entries);
    HistoryKeepsOrder(events, newest);
    CompletedRuns(events, a);
    SuffixRan(newest, History(EMPTY, events).runs[a], History(EMPTY, events).db);
  }

  lemma SuffixRan(newest: seq<string>, run: Run, db: Db)
    requires Distinct(newest) && SnapshotOk(run, newest) && run.ran == Pending(run.versions, run.applied)
    requires db.executed <= newest && db.recorded == AsSet(db.executed) && AsSet(run.versions) <= db.recorded
    ensures |run.ran| <= |run.versions| && run.ran == run.versions[|run.versions| - |run.ran|..]
    ensures run.versions <= db.executed
  {
    var n := |run.versions|;
    var from :| 0 <= from <= |newest| && run.applied == AsSet(newest[..from]);
    assert run.versions == newest[..n];
    PendingOfPrefix(newest, n, from);
    if n > 0 {
      assert newest[n - 1] == run.versions[n - 1] && run.versions[n - 1] in AsSet(run.versions);
      assert db.executed == newest[..|db.executed|];
      PrefixMembers(newest, |db.executed|, n - 1);
    }
  }

  // A deployment that carries new files runs what is missing after what is there; the order is that of
  // its list if and only if the old list was a beginning of the new one.
  lemma UpgradeInOrderIff(earlier: seq<string>, later: seq<string>)
    requires Distinct(later)
    ensures earlier + Pending(later, AsSet(earlier)) == later <==> earlier <= later
  {
    if earlier <= later {
      assert later[..|earlier|] == earlier && later[..|later|] == later;
      PendingOfPrefix(later, |later|, |earlier|);
    }
  }

  // ---------- file order ----------

  // The versions in the order of their file names, which is not always that of the versions.
  predicate InFileOrder(versions: seq<string>) {
    forall i, j :: 0 <= i < j < |versions| ==> FileLeq(versions[i], versions[j])
  }

  predicate FileLeq(a: string, b: string) {
    Leq(a + SUFFIX, b + SUFFIX)
  }

  lemma ListsAreInFileOrder(entries: seq<Entry>)
    requires UniqueNames(entries)
    ensures InFileOrder(Versions(entries))
  {
    var names := SortStrings(Migrations(entries));
    NamesAreSorted(entries);
    NamesHaveSuffix(names, entries);
    forall i | 0 <= i < |names| ensures TrimSuffix(names[i]) + SUFFIX == names[i] {
    }
  }

  lemma {:induction false} PendingInFileOrder(versions: seq<string>, applied: set<string>)
    requires InFileOrder(versions)
    ensures InFileOrder(Pending(versions, applied))
  {
    if versions != [] {
      var init, last := versions[..|versions| - 1], versions[|versions| - 1];
      PendingInFileOrder(init, applied);
      PendingIsNew(init, applied);
      var pending := Pending(init, applied);
      forall i | 0 <= i < |pending| ensures FileLeq(pending[i], last) {
        assert pending[i] in AsSet(pending) && pending[i] in init;
        var k :| 0 <= k < |init| && init[k] == pending[i];
        assert versions[k] == init[k];
      }
    }
  }

  lemma OrderOfBoth(a: seq<string>, b: seq<string>)
    requires InFileOrder(a) && InFileOrder(b)
    ensures InFileOrder(a + b) <==> forall x, y :: x in a && y in b ==> FileLeq(x, y)
  {
    if InFileOrder(a + b) {
      forall x, y | x in a && y in b ensures FileLeq(x, y) {
        var i :| 0 <= i < |a| && a[i] == x;
        var j :| 0 <= j < |b| && b[j] == y;
        assert (a + b)[i] == x && (a + b)[|a| + j] == y;
      }
    }
    if forall x, y :: x in a && y in b ==> FileLeq(x, y) {
      forall i, j | 0 <= i < j < |a + b| ensures FileLeq((a + b)[i], (a + b)[j]) {
        if i < |a| <= j {
          assert (a + b)[i] in a && (a + b)[j] in b;
        }
      }
    }
  }

  // After an upgrade everything was applied in filename order if and only if whatever the new list adds
  // sorts after all that had been applied; files removed from the list do not matter.
  lemma UpgradeInFileOrderIff(earlier: seq<string>, later: seq<string>)
    requires InFileOrder(earlier) && InFileOrder(later)
    ensures InFileOrder(earlier + Pending(later, AsSet(earlier))) <==>
      forall x, y :: x in earlier && y in later && y !in earlier ==> FileLeq(x, y)
  {
    var pending := Pending(later, AsSet(earlier));
    PendingInFileOrder(later, AsSet(earlier));
    PendingIsNew(later, AsSet(earlier));
    OrderOfBoth(earlier, pending);
    forall y ensures y in pending <==> y in later && y !in earlier {
      assert y in pending <==> y in AsSet(pending);
      assert y in AsSet(later) - AsSet(earlier) <==> y in later && y !in earlier;
    }
  }

  // A file that sorts before one already applied runs after it.
  lemma LateFile()
    ensures ["b"] + Pending(["a", "b"], AsSet(["b"])) == ["b", "a"] && !InFileOrder(["b", "a"])
    ensures InFileOrder(["b"]) && InFileOrder(["a", "b"])
  {
    assert ["a", "b"][..1] == ["a"] && ["a"][..0] == [];
    assert "b" in AsSet(["b"]) && "a" !in AsSet(["b"]);
    assert Pending(["a"], AsSet(["b"])) == ["a"];
    assert "b" + SUFFIX != [] && ("b" + SUFFIX)[0] == 'b' && ("a" + SUFFIX)[0] == 'a';
    assert !FileLeq(["b", "a"][0], ["b", "a"][1]);
  }

  // ---------- the runner ----------

  // The event is not one of run id.
  predicate Excludes(env: seq<Event>, id: nat) {
    forall i :: 0 <= i < |env| ==> env[i].id != id
  }

  lemma {:induction false} OthersLeaveRun(w: World, env: seq<Event>, id: nat)
    requires Excludes(env, id)
    ensures id in History(w, env).runs <==> id in w.runs
    ensures id in w.runs ==> History(w, env).runs[id] == w.runs[id]
    decreases |env|
  {
    if env != [] {
      OthersLeaveRun(w, env[..|env| - 1], id);
    }
  }

  // Nobody else runs, and no transaction fails.
  ghost predicate Smooth(fate: nat -> Fate, env: nat -> seq<Event>) {
    forall i: nat :: env(i) == [] && fate(i) == Commits
  }

  // With nobody else around, a turn adds to the database exactly what it adds to the run.
  lemma SmoothTurn(db: Db, before: Db, run: Run)
    requires RunOk(run, db) && run.status.Running? && run.next < |run.versions| && Distinct(run.versions)
    requires run.applied == before.recorded && db.executed == before.executed + run.ran
    requires db.recorded == before.recorded + AsSet(run.ran)
    ensures var (after, next) := TakeTurn(db, run, Commits);
      && next.status.Running? && after.executed == before.executed + next.ran
      && after.recorded == before.recorded + AsSet(next.ran)
  {
    var version := run.versions[run.next];
    PendingIsNew(run.versions[..run.next], run.applied);
    if version !in run.applied {
      PrefixMembers(run.versions, run.next, run.next);
      assert version !in db.recorded;
      assert before.executed + run.ran + [version] == before.executed + (run.ran + [version]);
      assert AsSet(run.ran + [version]) == AsSet(run.ran) + {version};
    }
  }

  class Database {
    var recorded: set<string>
    var executed: seq<string>
    // What the database does not hold: the runs in progress.
    var world: World
    ghost const initial: World
    ghost var log: seq<Event>

    ghost predicate Valid()
      reads this
    {
      world.db == Db(recorded, executed) && world == History(initial, log)
    }

    // A database in any state, whoever has worked on it before.
    constructor (w: World)
      ensures Valid() && world == w && initial == w && log == []
    {
      recorded, executed, world := w.db.recorded, w.db.executed, w;
      initial, log := w, [];
    }

    method Others(env: seq<Event>, id: nat)
      requires Valid() && Excludes(env, id)
      modifies this
      ensures Valid() && log == old(log) + env && world == History(old(world), env)
      ensures id in world.runs <==> id in old(world).runs
      ensures id in world.runs ==> world.runs[id] == old(world).runs[id]
    {
      OthersLeaveRun(world, env, id);
      HistoryConcat(initial, log, env);
      log := log + env;
      world := History(world, env);
      recorded, executed := world.db.recorded, world.db.executed;
    }

    // What was just done is event e.
    method Record(e: Event)
      requires world == History(initial, log) && Db(recorded, executed) == Step(world, e).db
      modifies this`world, this`log
      ensures Valid() && log == old(log) + [e] && world == Step(old(world), e)
    {
      HistoryConcat(initial, log, [e]);
      assert [e][..0] == [] && History(world, [e]) == Step(world, e);
      log := log + [e];
      world := Step(world, e);
    }

    method ApplyOne(version: string, fate: Fate) returns (ok: bool)
      modifies this`recorded, this`executed
      ensures (Db(recorded, executed), ok) == Apply(Db(old(recorded), old(executed)), version, fate)
    {
      if fate == ReadFails || fate == BeginFails || fate == BodyFails {
        return false;
      }
      if fate == RecordFails || version in recorded {
        return false;
      }
      if fate == CommitFails {
        return false;
      }
      recorded, executed := recorded + {version}, executed + [version];
      return fate == Commits;
    }

    // One pass of the loop.
    method Pass(id: nat, version: string, fate: Fate) returns (ok: bool, added: seq<string>)
      requires Valid() && id in world.runs && world.runs[id].status.Running?
      requires var run := world.runs[id]; run.next < |run.versions| && version == run.versions[run.next]
      modifies this
      ensures Valid() && log == old(log) + [Turn(id, fate)] && id in world.runs
      ensures (world.db, world.runs[id]) == TakeTurn(old(world.db), old(world.runs[id]), fate)
      ensures ok ==>
        var run := old(world.runs[id]);
        world.runs[id] == run.(next := run.next + 1, ran := run.ran + added)
      ensures !ok ==> world.runs[id].status == Failed(NotApplied(version))
    {
      if version in world.runs[id].applied {
        ok, added := true, [];
      } else {
        ok := ApplyOne(version, fate);
        added := [version];
      }
      Record(Turn(id, fate));
    }

    // The loop of Migrate. env(i) is what other runs do before this run looks at the i-th name, fate(i)
    // how this run's own transaction for it goes.
    method ApplyPending(id: nat, versions: seq<string>, fate: nat -> Fate, env: nat -> seq<Event>)
      returns (r: Result<seq<string>, Failure>)
      requires Valid() && id in world.runs && world.runs[id] == Run(versions, recorded, 0, [], Running)
      requires Distinct(versions) && forall k: nat :: Excludes(env(k), id)
      modifies this
      ensures Valid() && old(log) <= log && id in world.runs && RunOk(world.runs[id], world.db)
      ensures world.runs[id].versions == versions && world.runs[id].applied == old(recorded)
      ensures r.Ok? ==> world.runs[id].status.Completed? && world.runs[id].ran == r.value
      ensures r.Err? ==>
        && r.error.NotApplied? && world.runs[id].status == Failed(r.error)
        && r.error.version in versions && r.error.version !in old(recorded)
      ensures Smooth(fate, env) ==> r.Ok? && executed == old(executed) + r.value
    {
      ghost var before := world.db;
      var ran: seq<string> := [];
      assert AsSet([]) == {} && versions[..0] == [];
      for i := 0 to |versions|
        invariant Valid() && old(log) <= log && id in world.runs
        invariant world.runs[id] == Run(versions, before.recorded, i, ran, Running) && RunOk(world.runs[id], world.db)
        invariant Smooth(fate, env) ==>
          world.db.executed == before.executed + ran && world.db.recorded == before.recorded + AsSet(ran)
      {
        HistoryGrows(world, env(i));
        RunStaysOk(world.runs[id], world.db, History(world, env(i)).db);
        Others(env(i), id);
        TurnKeepsRun(world.db, world.runs[id], fate(i));
        if Smooth(fate, env) {
          SmoothTurn(world.db, before, world.runs[id]);
        }
        var ok, added := Pass(id, versions[i], fate(i));
        if !ok {
          return Err(NotApplied(versions[i]));
        }
        ran := ran + added;
      }
      TurnKeepsRun(world.db, world.runs[id], Commits);
      Record(Turn(id, Commits));
      return Ok(ran);
    }

    // Migrate, as run id, over whatever the database holds.
    method Migrate(id: nat, entries: seq<Entry>, tableFails: bool, readFails: bool,
                   fate: nat -> Fate, env: nat -> seq<Event>)
      returns (r: Result<seq<string>, Failure>)
      requires Valid() && id !in world.runs && UniqueNames(entries) && forall k: nat :: Excludes(env(k), id)
      modifies this
      ensures Valid() && old(log) <= log && id in world.runs
      ensures tableFails ==> r == Err(NoTable)
      ensures !tableFails && Versions(entries) == [] ==> r == Err(NoMigrations)
      ensures !tableFails && Versions(entries) != [] && readFails ==> r == Err(Unreadable)
      ensures r.Ok? ==>
        && r.value == Pending(Versions(entries), old(recorded))
        && AsSet(Versions(entries)) <= recorded
        && world.runs[id].status.Completed? && world.runs[id].ran == r.value
      ensures r.Err? ==> world.runs[id].status == Failed(r.error)
      ensures r.Err? && !tableFails && Versions(entries) != [] && !readFails ==>
        r.error.NotApplied? && r.error.version in Versions(entries) && r.error.version !in old(recorded)
      ensures !tableFails && Versions(entries) != [] && !readFails && Smooth(fate, env) ==>
        r.Ok? && executed == old(executed) + r.value
    {
      if tableFails {
        Record(Fail(id, NoTable));
        return Err(NoTable);
      }
      VersionsAreDistinct(entries);
      var names := List(entries);
      NoNames(entries);
      if names.Err? {
        Record(Fail(id, NoMigrations));
        return Err(NoMigrations);
      }
      if readFails {
        Record(Fail(id, Unreadable));
        return Err(Unreadable);
      }
      var versions := VersionsOf(names.value);
      Record(Begin(id, versions));
      assert old(log) <= log;
      r := ApplyPending(id, versions, fate, env);
      assert versions[..|versions|] == versions;
    }

    // So the theorems about histories speak about this object.
    lemma HoldsEachOnce()
      requires Valid() && initial == EMPTY
      ensures Distinct(executed) && recorded == AsSet(executed)
    {
      ExecutedOnce(log);
    }
  }
}
