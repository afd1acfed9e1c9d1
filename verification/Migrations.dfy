/**
 `ForgeStateStore.runMigrations` (packages/forge-state-store/src/store.ts:189-232):
 every migration not yet recorded is split into statements and applied in a
 transaction of its own, together with the row that records it.
 */
module Migrations {
  import opened Text
  import SqlSplit

  datatype Migration = Migration(version: int, name: string, sql: string)

  /** The committed state: every statement ever committed, and the recorded versions if the table is there. */
  datatype Db = Db(log: seq<string>, versions: Option<set<int>>)

  /**
   What the database does to one run: whether the first query fails for some other
   reason than a missing table, and at which step the transaction of a version breaks
   (its statements are steps 0, 1, ...; any later step is the recording insert).
   */
  datatype Weather = Weather(readFails: bool, breaksAt: int -> Option<nat>)

  function Recorded(db: Db): set<int> {
    match db.versions case None => {} case Some(vs) => vs
  }

  function Commit(db: Db, m: Migration): Db {
    Db(db.log + SqlSplit.Statements(m.sql), Some(Recorded(db) + {m.version}))
  }

  /** The loop from the i-th migration on; no list of versions when a transaction broke. */
  function RunFrom(ms: seq<Migration>, i: nat, applied: set<int>, db: Db, w: Weather): (Db, Option<seq<int>>)
    requires i <= |ms|
    decreases |ms| - i
  {
    if i == |ms| then (db, Some([]))
    else if ms[i].version in applied then RunFrom(ms, i + 1, applied, db, w)
    else if w.breaksAt(ms[i].version).Some? then (db, None)
    else
      Resumed([ms[i].version], RunFrom(ms, i + 1, applied, Commit(db, ms[i]), w))
  }

  /** The outcome of a run that has already applied some versions before its last stretch. */
  function Resumed(before: seq<int>, rest: (Db, Option<seq<int>>)): (Db, Option<seq<int>>) {
    (rest.0, match rest.1 case None => None case Some(vs) => Some(before + vs))
  }

  lemma ResumedTwice(before: seq<int>, version: int, rest: (Db, Option<seq<int>>))
    ensures Resumed([], rest) == rest
    ensures Resumed(before, Resumed([version], rest)) == Resumed(before + [version], rest)
  {
    if rest.1.Some? {
      ConcatAssoc(before, [version], rest.1.value);
      assert [] + rest.1.value == rest.1.value;
    }
  }

  lemma RunFromStep(ms: seq<Migration>, i: nat, applied: set<int>, db: Db, w: Weather)
    requires i < |ms|
    ensures RunFrom(ms, i, applied, db, w)
         == if ms[i].version in applied then RunFrom(ms, i + 1, applied, db, w)
            else if w.breaksAt(ms[i].version).Some? then (db, None)
            else Resumed([ms[i].version], RunFrom(ms, i + 1, applied, Commit(db, ms[i]), w))
  {
  }

  function Run(ms: seq<Migration>, db: Db, w: Weather): (Db, Option<seq<int>>) {
    if w.readFails then (db, None) else RunFrom(ms, 0, Recorded(db), db, w)
  }

  class StateStore {
    const migrations: seq<Migration>
    var log: seq<string>
    var versions: Option<set<int>>

    /** A store over an empty database. */
    constructor (ms: seq<Migration>)
      ensures migrations == ms && log == [] && versions == None
    {
      migrations := ms;
      log, versions := [], None;
    }

    function View(): Db
      reads this
    {
      Db(log, versions)
    }

    /** One migration in a transaction of its own, which is rolled back whole when a statement or the record breaks. */
    method Apply(m: Migration, breaks: Option<nat>) returns (committed: bool)
      modifies this`log, this`versions
      ensures committed <==> breaks.None?
      ensures View() == if committed then Commit(old(View()), m) else old(View())
    {
      var statements := SqlSplit.SplitSqlStatements(m.sql);
      var tx, j := log, 0;
      while j < |statements| && breaks != Some(j)
        invariant 0 <= j <= |statements|
        invariant tx == log + statements[..j]
        invariant forall k :: 0 <= k < j ==> breaks != Some(k)
      {
        assert statements[..j + 1] == statements[..j] + [statements[j]];
        tx, j := tx + [statements[j]], j + 1;
      }
      if breaks.Some? { return false; }
      assert statements[..j] == statements;
      log := tx;
      versions := Some((if versions.None? then {} else versions.value) + {m.version});
      committed := true;
    }

    /** The loop over the migrations, each skipped, committed, or broken with the whole run. */
    method ApplyPending(appliedSet: set<int>, w: Weather) returns (r: Option<seq<int>>)
      modifies this`log, this`versions
      ensures (View(), r) == RunFrom(migrations, 0, appliedSet, old(View()), w)
    {
      var appliedNow: seq<int> := [];
      ghost var whole := RunFrom(migrations, 0, appliedSet, View(), w);
      ResumedTwice([], 0, whole);
      for i := 0 to |migrations|
        invariant whole == Resumed(appliedNow, RunFrom(migrations, i, appliedSet, View(), w))
      {
        var migration := migrations[i];
        ghost var before := View();
        RunFromStep(migrations, i, appliedSet, before, w);
        if migration.version in appliedSet { continue; }
        var committed := Apply(migration, w.breaksAt(migration.version));
        if !committed { return None; }
        ResumedTwice(appliedNow, migration.version, RunFrom(migrations, i + 1, appliedSet, View(), w));
        appliedNow := appliedNow + [migration.version];
      }
      r := Some(appliedNow);
      assert appliedNow + [] == appliedNow;
    }

    method RunMigrations(w: Weather) returns (r: Option<seq<int>>)
      modifies this`log, this`versions
      ensures (View(), r) == Run(migrations, old(View()), w)
    {
      if w.readFails { return None; }
      r := ApplyPending(if versions.None? then {} else versions.value, w);
    }
  }

  // ---------------------------------------------------------------- exactly once

  predicate DistinctVersions(ms: seq<Migration>) {
    forall i, j :: 0 <= i < j < |ms| ==> ms[i].version != ms[j].version
  }

  /** All statements of a list of migrations, each once and in order. */
  function Script(ms: seq<Migration>): seq<string> {
    if ms == [] then [] else Script(ms[..|ms| - 1]) + SqlSplit.Statements(ms[|ms| - 1].sql)
  }

  /** Exactly the first n migrations have been applied, each exactly once, and are recorded. */
  ghost predicate AppliedPrefix(ms: seq<Migration>, db: Db, n: nat) {
    && n <= |ms|
    && db.log == Script(ms[..n])
    && Recorded(db) == (set k | 0 <= k < n :: ms[k].version)
  }

  /** The versions of the migrations from the i-th on. */
  function VersionsFrom(ms: seq<Migration>, i: nat): seq<int>
    requires i <= |ms|
    decreases |ms| - i
  {
    if i == |ms| then [] else [ms[i].version] + VersionsFrom(ms, i + 1)
  }

  lemma CommitExtends(ms: seq<Migration>, db: Db, n: nat)
    requires AppliedPrefix(ms, db, n) && n < |ms|
    ensures AppliedPrefix(ms, Commit(db, ms[n]), n + 1)
  {
    assert ms[..n + 1][..n] == ms[..n];
  }

  /** How a run ends that begins with the `i`-th migration: with a prefix of `n`, where it broke if it did. */
  ghost predicate PrefixOutcome(ms: seq<Migration>, i: nat, n: nat, w: Weather, out: (Db, Option<seq<int>>)) {
    && i <= n && AppliedPrefix(ms, out.0, n) && (forall k :: i <= k < n ==> w.breaksAt(ms[k].version).None?)
    && if out.1.Some? then n == |ms| && out.1.value == VersionsFrom(ms, i)
       else n < |ms| && w.breaksAt(ms[n].version).Some?
  }

  lemma PrefixFirst(ms: seq<Migration>, i: nat, n: nat, w: Weather, rest: (Db, Option<seq<int>>))
    requires i < |ms| && PrefixOutcome(ms, i + 1, n, w, rest) && w.breaksAt(ms[i].version).None?
    ensures PrefixOutcome(ms, i, n, w, Resumed([ms[i].version], rest))
  {
  }

  /** Where nothing further is recorded, a run commits migration after migration until one breaks. */
  lemma {:induction false} RunFromPrefix(ms: seq<Migration>, i: nat, applied: set<int>, db: Db, w: Weather)
    returns (n: nat)
    requires AppliedPrefix(ms, db, i)
    requires forall k :: i <= k < |ms| ==> ms[k].version !in applied
    ensures PrefixOutcome(ms, i, n, w, RunFrom(ms, i, applied, db, w))
    decreases |ms| - i
  {
    n := i;
    if i < |ms| {
      RunFromStep(ms, i, applied, db, w);
      if w.breaksAt(ms[i].version).None? {
        CommitExtends(ms, db, i);
        n := RunFromPrefix(ms, i + 1, applied, Commit(db, ms[i]), w);
        PrefixFirst(ms, i, n, w, RunFrom(ms, i + 1, applied, Commit(db, ms[i]), w));
      }
    }
  }

  lemma {:induction false} RunSkips(ms: seq<Migration>, i: nat, n: nat, db: Db, w: Weather)
    requires i <= n <= |ms|
    ensures var applied := set k | 0 <= k < n :: ms[k].version;
            RunFrom(ms, i, applied, db, w) == RunFrom(ms, n, applied, db, w)
    decreases n - i
  {
    if i < n { RunSkips(ms, i + 1, n, db, w); }
  }

  /**
   One run over a database that holds a prefix leaves it with a prefix at least as
   long: complete when the run succeeds, ending just before the broken migration when
   a transaction breaks, unchanged when the first query fails.
   */
  lemma RunKeepsPrefix(ms: seq<Migration>, db: Db, n: nat, w: Weather) returns (n': nat)
    requires DistinctVersions(ms) && AppliedPrefix(ms, db, n)
    ensures var (after, versions) := Run(ms, db, w);
            && n <= n' && AppliedPrefix(ms, after, n')
            && (versions.Some? ==> n' == |ms| && versions.value == VersionsFrom(ms, n))
            && (w.readFails ==> n' == n)
            && (versions.None? && !w.readFails ==> n' < |ms| && w.breaksAt(ms[n'].version).Some?)
            && (!w.readFails ==> forall k :: n <= k < n' ==> w.breaksAt(ms[k].version).None?)
  {
    n' := n;
    if !w.readFails {
      RunSkips(ms, 0, n, db, w);
      n' := RunFromPrefix(ms, n, Recorded(db), db, w);
    }
  }

  // ---------------------------------------------------------------- any database

  /** The migrations from the `i`-th on whose version is not recorded, in order. */
  function Todo(ms: seq<Migration>, recorded: set<int>, i: nat): seq<Migration>
    requires i <= |ms|
    decreases |ms| - i
  {
    if i == |ms| then []
    else if ms[i].version in recorded then Todo(ms, recorded, i + 1)
    else [ms[i]] + Todo(ms, recorded, i + 1)
  }

  function Versions(ms: seq<Migration>): seq<int> {
    seq(|ms|, k requires 0 <= k < |ms| => ms[k].version)
  }

  lemma {:induction false} ScriptCons(m: Migration, ms: seq<Migration>)
    ensures Script([m] + ms) == SqlSplit.Statements(m.sql) + Script(ms)
    decreases |ms|
  {
    if ms == [] {
      assert ([m] + ms)[..0] == [] && Script([]) + SqlSplit.Statements(m.sql) == SqlSplit.Statements(m.sql) + [];
    } else {
      var front, last := ms[..|ms| - 1], ms[|ms| - 1];
      ScriptCons(m, front);
      assert ([m] + ms)[..|ms|] == [m] + front;
      ConcatAssoc(SqlSplit.Statements(m.sql), Script(front), SqlSplit.Statements(last.sql));
    }
  }

  ghost function VersionSet(ms: seq<Migration>): set<int> {
    set k | 0 <= k < |ms| :: ms[k].version
  }

  lemma VersionSetCons(m: Migration, ms: seq<Migration>)
    ensures VersionSet([m] + ms) == {m.version} + VersionSet(ms)
  {
    var all := [m] + ms;
    assert all[0] == m;
    forall k | 0 <= k < |ms|
      ensures ms[k].version in VersionSet(all)
    {
      assert all[k + 1] == ms[k];
    }
  }

  /** The first `n` of the migrations to do are applied to a database, each whole and in order, and recorded. */
  ghost predicate AppliedTo(db: Db, todo: seq<Migration>, n: nat, after: Db) {
    && n <= |todo| && after.log == db.log + Script(todo[..n])
    && Recorded(after) == Recorded(db) + VersionSet(todo[..n])
  }

  /** None of them broke; and either they are all, and named, or the next one broke. */
  ghost predicate EndsAt(todo: seq<Migration>, n: nat, w: Weather, versions: Option<seq<int>>) {
    && n <= |todo| && (forall k :: 0 <= k < n ==> w.breaksAt(todo[k].version).None?)
    && if versions.Some? then n == |todo| && versions.value == Versions(todo)
       else n < |todo| && w.breaksAt(todo[n].version).Some?
  }

  ghost predicate Outcome(db: Db, todo: seq<Migration>, n: nat, w: Weather, out: (Db, Option<seq<int>>)) {
    AppliedTo(db, todo, n, out.0) && EndsAt(todo, n, w, out.1)
  }

  lemma AppliedFirst(db: Db, m: Migration, todo: seq<Migration>, n: nat, after: Db)
    requires AppliedTo(Commit(db, m), todo, n, after)
    ensures AppliedTo(db, [m] + todo, n + 1, after)
  {
    assert ([m] + todo)[..n + 1] == [m] + todo[..n];
    ScriptCons(m, todo[..n]);
    ConcatAssoc(db.log, SqlSplit.Statements(m.sql), Script(todo[..n]));
    VersionSetCons(m, todo[..n]);
  }

  lemma EndsFirst(m: Migration, todo: seq<Migration>, n: nat, w: Weather, versions: Option<seq<int>>)
    requires EndsAt(todo, n, w, versions) && w.breaksAt(m.version).None?
    ensures EndsAt([m] + todo, n + 1, w, if versions.Some? then Some([m.version] + versions.value) else None)
  {
    var all := [m] + todo;
    VersionsCons(m, todo);
    forall k | 0 <= k < n + 1
      ensures w.breaksAt(all[k].version).None?
    {
      if k > 0 { assert all[k] == todo[k - 1]; }
    }
    if versions.None? { assert all[n + 1] == todo[n]; }
  }

  lemma VersionsCons(m: Migration, ms: seq<Migration>)
    ensures Versions([m] + ms) == [m.version] + Versions(ms)
  {
  }

  lemma OutcomeFirst(db: Db, m: Migration, todo: seq<Migration>, n: nat, w: Weather, rest: (Db, Option<seq<int>>))
    requires Outcome(Commit(db, m), todo, n, w, rest) && w.breaksAt(m.version).None?
    ensures Outcome(db, [m] + todo, n + 1, w, Resumed([m.version], rest))
  {
    AppliedFirst(db, m, todo, n, rest.0);
    EndsFirst(m, todo, n, w, rest.1);
  }

  lemma NothingApplied(db: Db, todo: seq<Migration>)
    ensures AppliedTo(db, todo, 0, db)
  {
    assert todo[..0] == [] && db.log + [] == db.log && VersionSet([]) == {};
  }

  lemma NoneLeft(db: Db, w: Weather)
    ensures Outcome(db, [], 0, w, (db, Some([])))
  {
    NothingApplied(db, []);
    assert Versions([]) == [];
  }

  lemma BrokenAtOnce(db: Db, m: Migration, todo: seq<Migration>, w: Weather)
    requires w.breaksAt(m.version).Some?
    ensures Outcome(db, [m] + todo, 0, w, (db, None))
  {
    NothingApplied(db, [m] + todo);
  }

  lemma {:induction false} RunFromTodo(ms: seq<Migration>, i: nat, applied: set<int>, db: Db, w: Weather)
    returns (n: nat)
    requires i <= |ms|
    ensures Outcome(db, Todo(ms, applied, i), n, w, RunFrom(ms, i, applied, db, w))
    decreases |ms| - i
  {
    n := 0;
    if i == |ms| {
      NoneLeft(db, w);
    } else {
      var m := ms[i];
      RunFromStep(ms, i, applied, db, w);
      if m.version in applied {
        n := RunFromTodo(ms, i + 1, applied, db, w);
      } else if w.breaksAt(m.version).Some? {
        BrokenAtOnce(db, m, Todo(ms, applied, i + 1), w);
      } else {
        n := RunFromTodo(ms, i + 1, applied, Commit(db, m), w);
        OutcomeFirst(db, m, Todo(ms, applied, i + 1), n, w, RunFrom(ms, i + 1, applied, Commit(db, m), w));
        n := n + 1;
      }
    }
  }

  /**
   One run over any database, whatever it has recorded: of the migrations not recorded those
   before the first that breaks are applied, each whole, in order and recorded, and no other;
   the run succeeds exactly when none breaks, and then names them.
   */
  lemma RunAppliesTodo(ms: seq<Migration>, db: Db, w: Weather) returns (n: nat)
    requires !w.readFails
    ensures Outcome(db, Todo(ms, Recorded(db), 0), n, w, Run(ms, db, w))
  {
    n := RunFromTodo(ms, 0, Recorded(db), db, w);
  }

  /** The database after a sequence of runs. */
  function RunAll(ms: seq<Migration>, db: Db, runs: seq<Weather>): Db {
    if runs == [] then db
    else Run(ms, RunAll(ms, db, runs[..|runs| - 1]), runs[|runs| - 1]).0
  }

  /**
   From an empty database, after any sequence of runs, whatever broke in them, the
   committed statements are those of a prefix of the migrations, each exactly once.
   */
  lemma {:induction false} ExactlyOnce(ms: seq<Migration>, runs: seq<Weather>) returns (n: nat)
    requires DistinctVersions(ms)
    ensures AppliedPrefix(ms, RunAll(ms, Db([], None), runs), n)
  {
    if runs == [] {
      n := 0;
    } else {
      n := ExactlyOnce(ms, runs[..|runs| - 1]);
      n := RunKeepsPrefix(ms, RunAll(ms, Db([], None), runs[..|runs| - 1]), n, runs[|runs| - 1]);
    }
  }

  /** A run that succeeds completes the list, and the next run (if it can read) applies nothing. */
  lemma SuccessCompletes(ms: seq<Migration>, runs: seq<Weather>, w: Weather, next: Weather)
    requires DistinctVersions(ms) && !next.readFails
    requires Run(ms, RunAll(ms, Db([], None), runs), w).1.Some?
    ensures var after := Run(ms, RunAll(ms, Db([], None), runs), w).0;
            after.log == Script(ms) && Run(ms, after, next) == (after, Some([]))
  {
    var db := RunAll(ms, Db([], None), runs);
    var n := ExactlyOnce(ms, runs);
    n := RunKeepsPrefix(ms, db, n, w);
    var after := Run(ms, db, w).0;
    assert ms[..|ms|] == ms;
    RunSkips(ms, 0, |ms|, after, next);
  }
}
