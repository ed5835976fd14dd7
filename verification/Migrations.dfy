/** What a run of the migration runner (services/api/internal/migrate/migrate.go)
    does to the database, and what any number of interrupted runs cannot break.
    A transaction is one step of the database. Any database call of a run may fail,
    and the run may end with any call; what it had not committed is gone. */
module Migrations {
  import opened DatabaseCalls

  /** The application's own schema: its tables, and the rest of its contents. */
  datatype Schema = Schema(tables: set<string>, contents: string)
  datatype Outcome = Done(schema: Schema) | Failed

  /** What PostgreSQL does with one statement. */
  type Engine = (Schema, string) -> Outcome

  /** A migration file as the runner sees it: its name and its statements. */
  datatype File = File(version: string, stmts: seq<string>)
  datatype Tracking = Absent | Rows(versions: set<string>)

  /** `history` lists the versions whose SQL was committed, oldest first. */
  datatype Db = Db(tracking: Tracking, schema: Schema, history: seq<string>)

  /** A piece of a run: the database after it, the calls that are left, and whether
      it returned without error. */
  datatype Step = Step(db: Db, left: Calls, ok: bool)

  // ----------------------------------------------------------- specification

  function EnsureTable(db: Db, calls: Calls): Step {
    if !Served(calls) then Step(db, Later(calls), false)
    else Step(if db.tracking.Absent? then db.(tracking := Rows({})) else db, Later(calls), true)
  }

  function Versions(files: seq<File>): seq<string> {
    if files == [] then [] else [files[0].version] + Versions(files[1..])
  }

  function SetOf(s: seq<string>): set<string> {
    if s == [] then {} else {s[0]} + SetOf(s[1..])
  }

  predicate HasUsers(db: Db) { "users" in db.schema.tables }

  /** One transaction: its begin, a row for every file, and its commit. */
  function RecordAll(db: Db, files: seq<File>, calls: Calls): Step
    requires db.tracking.Rows?
  {
    var tx := Take(calls, 2 + |files|);
    Step(if tx.served then db.(tracking := Rows(db.tracking.versions + SetOf(Versions(files)))) else db, tx.left, tx.served)
  }

  /** Counting the rows, looking for the users table, and, when there are no rows
      but the table, recording every file. */
  function Baseline(db: Db, files: seq<File>, calls: Calls): Step
    requires db.tracking.Rows?
  {
    if !Served(calls) then Step(db, Later(calls), false)
    else if db.tracking.versions != {} then Step(db, Later(calls), true)
    else if !Served(Later(calls)) then Step(db, Later(Later(calls)), false)
    else if !HasUsers(db) then Step(db, Later(Later(calls)), true)
    else RecordAll(db, files, Later(Later(calls)))
  }

  /** The statements of one file inside its transaction. */
  datatype Batch = Batch(schema: Schema, left: Calls, ok: bool)

  function ExecStatements(exec: Engine, schema: Schema, stmts: seq<string>, calls: Calls): Batch
    decreases |stmts|
  {
    if stmts == [] then Batch(schema, calls, true)
    else if !Served(calls) then Batch(schema, Later(calls), false)
    else match exec(schema, stmts[0])
      case Failed => Batch(schema, Later(calls), false)
      case Done(next) => ExecStatements(exec, next, stmts[1..], Later(calls))
  }

  function ApplyFile(exec: Engine, db: Db, file: File, calls: Calls): Step
    requires db.tracking.Rows?
  {
    if !Served(calls) then Step(db, Later(calls), false)
    else
      var batch := ExecStatements(exec, db.schema, file.stmts, Later(calls));
      if !batch.ok then Step(db, batch.left, false)
      else if !Served(batch.left) || file.version in db.tracking.versions then Step(db, Later(batch.left), false)
      else if !Served(Later(batch.left)) then Step(db, Later(Later(batch.left)), false)
      else Step(Db(Rows(db.tracking.versions + {file.version}), batch.schema, db.history + [file.version]), Later(Later(batch.left)), true)
  }

  /** The loop over the files, from file i on. */
  function ApplyFrom(exec: Engine, db: Db, files: seq<File>, i: nat, calls: Calls): (r: Step)
    requires db.tracking.Rows? && i <= |files|
    ensures r.db.tracking.Rows?
    decreases |files| - i
  {
    if i == |files| then Step(db, calls, true)
    else if !Served(calls) then Step(db, Later(calls), false)
    else if files[i].version in db.tracking.versions then ApplyFrom(exec, db, files, i + 1, Later(calls))
    else
      var first := ApplyFile(exec, db, files[i], Later(calls));
      if !first.ok then first else ApplyFrom(exec, first.db, files, i + 1, first.left)
  }

  function RunAll(exec: Engine, db: Db, files: seq<File>, calls: Calls): Step {
    var table := EnsureTable(db, calls);
    if !table.ok then table
    else
      var base := Baseline(table.db, files, table.left);
      if !base.ok then base else ApplyFrom(exec, base.db, files, 0, base.left)
  }

  // --------------------------------------------- the invariant across crashes

  predicate Distinct(s: seq<string>) {
    forall i, j :: 0 <= i < j < |s| ==> s[i] != s[j]
  }

  /** What is recorded is what was committed, each version once, and the users
      table can only come from a committed migration. */
  ghost predicate Sound(db: Db) {
    && (db.tracking.Absent? ==> db.history == [])
    && (db.tracking.Rows? ==> forall v :: v in db.tracking.versions <==> v in db.history)
    && Distinct(db.history)
    && (db.history == [] ==> !HasUsers(db))
  }

  lemma SoundMeansNoRows(db: Db)
    requires Sound(db) && db.tracking.Rows?
    ensures db.tracking.versions == {} <==> db.history == []
  {
    if db.history != [] { assert db.history[0] in db.tracking.versions; }
    else { assert forall v :: v !in db.tracking.versions; }
  }

  /** The baseline rule never fires on a database only migrations have touched. */
  lemma BaselineIsIdle(db: Db, files: seq<File>, calls: Calls)
    requires Sound(db) && db.tracking.Rows?
    ensures Baseline(db, files, calls).db == db
  {
    SoundMeansNoRows(db);
  }

  lemma {:induction false} ApplyFromSound(exec: Engine, db: Db, files: seq<File>, i: nat, calls: Calls)
    requires Sound(db) && db.tracking.Rows? && i <= |files|
    ensures Sound(ApplyFrom(exec, db, files, i, calls).db)
    ensures db.history <= ApplyFrom(exec, db, files, i, calls).db.history
    decreases |files| - i
  {
    if i < |files| && Served(calls) {
      if files[i].version in db.tracking.versions {
        ApplyFromSound(exec, db, files, i + 1, Later(calls));
      } else {
        var first := ApplyFile(exec, db, files[i], Later(calls));
        if first.ok { ApplyFromSound(exec, first.db, files, i + 1, first.left); }
      }
    }
  }

  /** Every run, of any file set, stopped anywhere, keeps the database sound and
      never loses or repeats a committed version. */
  lemma RunKeepsSound(exec: Engine, db: Db, files: seq<File>, calls: Calls)
    requires Sound(db)
    ensures Sound(RunAll(exec, db, files, calls).db)
    ensures db.history <= RunAll(exec, db, files, calls).db.history
  {
    var table := EnsureTable(db, calls);
    if table.ok {
      BaselineIsIdle(table.db, files, table.left);
      var base := Baseline(table.db, files, table.left);
      if base.ok { ApplyFromSound(exec, base.db, files, 0, base.left); }
    }
  }

  // ------------------------------------------------- order, for a fixed file set

  /** Executing files one after the other without any interruption. */
  function ExecFiles(exec: Engine, schema: Schema, files: seq<File>): Outcome {
    if files == [] then Done(schema)
    else match ExecFiles(exec, schema, files[..|files| - 1])
      case Failed => Failed
      case Done(next) => ExecAll(exec, next, files[|files| - 1].stmts)
  }

  function ExecAll(exec: Engine, schema: Schema, stmts: seq<string>): Outcome
    decreases |stmts|
  {
    if stmts == [] then Done(schema)
    else match exec(schema, stmts[0])
      case Failed => Failed
      case Done(next) => ExecAll(exec, next, stmts[1..])
  }

  lemma {:induction false} BatchIsExecAll(exec: Engine, schema: Schema, stmts: seq<string>, calls: Calls)
    ensures var batch := ExecStatements(exec, schema, stmts, calls);
            batch.ok ==> ExecAll(exec, schema, stmts) == Done(batch.schema)
    decreases |stmts|
  {
    if stmts != [] && Served(calls) {
      match exec(schema, stmts[0])
      case Failed =>
      case Done(next) => BatchIsExecAll(exec, next, stmts[1..], Later(calls));
    }
  }

  lemma {:induction false} VersionsAt(files: seq<File>, i: nat)
    requires i < |files|
    ensures |Versions(files)| == |files| && Versions(files)[i] == files[i].version
  {
    if i > 0 { VersionsAt(files[1..], i - 1); }
    else if |files| > 1 { VersionsAt(files[1..], 0); }
  }

  lemma {:induction false} VersionsLength(files: seq<File>)
    ensures |Versions(files)| == |files|
  {
    if files != [] { VersionsLength(files[1..]); }
  }

  datatype Reach = Unreachable | Reached(db: Db)

  /** The database an uninterrupted run would have after the first k files. */
  function After(exec: Engine, start: Schema, files: seq<File>, k: nat): (r: Reach)
    requires k <= |files|
    ensures r.Reached? ==> r.db.tracking.Rows? && |r.db.history| == k
    decreases k
  {
    if k == 0 then Reached(Db(Rows({}), start, []))
    else match After(exec, start, files, k - 1)
      case Unreachable => Unreachable
      case Reached(db) =>
        match ExecAll(exec, db.schema, files[k - 1].stmts)
        case Failed => Unreachable
        case Done(schema) =>
          var version := files[k - 1].version;
          Reached(Db(Rows(db.tracking.versions + {version}), schema, db.history + [version]))
  }

  lemma {:induction false} AfterHistory(exec: Engine, start: Schema, files: seq<File>, k: nat)
    requires k <= |files| && After(exec, start, files, k).Reached?
    ensures |Versions(files)| == |files|
    ensures After(exec, start, files, k).db.history == Versions(files)[..k]
    decreases k
  {
    VersionsLength(files);
    if k > 0 {
      AfterHistory(exec, start, files, k - 1);
      VersionsAt(files, k - 1);
    }
  }

  lemma {:induction false} AfterSchema(exec: Engine, start: Schema, files: seq<File>, k: nat)
    requires k <= |files|
    ensures ExecFiles(exec, start, files[..k])
            == match After(exec, start, files, k) case Unreachable => Failed case Reached(db) => Done(db.schema)
    decreases k
  {
    if k > 0 {
      AfterSchema(exec, start, files, k - 1);
      assert files[..k][..k - 1] == files[..k - 1];
    }
  }

  lemma {:induction false} AfterRecords(exec: Engine, start: Schema, files: seq<File>, k: nat, v: string)
    requires k <= |files| && After(exec, start, files, k).Reached?
    ensures var db := After(exec, start, files, k).db; v in db.tracking.versions <==> v in db.history
    decreases k
  {
    if k > 0 { AfterRecords(exec, start, files, k - 1, v); }
  }

  /** Exactly the versions of the applied prefix are recorded. */
  lemma {:induction false} RecordedExactly(exec: Engine, start: Schema, files: seq<File>, k: nat, i: nat)
    requires k <= |files| && After(exec, start, files, k).Reached? && Distinct(Versions(files)) && i < |files|
    ensures files[i].version in After(exec, start, files, k).db.tracking.versions <==> i < k
  {
    var db := After(exec, start, files, k).db;
    AfterHistory(exec, start, files, k);
    AfterRecords(exec, start, files, k, files[i].version);
    VersionsAt(files, i);
    if i < k { assert db.history[i] == files[i].version; }
    else { forall j | 0 <= j < k ensures db.history[j] != files[i].version { VersionsAt(files, j); } }
  }

  lemma {:induction false} AfterIsSound(exec: Engine, start: Schema, files: seq<File>, k: nat)
    requires k <= |files| && After(exec, start, files, k).Reached?
    requires Distinct(Versions(files)) && "users" !in start.tables
    ensures Sound(After(exec, start, files, k).db)
  {
    var db := After(exec, start, files, k).db;
    AfterHistory(exec, start, files, k);
    forall v ensures v in db.tracking.versions <==> v in db.history { AfterRecords(exec, start, files, k, v); }
  }

  /** The database is what an uninterrupted run would have left at some file. */
  ghost predicate AppliedPrefix(exec: Engine, start: Schema, db: Db, files: seq<File>) {
    || db == EmptyDb(start)
    || (|db.history| <= |files| && After(exec, start, files, |db.history|) == Reached(db))
  }

  /** A file that fails leaves no trace; one that succeeds leaves its whole effect. */
  lemma ApplyFileIsAtomic(exec: Engine, db: Db, file: File, calls: Calls)
    requires db.tracking.Rows?
    ensures var r := ApplyFile(exec, db, file, calls);
            && (!r.ok ==> r.db == db)
            && (r.ok ==> && ExecAll(exec, db.schema, file.stmts) == Done(r.db.schema)
                         && r.db == Db(Rows(db.tracking.versions + {file.version}), r.db.schema, db.history + [file.version]))
  {
    if Served(calls) { BatchIsExecAll(exec, db.schema, file.stmts, Later(calls)); }
  }

  lemma NextFileApplied(exec: Engine, start: Schema, files: seq<File>, k: nat, calls: Calls)
    requires k < |files| && After(exec, start, files, k).Reached?
    ensures var db := After(exec, start, files, k).db; var r := ApplyFile(exec, db, files[k], calls);
            if r.ok then After(exec, start, files, k + 1) == Reached(r.db) else r.db == db
  {
    ApplyFileIsAtomic(exec, After(exec, start, files, k).db, files[k], calls);
  }

  ghost predicate ReachedFrom(exec: Engine, start: Schema, files: seq<File>, r: Step) {
    && |r.db.history| <= |files|
    && After(exec, start, files, |r.db.history|) == Reached(r.db)
    && (r.ok ==> |r.db.history| == |files|)
  }

  /** At the first file not yet applied the loop stops or moves to the next state. */
  lemma ApplyNext(exec: Engine, start: Schema, files: seq<File>, k: nat, calls: Calls) returns (left: Calls)
    requires Distinct(Versions(files)) && k < |files| && After(exec, start, files, k).Reached? && Served(calls)
    ensures var db := After(exec, start, files, k).db; var r := ApplyFrom(exec, db, files, k, calls);
            || (!r.ok && r.db == db)
            || (After(exec, start, files, k + 1).Reached?
                && r == ApplyFrom(exec, After(exec, start, files, k + 1).db, files, k + 1, left))
  {
    RecordedExactly(exec, start, files, k, k);
    NextFileApplied(exec, start, files, k, Later(calls));
    left := ApplyFile(exec, After(exec, start, files, k).db, files[k], Later(calls)).left;
  }

  /** From file i on, files already applied are skipped, then the rest run in order. */
  lemma {:induction false} ApplyKeepsPrefix(exec: Engine, start: Schema, files: seq<File>, k: nat, i: nat, calls: Calls)
    requires Distinct(Versions(files)) && i <= k <= |files| && After(exec, start, files, k).Reached?
    ensures ReachedFrom(exec, start, files, ApplyFrom(exec, After(exec, start, files, k).db, files, i, calls))
    decreases |files| - i
  {
    var db := After(exec, start, files, k).db;
    if i < |files| && Served(calls) {
      if i < k {
        RecordedExactly(exec, start, files, k, i);
        ApplyKeepsPrefix(exec, start, files, k, i + 1, Later(calls));
      } else {
        var left := ApplyNext(exec, start, files, k, calls);
        if After(exec, start, files, k + 1).Reached? { ApplyKeepsPrefix(exec, start, files, k + 1, i + 1, left); }
      }
    }
  }

  lemma {:induction false} RunKeepsPrefix(exec: Engine, start: Schema, db: Db, files: seq<File>, calls: Calls)
    requires Distinct(Versions(files)) && "users" !in start.tables && AppliedPrefix(exec, start, db, files)
    ensures var r := RunAll(exec, db, files, calls);
            AppliedPrefix(exec, start, r.db, files) && (r.ok ==> |r.db.history| == |files|)
  {
    var table := EnsureTable(db, calls);
    if table.ok {
      var k := |table.db.history|;
      assert After(exec, start, files, k) == Reached(table.db);
      AfterIsSound(exec, start, files, k);
      BaselineIsIdle(table.db, files, table.left);
      var base := Baseline(table.db, files, table.left);
      if base.ok { ApplyKeepsPrefix(exec, start, files, k, 0, base.left); }
    }
  }

  /** A database in service: one run after another, with calls that fail or stop anywhere. */
  function Restarts(exec: Engine, db: Db, files: seq<File>, runs: seq<Calls>): Db
    decreases |runs|
  {
    if runs == [] then db
    else Restarts(exec, RunAll(exec, db, files, runs[0]).db, files, runs[1..])
  }

  /** One more run goes on where the others left off. */
  lemma {:induction false} RestartsGoOn(exec: Engine, db: Db, files: seq<File>, runs: seq<Calls>, last: Calls)
    ensures Restarts(exec, db, files, runs + [last]) == RunAll(exec, Restarts(exec, db, files, runs), files, last).db
    decreases |runs|
  {
    if runs == [] {
      assert [] + [last] == [last] && [last][1..] == [];
    } else {
      assert (runs + [last])[1..] == runs[1..] + [last];
      RestartsGoOn(exec, RunAll(exec, db, files, runs[0]).db, files, runs[1..], last);
    }
  }

  function EmptyDb(start: Schema): Db { Db(Absent, start, []) }

  lemma {:induction false} RestartsKeepPrefix(exec: Engine, start: Schema, db: Db, files: seq<File>, runs: seq<Calls>)
    requires Distinct(Versions(files)) && "users" !in start.tables && AppliedPrefix(exec, start, db, files)
    ensures AppliedPrefix(exec, start, Restarts(exec, db, files, runs), files)
    decreases |runs|
  {
    if runs != [] {
      RunKeepsPrefix(exec, start, db, files, runs[0]);
      RestartsKeepPrefix(exec, start, RunAll(exec, db, files, runs[0]).db, files, runs[1..]);
    }
  }

  /** From an empty database, after any interrupted runs: the versions committed
      are a prefix of the files, each once and in order, the recorded set is the
      committed set, and the schema is as if nothing had been interrupted. */
  lemma {:induction false} MigrationsAcrossCrashes(exec: Engine, start: Schema, files: seq<File>, runs: seq<Calls>)
    requires Distinct(Versions(files)) && "users" !in start.tables
    ensures var db := Restarts(exec, EmptyDb(start), files, runs); var k := |db.history|;
            && k <= |files| && |Versions(files)| == |files|
            && db.history == Versions(files)[..k]
            && (db.tracking.Rows? ==> forall v :: v in db.tracking.versions <==> v in db.history)
            && ExecFiles(exec, start, files[..k]) == Done(db.schema)
  {
    var db := Restarts(exec, EmptyDb(start), files, runs);
    VersionsLength(files);
    RestartsKeepPrefix(exec, start, EmptyDb(start), files, runs);
    AfterSchema(exec, start, files, |db.history|);
    if db != EmptyDb(start) {
      AfterHistory(exec, start, files, |db.history|);
      AfterIsSound(exec, start, files, |db.history|);
    }
  }

  lemma {:induction false} AllApplied(exec: Engine, db: Db, files: seq<File>, i: nat, calls: Calls)
    requires db.tracking.Rows? && i <= |files|
    requires forall j :: 0 <= j < |files| ==> files[j].version in db.tracking.versions
    ensures ApplyFrom(exec, db, files, i, calls).db == db
    ensures AllServed(calls) && |calls| >= |files| - i ==> ApplyFrom(exec, db, files, i, calls).ok
    decreases |files| - i
  {
    if i < |files| && Served(calls) {
      assert files[i..][1..] == files[i + 1..];
      AllApplied(exec, db, files, i + 1, Later(calls));
    }
  }

  lemma {:induction false} SuccessMeansAllApplied(exec: Engine, start: Schema, files: seq<File>, runs: seq<Calls>, calls: Calls)
    requires Distinct(Versions(files)) && "users" !in start.tables
    requires RunAll(exec, Restarts(exec, EmptyDb(start), files, runs), files, calls).ok
    ensures After(exec, start, files, |files|) == Reached(RunAll(exec, Restarts(exec, EmptyDb(start), files, runs), files, calls).db)
  {
    RestartsKeepPrefix(exec, start, EmptyDb(start), files, runs);
    RunKeepsPrefix(exec, start, Restarts(exec, EmptyDb(start), files, runs), files, calls);
  }

  /** After a successful run the next one changes nothing, however far it gets,
      and succeeds when it gets through. */
  lemma {:induction false} SecondRunIsIdle(exec: Engine, start: Schema, files: seq<File>, runs: seq<Calls>, calls: Calls, again: Calls)
    requires Distinct(Versions(files)) && "users" !in start.tables
    requires RunAll(exec, Restarts(exec, EmptyDb(start), files, runs), files, calls).ok
    ensures var db := RunAll(exec, Restarts(exec, EmptyDb(start), files, runs), files, calls).db;
            && db.history == Versions(files)
            && RunAll(exec, db, files, again).db == db
            && (AllServed(again) && |again| >= 3 + |files| ==> RunAll(exec, db, files, again).ok)
  {
    var db := RunAll(exec, Restarts(exec, EmptyDb(start), files, runs), files, calls).db;
    SuccessMeansAllApplied(exec, start, files, runs, calls);
    AfterHistory(exec, start, files, |files|);
    AfterIsSound(exec, start, files, |files|);
    forall j | 0 <= j < |files| ensures files[j].version in db.tracking.versions {
      RecordedExactly(exec, start, files, |files|, j);
    }
    IdleWhenAllRecorded(exec, db, files, again);
  }

  lemma IdleWhenAllRecorded(exec: Engine, db: Db, files: seq<File>, calls: Calls)
    requires Sound(db) && db.tracking.Rows?
    requires forall j :: 0 <= j < |files| ==> files[j].version in db.tracking.versions
    ensures RunAll(exec, db, files, calls).db == db
    ensures AllServed(calls) && |calls| >= 3 + |files| ==> RunAll(exec, db, files, calls).ok
  {
    var table := EnsureTable(db, calls);
    if table.ok {
      BaselineIsIdle(table.db, files, table.left);
      SoundMeansNoRows(db);
      var base := Baseline(table.db, files, table.left);
      if base.ok { AllApplied(exec, db, files, 0, base.left); }
    }
  }
}
