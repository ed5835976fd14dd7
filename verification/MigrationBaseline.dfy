/** The baseline rule of the migration runner: databases older than the runner are
    adopted, and two runners that start together can fool it. */
module MigrationBaseline {
  import opened DatabaseCalls
  import opened Migrations
  import opened MigrationProgress

  lemma {:induction false} InSetOf(files: seq<File>, v: string)
    ensures v in SetOf(Versions(files)) <==> exists i :: 0 <= i < |files| && files[i].version == v
  {
    if files != [] {
      InSetOf(files[1..], v);
      if i :| 0 <= i < |files| && files[i].version == v {
        if i > 0 { assert files[1..][i - 1].version == v; }
      }
      if i :| 0 <= i < |files[1..]| && files[1..][i].version == v {
        assert files[i + 1].version == v;
      }
    }
  }

  lemma {:induction false} EveryVersionInSet(files: seq<File>)
    ensures forall j :: 0 <= j < |files| ==> files[j].version in SetOf(Versions(files))
  {
    if files != [] {
      EveryVersionInSet(files[1..]);
      assert forall j :: 1 <= j < |files| ==> files[j] == files[1..][j - 1];
    }
  }

  /** Once every version is recorded no run executes anything again. */
  lemma {:induction false} RecordedStaysIdle(exec: Engine, db: Db, files: seq<File>, runs: seq<Calls>)
    requires files != [] && db.tracking.Rows?
    requires forall j :: 0 <= j < |files| ==> files[j].version in db.tracking.versions
    ensures Restarts(exec, db, files, runs) == db
    decreases |runs|
  {
    if runs != [] {
      assert files[0].version in db.tracking.versions;
      var table := EnsureTable(db, runs[0]);
      assert table.db == db;
      if table.ok {
        var base := Baseline(db, files, table.left);
        if base.ok { AllApplied(exec, db, files, 0, base.left); }
      }
      RecordedStaysIdle(exec, db, files, runs[1..]);
    }
  }

  predicate Unrecorded(t: Tracking) { t == Absent || t == Rows({}) }

  /** A database set up before the runner existed: all files are recorded or none
      is, none is executed, and this stays so over every later run. */
  lemma {:induction false} OlderDatabaseIsAdopted(exec: Engine, db: Db, files: seq<File>, runs: seq<Calls>)
    requires files != [] && Unrecorded(db.tracking) && HasUsers(db)
    ensures var after := Restarts(exec, db, files, runs);
            && after.schema == db.schema && after.history == db.history
            && (Unrecorded(after.tracking) || after.tracking == Rows(SetOf(Versions(files))))
    decreases |runs|
  {
    if runs != [] {
      EveryVersionInSet(files);
      assert files[0].version in SetOf(Versions(files));
      var next := RunAll(exec, db, files, runs[0]).db;
      AdoptOnce(exec, db, files, runs[0]);
      if next.tracking == Rows(SetOf(Versions(files))) {
        RecordedStaysIdle(exec, next, files, runs[1..]);
      } else {
        OlderDatabaseIsAdopted(exec, next, files, runs[1..]);
      }
    }
  }

  lemma {:induction false} BaselineAdopts(db: Db, files: seq<File>, calls: Calls)
    requires db.tracking == Rows({}) && HasUsers(db)
    ensures var r := Baseline(db, files, calls);
            && (r.ok <==> Take(calls, 4 + |files|).served)
            && r.db == if r.ok then db.(tracking := Rows(SetOf(Versions(files)))) else db
  {
    assert {} + SetOf(Versions(files)) == SetOf(Versions(files));
  }

  lemma {:induction false} AdoptOnce(exec: Engine, db: Db, files: seq<File>, calls: Calls)
    requires files != [] && Unrecorded(db.tracking) && HasUsers(db)
    ensures var r := RunAll(exec, db, files, calls);
            && r.db.schema == db.schema && r.db.history == db.history
            && (Unrecorded(r.db.tracking) || r.db.tracking == Rows(SetOf(Versions(files))))
            && (AllServed(calls) && |calls| >= 5 + |files| ==> r.db.tracking == Rows(SetOf(Versions(files))))
  {
    var table := EnsureTable(db, calls);
    if table.ok {
      BaselineAdopts(table.db, files, table.left);
      if AllServed(calls) && |calls| >= 5 + |files| { TakeServed(table.left, 4 + |files|); }
      var base := Baseline(table.db, files, table.left);
      if base.ok {
        EveryVersionInSet(files);
        AllApplied(exec, base.db, files, 0, base.left);
      }
    }
  }

  /** The baseline's two reads and its transaction, with another process working on
      the database in between. */
  function BaselineBetween(counted: Db, probed: Db, written: Db, files: seq<File>): Db
    requires counted.tracking.Rows? && probed.tracking.Rows? && written.tracking.Rows?
  {
    if counted.tracking.versions == {} && HasUsers(probed)
    then written.(tracking := Rows(written.tracking.versions + SetOf(Versions(files)))) else written
  }

  /** Nothing locks the table. Two processes that start together break soundness
      exactly when the users table appears between one's count and its probe while
      the other still has files to apply. */
  lemma {:induction false} BaselineRace(exec: Engine, start: Schema, files: seq<File>, c: nat, p: nat, w: nat)
    requires Distinct(Versions(files)) && "users" !in start.tables && c <= p <= w <= |files|
    requires After(exec, start, files, c).Reached? && After(exec, start, files, p).Reached? && After(exec, start, files, w).Reached?
    ensures var counted, probed, written :=
              After(exec, start, files, c).db, After(exec, start, files, p).db, After(exec, start, files, w).db;
            Sound(BaselineBetween(counted, probed, written, files)) <==> !(c == 0 && HasUsers(probed) && w < |files|)
  {
    var counted, probed, written :=
      After(exec, start, files, c).db, After(exec, start, files, p).db, After(exec, start, files, w).db;
    AfterIsSound(exec, start, files, c);
    AfterIsSound(exec, start, files, w);
    SoundMeansNoRows(counted);
    var after := BaselineBetween(counted, probed, written, files);
    if c == 0 && HasUsers(probed) {
      AfterIsSound(exec, start, files, p);
      if w < |files| {
        RecordedExactly(exec, start, files, w, w);
        EveryVersionInSet(files);
        assert files[w].version in after.tracking.versions;
      } else {
        forall v ensures v in SetOf(Versions(files)) ==> v in written.tracking.versions {
          InSetOf(files, v);
          if i :| 0 <= i < |files| && files[i].version == v { RecordedExactly(exec, start, files, w, i); }
        }
        assert after.tracking == written.tracking;
      }
    }
  }

  /** The race from an empty database: the other process commits the first file,
      which creates the users table; this one then records every file, and no later
      run executes the files after the first. */
  lemma {:induction false} RaceSkipsFilesForever(exec: Engine, start: Schema, files: seq<File>, calls: Calls, runs: seq<Calls>)
    requires Distinct(Versions(files)) && |files| >= 2 && "users" !in start.tables
    requires ExecAll(exec, start, files[0].stmts).Done?
    requires "users" in ExecAll(exec, start, files[0].stmts).schema.tables
    requires AllServed(calls) && |calls| >= 3 + |files[0].stmts|
    ensures var counted := EnsureTable(EmptyDb(start), [true]).db;
            var other := ApplyFile(exec, counted, files[0], calls).db;
            var after := Restarts(exec, BaselineBetween(counted, other, other, files), files, runs);
            && after.history == [files[0].version] && after.tracking.Rows? && files[1].version in after.tracking.versions
            && Done(after.schema) == ExecAll(exec, start, files[0].stmts)
  {
    var counted := EnsureTable(EmptyDb(start), [true]).db;
    BatchGetsThrough(exec, start, files[0].stmts, Later(calls));
    BatchIsExecAll(exec, start, files[0].stmts, Later(calls));
    var other := ApplyFile(exec, counted, files[0], calls).db;
    EveryVersionInSet(files);
    RecordedStaysIdle(exec, BaselineBetween(counted, other, other, files), files, runs);
  }
}
