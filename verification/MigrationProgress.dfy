/** Progress of the migration runner: a run that is left alone finishes the job,
    however the earlier ones were cut off. */
module MigrationProgress {
  import opened DatabaseCalls
  import opened Migrations

  /** Database calls a run needs when every file is still to be applied. */
  function Cost(files: seq<File>, i: nat): nat
    requires i <= |files|
    decreases |files| - i
  {
    if i == |files| then 0 else 4 + |files[i].stmts| + Cost(files, i + 1)
  }

  lemma {:induction false} BatchGetsThrough(exec: Engine, schema: Schema, stmts: seq<string>, calls: Calls)
    requires ExecAll(exec, schema, stmts).Done? && AllServed(calls) && |calls| >= |stmts|
    ensures var batch := ExecStatements(exec, schema, stmts, calls); batch.ok && batch.left == calls[|stmts|..]
    decreases |stmts|
  {
    if stmts != [] {
      BatchGetsThrough(exec, exec(schema, stmts[0]).schema, stmts[1..], Later(calls));
    }
  }

  lemma {:induction false} EarlierFilesRun(exec: Engine, start: Schema, files: seq<File>, k: nat, n: nat)
    requires k <= n <= |files| && After(exec, start, files, n).Reached?
    ensures After(exec, start, files, k).Reached?
    decreases n
  {
    if k < n { EarlierFilesRun(exec, start, files, k, n - 1); }
  }

  lemma FileGetsThrough(exec: Engine, start: Schema, files: seq<File>, k: nat, calls: Calls)
    requires k < |files| && After(exec, start, files, k + 1).Reached? && AllServed(calls) && |calls| >= 3 + |files[k].stmts|
    requires files[k].version !in After(exec, start, files, k).db.tracking.versions
    ensures var r := ApplyFile(exec, After(exec, start, files, k).db, files[k], calls);
            r.ok && r.left == calls[3 + |files[k].stmts|..]
  {
    BatchGetsThrough(exec, After(exec, start, files, k).db.schema, files[k].stmts, Later(calls));
  }

  lemma NextGetsThrough(exec: Engine, start: Schema, files: seq<File>, k: nat, calls: Calls)
    requires Distinct(Versions(files)) && k < |files| && After(exec, start, files, k + 1).Reached?
    requires After(exec, start, files, k).Reached? && AllServed(calls) && |calls| >= 4 + |files[k].stmts|
    ensures ApplyFrom(exec, After(exec, start, files, k).db, files, k, calls)
            == ApplyFrom(exec, After(exec, start, files, k + 1).db, files, k + 1, calls[4 + |files[k].stmts|..])
  {
    RecordedExactly(exec, start, files, k, k);
    FileGetsThrough(exec, start, files, k, Later(calls));
    NextFileApplied(exec, start, files, k, Later(calls));
  }

  lemma {:induction false} ApplyGetsThrough(exec: Engine, start: Schema, files: seq<File>, k: nat, i: nat, calls: Calls)
    requires Distinct(Versions(files)) && i <= k <= |files| && After(exec, start, files, |files|).Reached?
    requires After(exec, start, files, k).Reached? && AllServed(calls) && |calls| >= Cost(files, i)
    ensures ApplyFrom(exec, After(exec, start, files, k).db, files, i, calls).ok
    decreases |files| - i
  {
    if i < |files| {
      if i < k {
        RecordedExactly(exec, start, files, k, i);
        ApplyGetsThrough(exec, start, files, k, i + 1, Later(calls));
      } else {
        EarlierFilesRun(exec, start, files, i + 1, |files|);
        NextGetsThrough(exec, start, files, k, calls);
        ApplyGetsThrough(exec, start, files, k + 1, i + 1, calls[4 + |files[k].stmts|..]);
      }
    }
  }

  /** However earlier runs were cut off, a run that is left alone finishes the job,
      and leaves what one uninterrupted pass over the files would have left. */
  lemma {:induction false} RunGetsThrough(exec: Engine, start: Schema, files: seq<File>, runs: seq<Calls>, calls: Calls)
    requires Distinct(Versions(files)) && "users" !in start.tables
    requires ExecFiles(exec, start, files).Done? && AllServed(calls) && |calls| >= 3 + Cost(files, 0)
    ensures var r := RunAll(exec, Restarts(exec, EmptyDb(start), files, runs), files, calls);
            r.ok && Done(r.db.schema) == ExecFiles(exec, start, files) && r.db.history == Versions(files)
  {
    var db := Restarts(exec, EmptyDb(start), files, runs);
    assert files[..|files|] == files;
    AfterSchema(exec, start, files, |files|);
    RestartsKeepPrefix(exec, start, EmptyDb(start), files, runs);
    var table := EnsureTable(db, calls);
    var k := |table.db.history|;
    assert After(exec, start, files, k) == Reached(table.db);
    AfterIsSound(exec, start, files, k);
    BaselineIsIdle(table.db, files, table.left);
    SoundMeansNoRows(table.db);
    var base := Baseline(table.db, files, table.left);
    ApplyGetsThrough(exec, start, files, k, 0, base.left);
    SuccessMeansAllApplied(exec, start, files, runs, calls);
    AfterHistory(exec, start, files, |files|);
  }

  // ------------------------------------------------------- no error is ignored

  /** `left` is what remains of `calls` after some that were all served. */
  predicate ServedUpTo(calls: Calls, left: Calls)
    decreases |calls|
  {
    left == calls || (Served(calls) && ServedUpTo(Later(calls), left))
  }

  lemma {:induction false} ServedOn(calls: Calls, mid: Calls, left: Calls)
    requires ServedUpTo(calls, mid) && ServedUpTo(mid, left)
    ensures ServedUpTo(calls, left)
    decreases |calls|
  {
    if mid != calls { ServedOn(Later(calls), mid, left); }
  }

  lemma {:induction false} ServedPrefix(calls: Calls, left: Calls)
    requires ServedUpTo(calls, left)
    ensures |left| <= |calls| && left == calls[|calls| - |left|..] && forall i :: 0 <= i < |calls| - |left| ==> calls[i]
    decreases |calls|
  {
    if left != calls {
      ServedPrefix(Later(calls), left);
      assert forall i :: 1 <= i < |calls| - |left| ==> calls[i] == Later(calls)[i - 1];
    }
  }

  lemma {:induction false} TakeWasServed(calls: Calls, n: nat)
    ensures Take(calls, n).served ==> ServedUpTo(calls, Take(calls, n).left)
    decreases n
  {
    if n > 0 && Served(calls) {
      TakeWasServed(Later(calls), n - 1);
      if Take(calls, n).served { ServedOn(calls, Later(calls), Take(calls, n).left); }
    }
  }

  lemma {:induction false} BatchWasServed(exec: Engine, schema: Schema, stmts: seq<string>, calls: Calls)
    ensures var batch := ExecStatements(exec, schema, stmts, calls); batch.ok ==> ServedUpTo(calls, batch.left)
    decreases |stmts|
  {
    if stmts != [] && Served(calls) && exec(schema, stmts[0]).Done? {
      var next := exec(schema, stmts[0]).schema;
      BatchWasServed(exec, next, stmts[1..], Later(calls));
      var batch := ExecStatements(exec, next, stmts[1..], Later(calls));
      if batch.ok { ServedOn(calls, Later(calls), batch.left); }
    }
  }

  lemma {:induction false} FileWasServed(exec: Engine, db: Db, file: File, calls: Calls)
    requires db.tracking.Rows?
    ensures var r := ApplyFile(exec, db, file, calls); r.ok ==> ServedUpTo(calls, r.left)
  {
    var r := ApplyFile(exec, db, file, calls);
    if r.ok {
      BatchWasServed(exec, db.schema, file.stmts, Later(calls));
      var batch := ExecStatements(exec, db.schema, file.stmts, Later(calls));
      ServedOn(calls, Later(calls), batch.left);
      ServedOn(calls, batch.left, Later(batch.left));
      ServedOn(calls, Later(batch.left), r.left);
    }
  }

  lemma {:induction false} LoopWasServed(exec: Engine, db: Db, files: seq<File>, i: nat, calls: Calls)
    requires db.tracking.Rows? && i <= |files|
    ensures var r := ApplyFrom(exec, db, files, i, calls); r.ok ==> ServedUpTo(calls, r.left)
    decreases |files| - i
  {
    var r := ApplyFrom(exec, db, files, i, calls);
    if i < |files| && r.ok {
      if files[i].version in db.tracking.versions {
        LoopWasServed(exec, db, files, i + 1, Later(calls));
        ServedOn(calls, Later(calls), r.left);
      } else {
        var first := ApplyFile(exec, db, files[i], Later(calls));
        FileWasServed(exec, db, files[i], Later(calls));
        LoopWasServed(exec, first.db, files, i + 1, first.left);
        ServedOn(calls, Later(calls), first.left);
        ServedOn(calls, first.left, r.left);
      }
    }
  }

  lemma {:induction false} BaselineWasServed(db: Db, files: seq<File>, calls: Calls)
    requires db.tracking.Rows?
    ensures var r := Baseline(db, files, calls); r.ok ==> ServedUpTo(calls, r.left)
  {
    var r := Baseline(db, files, calls);
    if r.ok && db.tracking.versions == {} {
      ServedOn(calls, Later(calls), Later(Later(calls)));
      if HasUsers(db) {
        TakeWasServed(Later(Later(calls)), 2 + |files|);
        ServedOn(calls, Later(Later(calls)), r.left);
      }
    }
  }

  lemma {:induction false} RunWasServed(exec: Engine, db: Db, files: seq<File>, calls: Calls)
    ensures var r := RunAll(exec, db, files, calls); r.ok ==> ServedUpTo(calls, r.left)
  {
    var r := RunAll(exec, db, files, calls);
    if r.ok {
      var table := EnsureTable(db, calls);
      var base := Baseline(table.db, files, table.left);
      BaselineWasServed(table.db, files, table.left);
      LoopWasServed(exec, base.db, files, 0, base.left);
      ServedOn(calls, table.left, base.left);
      ServedOn(calls, base.left, r.left);
    }
  }

  /** A run that reports success had every one of its calls served: no error of the
      database is passed over. */
  lemma SuccessMeansServed(exec: Engine, db: Db, files: seq<File>, calls: Calls, i: nat)
    requires RunAll(exec, db, files, calls).ok
    ensures var left := RunAll(exec, db, files, calls).left;
            && |left| <= |calls| && left == calls[|calls| - |left|..]
            && (i < |calls| - |left| ==> calls[i])
  {
    RunWasServed(exec, db, files, calls);
    ServedPrefix(calls, RunAll(exec, db, files, calls).left);
  }
}
