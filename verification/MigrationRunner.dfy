/** The migration runner's own steps (services/api/internal/migrate/migrate.go),
    each a loop over database calls that may fail, against the specification. */
module MigrationRunner {
  import opened SqlSplitter
  import opened DatabaseCalls
  import opened Migrations

  /** A file as it is embedded in the program. */
  datatype Embedded = Embedded(version: string, sql: string)

  function Parsed(files: seq<Embedded>): seq<File> {
    seq(|files|, i requires 0 <= i < |files| => File(files[i].version, Split(files[i].sql)))
  }

  class Pool {
    const exec: Engine
    var tracking: Tracking
    var schema: Schema
    var calls: Calls
    ghost var history: seq<string>

    ghost function View(): Db
      reads this
    {
      Db(tracking, schema, history)
    }

    constructor (exec: Engine, tracking: Tracking, schema: Schema, ghost history: seq<string>, calls: Calls)
      ensures this.exec == exec && this.calls == calls && View() == Db(tracking, schema, history)
    {
      this.exec, this.tracking, this.schema, this.calls := exec, tracking, schema, calls;
      this.history := history;
    }

    /** One database call. */
    method Call() returns (ok: bool)
      modifies this`calls
      ensures ok == Served(old(calls)) && calls == Later(old(calls))
    {
      ok := calls != [] && calls[0];
      if calls != [] { calls := calls[1..]; }
    }

    method CreateTracking() returns (ok: bool)
      modifies this`tracking, this`calls
      ensures Step(View(), calls, ok) == EnsureTable(old(View()), old(calls))
    {
      ok := Call();
      if ok && tracking.Absent? {
        tracking := Rows({});
      }
    }

    method RecordBaseline(files: seq<Embedded>) returns (ok: bool)
      requires tracking.Rows?
      modifies this`tracking, this`calls
      ensures Step(View(), calls, ok) == Baseline(old(View()), Parsed(files), old(calls))
    {
      ok := Call();
      if !ok || tracking.versions != {} {
        return;
      }
      ok := Call();
      if ok && "users" in schema.tables {
        ok := RecordRows(files);
      }
    }

    /** The baseline's transaction. */
    method RecordRows(files: seq<Embedded>) returns (ok: bool)
      requires tracking.Rows?
      modifies this`tracking, this`calls
      ensures Step(View(), calls, ok) == RecordAll(old(View()), Parsed(files), old(calls))
    {
      ok := Call();
      if !ok {
        return;
      }
      var rows, i := tracking.versions, 0;
      ghost var before, scripts := calls, Parsed(files);
      while i < |files|
        invariant i <= |files| && scripts == Parsed(files) && Take(calls, |files| - i + 1) == Take(before, |files| + 1)
        invariant tracking == old(tracking) && schema == old(schema) && history == old(history)
        invariant rows + SetOf(Versions(scripts[i..])) == old(tracking).versions + SetOf(Versions(scripts))
      {
        ok := Call();
        if !ok {
          return;
        }
        assert scripts[i..][1..] == scripts[i + 1..];
        assert SetOf(Versions(scripts[i..])) == {files[i].version} + SetOf(Versions(scripts[i + 1..])) by {
          assert Versions(scripts[i..])[1..] == Versions(scripts[i + 1..]);
        }
        rows := rows + {files[i].version};
        i := i + 1;
      }
      ok := Call();
      if ok {
        assert scripts[i..] == [] && Versions(scripts[i..]) == [];
        assert rows == tracking.versions + SetOf(Versions(scripts));
        tracking := Rows(rows);
      }
    }

    method ApplyOne(file: Embedded) returns (ok: bool)
      requires tracking.Rows?
      modifies this
      ensures tracking.Rows?
      ensures Step(View(), calls, ok) == ApplyFile(exec, old(View()), File(file.version, Split(file.sql)), old(calls))
    {
      ok := Call();
      if !ok {
        return;
      }
      var stmts := SplitStatements(file.sql);
      var working, i := schema, 0;
      ghost var start, before := schema, calls;
      assert stmts[0..] == stmts;
      while i < |stmts|
        invariant i <= |stmts| && ok
        invariant ExecStatements(exec, working, stmts[i..], calls) == ExecStatements(exec, start, stmts, before)
        invariant tracking == old(tracking) && schema == old(schema) && history == old(history)
      {
        ok := Call();
        if !ok {
          return;
        }
        match exec(working, stmts[i]) {
          case Failed => return false;
          case Done(next) =>
            assert stmts[i..][1..] == stmts[i + 1..];
            working := next;
        }
        i := i + 1;
      }
      assert stmts[i..] == [];
      ok := Call();
      if !ok {
        return;
      }
      if file.version in tracking.versions {
        return false;
      }
      ok := Call();
      if ok {
        tracking, schema := Rows(tracking.versions + {file.version}), working;
        history := history + [file.version];
      }
    }

    /** Run: `files` are the embedded files in lexicographic order. */
    method Run(files: seq<Embedded>) returns (ok: bool)
      modifies this
      ensures Step(View(), calls, ok) == RunAll(exec, old(View()), Parsed(files), old(calls))
    {
      ok := CreateTracking();
      if !ok {
        return;
      }
      ok := RecordBaseline(files);
      if !ok {
        return;
      }
      var i := 0;
      ghost var base, left, scripts := View(), calls, Parsed(files);
      while i < |files|
        invariant i <= |files| && ok && tracking.Rows? && scripts == Parsed(files)
        invariant ApplyFrom(exec, View(), scripts, i, calls) == ApplyFrom(exec, base, scripts, 0, left)
      {
        ok := Call();
        if !ok {
          return;
        }
        if files[i].version !in tracking.versions {
          ok := ApplyOne(files[i]);
          if !ok {
            return;
          }
        }
        i := i + 1;
      }
    }
  }
}
