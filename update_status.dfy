/** backend/update_schema.js: applies the schema file, then adds the `status` column to
    `contact_submissions` in a step whose failure is only reported. */
module UpdateStatus {
  import opened Js
  import opened Db

  const Status := Column("status", "VARCHAR(50)", false, Const(Text("new")))

  const AddStatus := AddColumns("contact_submissions", [Status])

  /** 'Schema updated successfully!' (with or without the status column), or 'Failed to update
      schema'. */
  datatype Outcome = Updated(statusAdded: bool) | Failed

  /** The script as a whole. `schema` is the statements of schema.sql, or None when the file
      cannot be read. */
  function StatusRun(r: Run, schema: Option<seq<Command>>, f: Option<nat>): (Run, Outcome)
    requires !r.failed
  {
    if schema.None? then (r, Failed)
    else
      var r1 := ExecBatch(r, schema.value, f);
      if r1.failed then (r1, Failed)
      else
        var r2 := Exec(r1, AddStatus, f);
        (Run(r2.db, r2.issued, false), Updated(!r2.failed))
  }

  method UpdateSchema(pool: Pool, schema: Option<seq<Command>>) returns (outcome: Outcome)
    requires pool.open
    modifies pool
    ensures !pool.open
    ensures var (r, o) := StatusRun(old(pool.State()), schema, pool.rejectAt);
      pool.db == r.db && pool.issued == r.issued && outcome == o
  {
    if schema.None? {
      outcome := Failed;
    } else {
      var ok := pool.ExecuteBatch(schema.value);
      if !ok {
        outcome := Failed;
      } else {
        ok := pool.Execute(AddStatus);
        outcome := Updated(ok);
      }
    }
    pool.End();
  }

  /** When the schema step fails, the status step is not sent and the store is as before. */
  lemma SchemaFailureSkipsStatus(r: Run, schema: Option<seq<Command>>, f: Option<nat>)
    requires !r.failed && (schema.None? || ExecBatch(r, schema.value, f).failed)
    ensures StatusRun(r, schema, f).1 == Failed
    ensures StatusRun(r, schema, f).0.db == r.db
    ensures StatusRun(r, schema, f).0.issued == if schema.None? then r.issued else r.issued + 1
  {
  }

  /** A failing status step is swallowed: the script still reports success, and the store is
      what the schema step left. */
  lemma StatusFailureSwallowed(r: Run, schema: seq<Command>, f: Option<nat>)
    requires !r.failed && !ExecBatch(r, schema, f).failed
    requires Exec(ExecBatch(r, schema, f), AddStatus, f).failed
    ensures StatusRun(r, Some(schema), f).1 == Updated(false)
    ensures StatusRun(r, Some(schema), f).0.db == ExecBatch(r, schema, f).db
  {
  }

  /** A completed status step gives every existing submission the status 'new' when the column is
      new, leaves it as it is when the column exists, and keeps every other value and table. */
  lemma {:induction false} StatusAdded(r: Run, f: Option<nat>)
    requires !Exec(r, AddStatus, f).failed
    ensures "contact_submissions" in r.db
    ensures var db' := Exec(r, AddStatus, f).db; var t := r.db["contact_submissions"];
      db'.Keys == r.db.Keys
      && (forall n :: n in r.db && n != "contact_submissions" ==> db'[n] == r.db[n])
      && ColumnNames(db'["contact_submissions"].columns) == ColumnNames(t.columns) + {"status"}
      && |db'["contact_submissions"].rows| == |t.rows|
      && (forall j, k :: 0 <= j < |t.rows| && k in t.rows[j] && k in ColumnNames(t.columns) ==>
            k in db'["contact_submissions"].rows[j] && db'["contact_submissions"].rows[j][k] == t.rows[j][k])
      && ("status" in ColumnNames(t.columns) ==> db' == r.db)
      && ("status" !in ColumnNames(t.columns) ==>
            forall j :: 0 <= j < |t.rows| ==> "status" in db'["contact_submissions"].rows[j] && db'["contact_submissions"].rows[j]["status"] == Text("new"))
  {
    OneColumnAdded(r, "contact_submissions", Status, f);
  }

  /** StatusAdded for any table and any single column. */
  lemma OneColumnAdded(r: Run, n: string, c: Column, f: Option<nat>)
    requires !Exec(r, AddColumns(n, [c]), f).failed
    ensures n in r.db
    ensures var db' := Exec(r, AddColumns(n, [c]), f).db; var t := r.db[n];
      db'.Keys == r.db.Keys
      && (forall m :: m in r.db && m != n ==> db'[m] == r.db[m])
      && ColumnNames(db'[n].columns) == ColumnNames(t.columns) + {c.name}
      && |db'[n].rows| == |t.rows|
      && (forall j, k :: 0 <= j < |t.rows| && k in t.rows[j] && k in ColumnNames(t.columns) ==>
            k in db'[n].rows[j] && db'[n].rows[j][k] == t.rows[j][k])
      && (c.name in ColumnNames(t.columns) ==> db' == r.db)
      && (c.name !in ColumnNames(t.columns) ==>
            forall j :: 0 <= j < |t.rows| ==> c.name in db'[n].rows[j] && db'[n].rows[j][c.name] == Fill(c.default, 0))
  {
    var t := r.db[n];
    assert Exec(r, AddColumns(n, [c]), f).db == r.db[n := AddColumnsTo(t, [c])];
    AddColumnsGrows(t, [c]);
    assert [c][..0] == [];
    assert ColumnNames([c]) == {c.name};
    if c.name in ColumnNames(t.columns) {
      AddExistingColumns(t, [c]);
      assert r.db[n := t] == r.db;
    } else {
      forall j | 0 <= j < |t.rows| ensures c.name in AddColumnsTo(t, [c]).rows[j] && AddColumnsTo(t, [c]).rows[j][c.name] == Fill(c.default, 0) {
        AddedColumnFilled(t, [c], 0, j);
      }
    }
  }

  /** Sending the status step again after it completed leaves the store unchanged. */
  lemma RerunKeepsStatus(r: Run, f: Option<nat>)
    requires !Exec(r, AddStatus, f).failed
    requires !Exec(Exec(r, AddStatus, f), AddStatus, f).failed
    ensures Exec(Exec(r, AddStatus, f), AddStatus, f).db == Exec(r, AddStatus, f).db
  {
    AddColumnsIdempotent(r.db["contact_submissions"], [Status]);
  }
}
