/** backend/updateSchema.js: adds the project link and tech stack columns to `portfolio`, then the
    photo and LinkedIn columns to `testimonials`, each only where missing. */
module UpdateSchemaColumns {
  import opened Js
  import opened Db

  const PortfolioColumns: seq<Column> := [
    Column("project_url", "TEXT", false, NoDefault),
    Column("tech_stack", "TEXT", false, NoDefault)
  ]

  const TestimonialColumns: seq<Column> := [
    Column("image_url", "TEXT", false, NoDefault),
    Column("linkedin_url", "TEXT", false, NoDefault)
  ]

  const Statements: seq<Command> := [
    AddColumns("portfolio", PortfolioColumns),
    AddColumns("testimonials", TestimonialColumns)
  ]

  /** How the script ends: 'Schema update complete.', or 'Error updating schema:'. */
  datatype Outcome = Completed | ErrorLogged

  method UpdateSchema(pool: Pool) returns (outcome: Outcome)
    requires pool.open
    modifies pool
    ensures !pool.open
    ensures var r := ExecAll(old(pool.State()), Statements, pool.rejectAt);
      pool.db == r.db && pool.issued == r.issued && (outcome == ErrorLogged <==> r.failed)
  {
    ghost var r0 := pool.State();
    var ok := pool.Execute(Statements[0]);
    if ok {
      ok := pool.Execute(Statements[1]);
    }
    outcome := if ok then Completed else ErrorLogged;
    pool.End();
    assert Statements[..1][..0] == [] && Statements[..1] == [Statements[0]];
    assert ExecAll(r0, Statements[..1], pool.rejectAt) == Exec(r0, Statements[0], pool.rejectAt);
  }

  /** The store after a completed run: both tables exist and carry the new columns. */
  lemma {:induction false} RunEffect(r: Run, f: Option<nat>)
    requires !ExecAll(r, Statements, f).failed
    ensures var db' := ExecAll(r, Statements, f).db;
      "portfolio" in r.db && "testimonials" in r.db
      && db' == r.db["portfolio" := AddColumnsTo(r.db["portfolio"], PortfolioColumns)]
                    ["testimonials" := AddColumnsTo(r.db["testimonials"], TestimonialColumns)]
  {
    assert Statements[..1][..0] == [] && Statements[..1] == [Statements[0]];
    var r1 := Exec(r, Statements[0], f);
    assert ExecAll(r, Statements[..1], f) == r1;
    if r.failed {
      ExecAllFailed(r, Statements, f);
    }
  }

  /** Each table gains its two columns, keeps its old columns first and unchanged, keeps every
      row and value, and no other table changes. */
  lemma ColumnsAdded(r: Run, f: Option<nat>)
    requires !ExecAll(r, Statements, f).failed
    ensures "portfolio" in r.db && "testimonials" in r.db
    ensures var db' := ExecAll(r, Statements, f).db;
      var p := r.db["portfolio"]; var t := r.db["testimonials"];
      db'.Keys == r.db.Keys
      && (forall n :: n in r.db && n != "portfolio" && n != "testimonials" ==> db'[n] == r.db[n])
      && ColumnNames(db'["portfolio"].columns) == ColumnNames(p.columns) + {"project_url", "tech_stack"}
      && ColumnNames(db'["testimonials"].columns) == ColumnNames(t.columns) + {"image_url", "linkedin_url"}
      && |db'["portfolio"].columns| >= |p.columns| && db'["portfolio"].columns[..|p.columns|] == p.columns
      && |db'["testimonials"].columns| >= |t.columns| && db'["testimonials"].columns[..|t.columns|] == t.columns
      && |db'["portfolio"].rows| == |p.rows| && |db'["testimonials"].rows| == |t.rows|
  {
    RunEffect(r, f);
    AddColumnsGrows(r.db["portfolio"], PortfolioColumns);
    AddColumnsGrows(r.db["testimonials"], TestimonialColumns);
    assert ColumnNames(PortfolioColumns) == {"project_url", "tech_stack"} by {
      assert PortfolioColumns[..1][..0] == [];
    }
    assert ColumnNames(TestimonialColumns) == {"image_url", "linkedin_url"} by {
      assert TestimonialColumns[..1][..0] == [];
    }
  }

  /** A second completed run changes nothing. */
  lemma {:induction false} RerunIsNoop(r: Run, f: Option<nat>)
    requires !ExecAll(r, Statements, f).failed
    requires !ExecAll(ExecAll(r, Statements, f), Statements, f).failed
    ensures ExecAll(ExecAll(r, Statements, f), Statements, f).db == ExecAll(r, Statements, f).db
  {
    var r1 := ExecAll(r, Statements, f);
    RunEffect(r, f);
    RunEffect(r1, f);
    AddColumnsIdempotent(r.db["portfolio"], PortfolioColumns);
    AddColumnsIdempotent(r.db["testimonials"], TestimonialColumns);
  }

  /** A failing portfolio step leaves the store as it was and the testimonials step is not sent. */
  lemma PortfolioFailureSkipsRest(r: Run, f: Option<nat>)
    requires !r.failed && Exec(r, Statements[0], f).failed
    ensures ExecAll(r, Statements, f) == Run(r.db, r.issued + 1, true)
  {
    assert Statements[..1][..0] == [] && Statements[..1] == [Statements[0]];
    assert ExecAll(r, Statements[..1], f) == Exec(r, Statements[0], f);
    ExecAllStops(r, Statements, 1, f);
  }
}
