/** backend/updateDb_featured.js: adds the `is_featured` flag to `portfolio`, false by default. */
module UpdateFeatured {
  import opened Js
  import opened Db

  const Featured := Column("is_featured", "BOOLEAN", false, Const(Bool(false)))

  const AddFeatured := AddColumns("portfolio", [Featured])

  /** How the script ends: 'Added is_featured column to portfolio table', or the error. */
  datatype Outcome = Completed | ErrorLogged

  method AddIsFeaturedColumn(pool: Pool) returns (outcome: Outcome)
    requires pool.open
    modifies pool
    ensures !pool.open
    ensures var r := Exec(old(pool.State()), AddFeatured, pool.rejectAt);
      pool.db == r.db && pool.issued == r.issued && (outcome == ErrorLogged <==> r.failed)
  {
    var ok := pool.Execute(AddFeatured);
    outcome := if ok then Completed else ErrorLogged;
    pool.End();
  }

  /** After a completed run the portfolio has the column; when it was new, every existing row
      reads false in it; every other column, every row value and every other table is kept. */
  lemma {:induction false} FeaturedAdded(r: Run, f: Option<nat>)
    requires !Exec(r, AddFeatured, f).failed
    ensures "portfolio" in r.db
    ensures var db' := Exec(r, AddFeatured, f).db; var p := r.db["portfolio"];
      db'.Keys == r.db.Keys
      && (forall n :: n in r.db && n != "portfolio" ==> db'[n] == r.db[n])
      && ColumnNames(db'["portfolio"].columns) == ColumnNames(p.columns) + {"is_featured"}
      && |db'["portfolio"].columns| >= |p.columns| && db'["portfolio"].columns[..|p.columns|] == p.columns
      && |db'["portfolio"].rows| == |p.rows|
      && (forall j, k :: 0 <= j < |p.rows| && k in p.rows[j] && k in ColumnNames(p.columns) ==> k in db'["portfolio"].rows[j] && db'["portfolio"].rows[j][k] == p.rows[j][k])
      && ("is_featured" !in ColumnNames(p.columns) ==>
            forall j :: 0 <= j < |p.rows| ==> "is_featured" in db'["portfolio"].rows[j] && db'["portfolio"].rows[j]["is_featured"] == Bool(false))
  {
    var p := r.db["portfolio"];
    AddColumnsGrows(p, [Featured]);
    assert [Featured][..0] == [];
    if "is_featured" !in ColumnNames(p.columns) {
      forall j | 0 <= j < |p.rows| ensures "is_featured" in AddColumnsTo(p, [Featured]).rows[j] && AddColumnsTo(p, [Featured]).rows[j]["is_featured"] == Bool(false) {
        AddedColumnFilled(p, [Featured], 0, j);
      }
    }
  }

  /** Re-running leaves the store unchanged. */
  lemma RerunIsNoop(r: Run, f: Option<nat>)
    requires !Exec(r, AddFeatured, f).failed
    requires !Exec(Exec(r, AddFeatured, f), AddFeatured, f).failed
    ensures Exec(Exec(r, AddFeatured, f), AddFeatured, f).db == Exec(r, AddFeatured, f).db
  {
    AddColumnsIdempotent(r.db["portfolio"], [Featured]);
  }

  /** A later INSERT that does not name `is_featured` stores false, provided the column was the
      one this script added (no other column of that name). */
  lemma {:induction false} InsertDefaultsToNotFeatured(cols: seq<Column>, values: Values, serial: nat)
    requires forall i :: 0 <= i < |cols| && cols[i].name == "is_featured" ==> cols[i] == Featured
    requires "is_featured" in ColumnNames(cols) && "is_featured" !in values
    ensures BuildRow(cols, values, serial)["is_featured"] == Bool(false)
  {
    var n := |cols| - 1;
    if cols[n].name != "is_featured" {
      InsertDefaultsToNotFeatured(cols[..n], values, serial);
    }
  }
}
