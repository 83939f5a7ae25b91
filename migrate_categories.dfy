/** backend/migrateCategories.js: folds the five legacy portfolio categories into the two current
    ones with five UPDATE statements sent one after the other. */
module MigrateCategories {
  import opened Js
  import opened Db

  const Portfolio := "portfolio"
  const Category := "category"

  /** UPDATE portfolio SET category = to WHERE category = from */
  function Rename(from: string, to: string): Command {
    Update(Portfolio, Category, Text(to), Category, Text(from))
  }

  /** The statements in the order the script sends them: the two renames to 'Brand Solutions',
      then the three to 'Tech Solutions'. */
  const Statements: seq<Command> :=
    [Rename("Brand", "Brand Solutions"), Rename("Graphic Design", "Brand Solutions")]
    + [Rename("Web Development", "Tech Solutions"), Rename("Mobile App", "Tech Solutions"), Rename("E-Commerce", "Tech Solutions")]

  /** How the script ends: 'Migration complete', or the error printed by the catch block. */
  datatype Outcome = Completed | ErrorLogged

  /** The category a row is meant to carry after the migration. */
  function Canonical(v: Value): (c: Value)
    ensures v in {Text("Brand"), Text("Graphic Design")} ==> c == Text("Brand Solutions")
    ensures v in {Text("Web Development"), Text("Mobile App"), Text("E-Commerce")} ==> c == Text("Tech Solutions")
    ensures v !in Legacy ==> c == v
    ensures c !in Legacy
  {
    if v == Text("Brand") || v == Text("Graphic Design") then Text("Brand Solutions")
    else if v == Text("Web Development") || v == Text("Mobile App") || v == Text("E-Commerce") then Text("Tech Solutions")
    else v
  }

  const Legacy: set<Value> := {Text("Brand"), Text("Graphic Design"), Text("Web Development"), Text("Mobile App"), Text("E-Commerce")}

  function MigrateRow(r: Row): Row {
    if Category in r then r[Category := Canonical(r[Category])] else r
  }

  /** Row by row: legacy labels become their new label, any other category stays, only the
      category changes, and the number and order of rows are kept. */
  function MigrateRows(rows: seq<Row>): (m: seq<Row>)
    ensures |m| == |rows|
    ensures forall i :: 0 <= i < |rows| ==> m[i].Keys == rows[i].Keys
    ensures forall i, k :: 0 <= i < |rows| && k in rows[i] && k != Category ==> m[i][k] == rows[i][k]
    ensures forall i :: 0 <= i < |rows| && Category in rows[i] && rows[i][Category] in {Text("Brand"), Text("Graphic Design")}
              ==> m[i][Category] == Text("Brand Solutions")
    ensures forall i :: 0 <= i < |rows| && Category in rows[i] && rows[i][Category] in {Text("Web Development"), Text("Mobile App"), Text("E-Commerce")}
              ==> m[i][Category] == Text("Tech Solutions")
    ensures forall i :: 0 <= i < |rows| && Category in rows[i] && rows[i][Category] !in Legacy
              ==> m[i][Category] == rows[i][Category]
    ensures forall i :: 0 <= i < |rows| && Category in rows[i] ==> m[i][Category] !in Legacy
  {
    seq(|rows|, i requires 0 <= i < |rows| => MigrateRow(rows[i]))
  }

  /** The server fails none of the five statements sent from query number `from` on. */
  predicate NoRejection(f: Option<nat>, from: nat) {
    f.None? || f.value < from || from + |Statements| <= f.value
  }

  /** The portfolio table exists and has a category column. */
  predicate Ready(db: Tables) {
    Portfolio in db && Category in ColumnNames(db[Portfolio].columns)
  }

  method MigrateCategories(pool: Pool) returns (outcome: Outcome)
    requires pool.open
    modifies pool
    ensures !pool.open
    ensures var r := ExecAll(old(pool.State()), Statements, pool.rejectAt);
      pool.db == r.db && pool.issued == r.issued && (outcome == ErrorLogged <==> r.failed)
  {
    ghost var r0 := pool.State();
    var ok := pool.Execute(Statements[0]);
    if ok { ok := pool.Execute(Statements[1]); }
    if ok { ok := pool.Execute(Statements[2]); }
    if ok { ok := pool.Execute(Statements[3]); }
    if ok { ok := pool.Execute(Statements[4]); }
    outcome := if ok then Completed else ErrorLogged;
    pool.End();
    Unroll(r0, pool.rejectAt);
  }

  lemma Unroll(r: Run, f: Option<nat>)
    ensures ExecAll(r, Statements, f)
         == Exec(Exec(Exec(Exec(Exec(r, Statements[0], f), Statements[1], f), Statements[2], f), Statements[3], f), Statements[4], f)
  {
    var s := Statements;
    assert s[..1][..0] == [] && s[..2][..1] == s[..1] && s[..3][..2] == s[..2] && s[..4][..3] == s[..3];
    assert ExecAll(r, s[..1], f) == Exec(r, s[0], f);
    assert ExecAll(r, s[..2], f) == Exec(ExecAll(r, s[..1], f), s[1], f);
    assert ExecAll(r, s[..3], f) == Exec(ExecAll(r, s[..2], f), s[2], f);
    assert ExecAll(r, s[..4], f) == Exec(ExecAll(r, s[..3], f), s[3], f);
  }

  lemma StatementsAre()
    ensures |Statements| == 5
    ensures Statements[0] == Rename("Brand", "Brand Solutions")
    ensures Statements[1] == Rename("Graphic Design", "Brand Solutions")
    ensures Statements[2] == Rename("Web Development", "Tech Solutions")
    ensures Statements[3] == Rename("Mobile App", "Tech Solutions")
    ensures Statements[4] == Rename("E-Commerce", "Tech Solutions")
  {
  }

  /** One rename step on a ready store that the server does not refuse. */
  lemma RenameStep(r: Run, from: string, to: string, f: Option<nat>)
    requires !r.failed && Ready(r.db) && f != Some(r.issued)
    ensures Exec(r, Rename(from, to), f)
         == Run(r.db[Portfolio := r.db[Portfolio].(rows := UpdateRows(r.db[Portfolio].rows, Category, Text(to), Category, Text(from)))], r.issued + 1, false)
  {
  }

  /** The store with the portfolio table's rows replaced. */
  function WithRows(db: Tables, rows: seq<Row>): Tables
    requires Portfolio in db
  {
    db[Portfolio := db[Portfolio].(rows := rows)]
  }

  /** RenameStep on a store whose portfolio rows have already been replaced. */
  lemma RenameFrom(db: Tables, rows: seq<Row>, issued: nat, from: string, to: string, f: Option<nat>)
    requires Ready(db) && f != Some(issued)
    ensures Exec(Run(WithRows(db, rows), issued, false), Rename(from, to), f)
         == Run(WithRows(db, UpdateRows(rows, Category, Text(to), Category, Text(from))), issued + 1, false)
  {
    RenameStep(Run(WithRows(db, rows), issued, false), from, to, f);
    assert WithRows(WithRows(db, rows), UpdateRows(rows, Category, Text(to), Category, Text(from)))
        == WithRows(db, UpdateRows(rows, Category, Text(to), Category, Text(from)));
  }

  /** The five renames applied to one row give its canonical category. */
  lemma RowComposition(row: Row)
    ensures UpdateRow(UpdateRow(UpdateRow(UpdateRow(UpdateRow(row,
              Category, Text("Brand Solutions"), Category, Text("Brand")),
              Category, Text("Brand Solutions"), Category, Text("Graphic Design")),
              Category, Text("Tech Solutions"), Category, Text("Web Development")),
              Category, Text("Tech Solutions"), Category, Text("Mobile App")),
              Category, Text("Tech Solutions"), Category, Text("E-Commerce"))
         == MigrateRow(row)
  {
  }

  /** A full run that the server does not interrupt replaces each row's category by its canonical
      one and changes nothing else in the store. */
  lemma {:induction false} MigrationEffect(r: Run, f: Option<nat>)
    requires !r.failed && Ready(r.db) && NoRejection(f, r.issued)
    ensures var r' := ExecAll(r, Statements, f);
      !r'.failed && r'.issued == r.issued + 5
      && r'.db == r.db[Portfolio := r.db[Portfolio].(rows := MigrateRows(r.db[Portfolio].rows))]
  {
    FiveRenames(r, f);
    RowsComposition(r.db[Portfolio].rows);
  }

  /** The five renames, one after the other, on a ready store the server does not interrupt. */
  lemma FiveRenames(r: Run, f: Option<nat>)
    requires !r.failed && Ready(r.db) && NoRejection(f, r.issued)
    ensures ExecAll(r, Statements, f) == Run(WithRows(r.db,
      UpdateRows(UpdateRows(UpdateRows(UpdateRows(UpdateRows(r.db[Portfolio].rows,
        Category, Text("Brand Solutions"), Category, Text("Brand")),
        Category, Text("Brand Solutions"), Category, Text("Graphic Design")),
        Category, Text("Tech Solutions"), Category, Text("Web Development")),
        Category, Text("Tech Solutions"), Category, Text("Mobile App")),
        Category, Text("Tech Solutions"), Category, Text("E-Commerce"))), r.issued + 5, false)
  {
    var db := r.db;
    var rows0 := db[Portfolio].rows;
    var rows1 := UpdateRows(rows0, Category, Text("Brand Solutions"), Category, Text("Brand"));
    var rows2 := UpdateRows(rows1, Category, Text("Brand Solutions"), Category, Text("Graphic Design"));
    var rows3 := UpdateRows(rows2, Category, Text("Tech Solutions"), Category, Text("Web Development"));
    var rows4 := UpdateRows(rows3, Category, Text("Tech Solutions"), Category, Text("Mobile App"));
    StatementsAre();
    Unroll(r, f);
    assert r == Run(WithRows(db, rows0), r.issued, false);
    RenameFrom(db, rows0, r.issued, "Brand", "Brand Solutions", f);
    RenameFrom(db, rows1, r.issued + 1, "Graphic Design", "Brand Solutions", f);
    RenameFrom(db, rows2, r.issued + 2, "Web Development", "Tech Solutions", f);
    RenameFrom(db, rows3, r.issued + 3, "Mobile App", "Tech Solutions", f);
    RenameFrom(db, rows4, r.issued + 4, "E-Commerce", "Tech Solutions", f);
  }

  /** The five renames applied to every row give each its canonical category. */
  lemma RowsComposition(rows: seq<Row>)
    ensures UpdateRows(UpdateRows(UpdateRows(UpdateRows(UpdateRows(rows,
              Category, Text("Brand Solutions"), Category, Text("Brand")),
              Category, Text("Brand Solutions"), Category, Text("Graphic Design")),
              Category, Text("Tech Solutions"), Category, Text("Web Development")),
              Category, Text("Tech Solutions"), Category, Text("Mobile App")),
              Category, Text("Tech Solutions"), Category, Text("E-Commerce"))
         == MigrateRows(rows)
  {
    var rows1 := UpdateRows(rows, Category, Text("Brand Solutions"), Category, Text("Brand"));
    var rows2 := UpdateRows(rows1, Category, Text("Brand Solutions"), Category, Text("Graphic Design"));
    var rows3 := UpdateRows(rows2, Category, Text("Tech Solutions"), Category, Text("Web Development"));
    var rows4 := UpdateRows(rows3, Category, Text("Tech Solutions"), Category, Text("Mobile App"));
    var rows5 := UpdateRows(rows4, Category, Text("Tech Solutions"), Category, Text("E-Commerce"));
    forall i | 0 <= i < |rows| ensures rows5[i] == MigrateRows(rows)[i] {
      RowComposition(rows[i]);
    }
  }

  /** Running the migration a second time changes nothing, because no new label is a legacy one. */
  lemma {:induction false} MigrationIdempotent(r: Run, f: Option<nat>)
    requires !r.failed && Ready(r.db) && NoRejection(f, r.issued) && NoRejection(f, r.issued + 5)
    ensures ExecAll(ExecAll(r, Statements, f), Statements, f).db == ExecAll(r, Statements, f).db
  {
    MigrationEffect(r, f);
    var r' := ExecAll(r, Statements, f);
    var rows := r.db[Portfolio].rows;
    assert Ready(r'.db);
    MigrationEffect(r', f);
    assert MigrateRows(MigrateRows(rows)) == MigrateRows(rows) by {
      forall i | 0 <= i < |rows| ensures MigrateRows(MigrateRows(rows))[i] == MigrateRows(rows)[i] {
        var row := rows[i];
        if Category in row {
          assert MigrateRow(row)[Category] !in Legacy;
        }
      }
    }
  }

  /** When the server fails statement k, the first k renames stay applied, the rest are never sent,
      and the run ends failed (so the script logs the error). */
  lemma {:induction false} MigrationStops(r: Run, k: nat, f: Option<nat>)
    requires !r.failed && k < |Statements| && f == Some(r.issued + k)
    requires !ExecAll(r, Statements[..k], f).failed
    ensures ExecAll(r, Statements, f).failed
    ensures ExecAll(r, Statements, f).db == ExecAll(r, Statements[..k], f).db
  {
    RejectedStops(r, Statements, k, f);
  }
}
