/** The relational store that the maintenance scripts reach through `pool.query`, reduced to the
    statements they send: guarded CREATE TABLE, guarded ADD COLUMN, INSERT, UPDATE ... WHERE, and
    row counts. A statement either succeeds as a whole or fails and changes nothing. */
module Db {
  import opened Js

  /** A stored value. `Now` stands for the CURRENT_TIMESTAMP the server fills in. */
  datatype Value = Null | Text(s: string) | Int(i: int) | Bool(b: bool) | Now

  /** What a column holds when an INSERT does not name it. */
  datatype Default = NoDefault | Const(v: Value) | Serial | CurrentTimestamp

  datatype Column = Column(name: string, sqlType: string, notNull: bool, default: Default)

  type Row = map<string, Value>

  /** A table: its columns in order, its rows in insertion order, and its SERIAL counter. */
  datatype Table = Table(columns: seq<Column>, rows: seq<Row>, nextSerial: nat)

  type Tables = map<string, Table>

  datatype Result<T> = Ok(value: T) | Err

  function ColumnNames(cols: seq<Column>): set<string> {
    if |cols| == 0 then {} else ColumnNames(cols[..|cols| - 1]) + {cols[|cols| - 1].name}
  }

  /** Every row has exactly its table's columns. */
  ghost predicate ValidTable(t: Table) {
    forall i :: 0 <= i < |t.rows| ==> t.rows[i].Keys == ColumnNames(t.columns)
  }

  ghost predicate Valid(db: Tables) {
    forall n :: n in db ==> ValidTable(db[n])
  }

  datatype Command =
    | CreateTable(table: string, columns: seq<Column>)        // CREATE TABLE IF NOT EXISTS
    | AddColumns(table: string, columns: seq<Column>)         // ALTER TABLE ... ADD COLUMN IF NOT EXISTS, ...
    | Insert(table: string, values: map<string, Value>)       // INSERT INTO table (names) VALUES (...)
    | Update(table: string, column: string, to: Value, whereColumn: string, equals: Value)
                                                              // UPDATE table SET column = to WHERE whereColumn = equals

  datatype Query =
    | CountRows(table: string)                                // SELECT COUNT(*) FROM table
    | CountWhere(table: string, column: string, equals: Value) // SELECT * FROM table WHERE column = equals

  /** The value a column takes when it is not given. */
  function Fill(d: Default, serial: nat): Value {
    match d
    case NoDefault => Null
    case Const(v) => v
    case Serial => Int(serial)
    case CurrentTimestamp => Now
  }

  /** ADD COLUMN IF NOT EXISTS for one column: a new column is appended and every existing row
      receives its default; an existing column is left as it is. */
  function AddColumn(t: Table, c: Column): Table {
    if c.name in ColumnNames(t.columns) then t
    else Table(t.columns + [c], seq(|t.rows|, i requires 0 <= i < |t.rows| => t.rows[i][c.name := Fill(c.default, 0)]), t.nextSerial)
  }

  function AddColumnsTo(t: Table, cols: seq<Column>): Table {
    if |cols| == 0 then t else AddColumn(AddColumnsTo(t, cols[..|cols| - 1]), cols[|cols| - 1])
  }

  /** The row an INSERT builds: given values, otherwise each column's default. */
  function BuildRow(cols: seq<Column>, values: map<string, Value>, serial: nat): (r: Row)
    ensures r.Keys == ColumnNames(cols)
  {
    if |cols| == 0 then map[]
    else
      var c := cols[|cols| - 1];
      BuildRow(cols[..|cols| - 1], values, serial)[c.name := if c.name in values then values[c.name] else Fill(c.default, serial)]
  }

  /** Some NOT NULL column of `cols` would hold NULL in `r`. */
  predicate ViolatesNotNull(cols: seq<Column>, r: Row) {
    exists i :: 0 <= i < |cols| && cols[i].notNull && cols[i].name in r && r[cols[i].name] == Null
  }

  function InsertInto(t: Table, values: map<string, Value>): Result<Table> {
    if !(values.Keys <= ColumnNames(t.columns)) then Err
    else
      var r := BuildRow(t.columns, values, t.nextSerial);
      if ViolatesNotNull(t.columns, r) then Err
      else Ok(Table(t.columns, t.rows + [r], t.nextSerial + 1))
  }

  /** UPDATE ... SET column = to WHERE whereColumn = equals, row by row. (A NULL never equals.) */
  function UpdateRow(r: Row, column: string, to: Value, whereColumn: string, equals: Value): Row {
    if whereColumn in r && r[whereColumn] == equals && equals != Null then r[column := to] else r
  }

  function UpdateRows(rows: seq<Row>, column: string, to: Value, whereColumn: string, equals: Value): (r: seq<Row>)
    ensures |r| == |rows|
    ensures forall i :: 0 <= i < |rows| ==> r[i] == UpdateRow(rows[i], column, to, whereColumn, equals)
  {
    seq(|rows|, i requires 0 <= i < |rows| => UpdateRow(rows[i], column, to, whereColumn, equals))
  }

  /** What one statement does to the store, or `Err` when the server refuses it. */
  function Apply(db: Tables, c: Command): Result<Tables> {
    match c
    case CreateTable(n, cols) => Ok(if n in db then db else db[n := Table(cols, [], 1)])
    case AddColumns(n, cols) => if n !in db then Err else Ok(db[n := AddColumnsTo(db[n], cols)])
    case Insert(n, values) =>
      if n !in db then Err
      else (match InsertInto(db[n], values)
        case Err => Err
        case Ok(t) => Ok(db[n := t]))
    case Update(n, column, to, w, x) =>
      if n !in db || column !in ColumnNames(db[n].columns) || w !in ColumnNames(db[n].columns) then Err
      else Ok(db[n := db[n].(rows := UpdateRows(db[n].rows, column, to, w, x))])
  }

  /** Several statements sent as ONE query (a file of SQL): all of them take effect, or none. */
  function ApplyBatch(db: Tables, cs: seq<Command>): Result<Tables> {
    if |cs| == 0 then Ok(db)
    else match ApplyBatch(db, cs[..|cs| - 1])
      case Err => Err
      case Ok(db') => Apply(db', cs[|cs| - 1])
  }

  function Answer(db: Tables, q: Query): Result<nat> {
    match q
    case CountRows(n) => if n !in db then Err else Ok(|db[n].rows|)
    case CountWhere(n, column, x) =>
      if n !in db || column !in ColumnNames(db[n].columns) then Err
      else Ok(|set i | 0 <= i < |db[n].rows| && column in db[n].rows[i] && db[n].rows[i][column] == x && x != Null|)
  }

  /** One run of a script against the store: the store, how many queries it has sent, and whether
      one of them has failed (after which a script sends nothing more). */
  datatype Run = Run(db: Tables, issued: nat, failed: bool)

  /** Sending one statement. `rejectAt` is the number of the query (counted from 0 over the pool's
      life) that the server fails for reasons of its own: lost connection, lock timeout, ... */
  function Exec(r: Run, c: Command, rejectAt: Option<nat>): (r': Run)
    ensures r.failed ==> r' == r
    ensures !r.failed ==> r'.issued == r.issued + 1
  {
    if r.failed then r
    else if rejectAt == Some(r.issued) then Run(r.db, r.issued + 1, true)
    else match Apply(r.db, c)
      case Err => Run(r.db, r.issued + 1, true)
      case Ok(db') => Run(db', r.issued + 1, false)
  }

  /** Sending a batch as one query. */
  function ExecBatch(r: Run, cs: seq<Command>, rejectAt: Option<nat>): (r': Run)
    ensures r.failed ==> r' == r
    ensures !r.failed ==> r'.issued == r.issued + 1
    ensures r'.failed && !r.failed ==> r'.db == r.db
  {
    if r.failed then r
    else if rejectAt == Some(r.issued) then Run(r.db, r.issued + 1, true)
    else match ApplyBatch(r.db, cs)
      case Err => Run(r.db, r.issued + 1, true)
      case Ok(db') => Run(db', r.issued + 1, false)
  }

  /** Sending a query; the store does not change. */
  function Ask(r: Run, q: Query, rejectAt: Option<nat>): (r': Run)
    ensures r'.db == r.db
    ensures r.failed ==> r' == r
  {
    if r.failed then r
    else Run(r.db, r.issued + 1, rejectAt == Some(r.issued) || Answer(r.db, q).Err?)
  }

  /** Sending statements one after the other, stopping at the first failure. */
  function ExecAll(r: Run, cs: seq<Command>, rejectAt: Option<nat>): Run {
    if |cs| == 0 then r else Exec(ExecAll(r, cs[..|cs| - 1], rejectAt), cs[|cs| - 1], rejectAt)
  }

  /** Once a statement has failed, the later ones change nothing. */
  lemma {:induction false} ExecAllStops(r: Run, cs: seq<Command>, k: nat, rejectAt: Option<nat>)
    requires k <= |cs| && ExecAll(r, cs[..k], rejectAt).failed
    ensures ExecAll(r, cs, rejectAt) == ExecAll(r, cs[..k], rejectAt)
    decreases |cs|
  {
    if k < |cs| {
      assert cs[..|cs| - 1][..k] == cs[..k];
      ExecAllStops(r, cs[..|cs| - 1], k, rejectAt);
    } else {
      assert cs[..k] == cs;
    }
  }

  /** A failed run stays failed. */
  lemma {:induction false} ExecAllFailed(r: Run, cs: seq<Command>, rejectAt: Option<nat>)
    requires r.failed
    ensures ExecAll(r, cs, rejectAt) == r
  {
    if |cs| > 0 {
      ExecAllFailed(r, cs[..|cs| - 1], rejectAt);
    }
  }

  /** Every statement keeps each row's columns equal to its table's columns. */
  lemma ApplyValid(db: Tables, c: Command)
    requires Valid(db) && Apply(db, c).Ok?
    ensures Valid(Apply(db, c).value)
  {
    match c
    case CreateTable(n, cols) =>
    case AddColumns(n, cols) => AddColumnsValid(db[n], cols);
    case Insert(n, values) =>
    case Update(n, column, to, w, x) =>
      var t := db[n];
      var rows := UpdateRows(t.rows, column, to, w, x);
      forall i | 0 <= i < |rows| ensures rows[i].Keys == ColumnNames(t.columns) {
        assert rows[i] == UpdateRow(t.rows[i], column, to, w, x);
      }
  }

  lemma {:induction false} AddColumnsValid(t: Table, cols: seq<Column>)
    requires ValidTable(t)
    ensures ValidTable(AddColumnsTo(t, cols))
  {
    if |cols| > 0 {
      var c := cols[|cols| - 1];
      var t' := AddColumnsTo(t, cols[..|cols| - 1]);
      AddColumnsValid(t, cols[..|cols| - 1]);
      if c.name !in ColumnNames(t'.columns) {
        assert (t'.columns + [c])[..|t'.columns|] == t'.columns;
      }
    }
  }

  /** The values an INSERT names, column by column. */
  type Values = map<string, Value>

  function Inserts(table: string, rows: seq<Values>): (cs: seq<Command>)
    ensures |cs| == |rows|
    ensures forall i :: 0 <= i < |rows| ==> cs[i] == Insert(table, rows[i])
  {
    seq(|rows|, i requires 0 <= i < |rows| => Insert(table, rows[i]))
  }

  /** Inserting a list into one table that all succeed appends one row per entry, in order, each
      holding the given values; no other table changes. */
  lemma {:induction false} InsertsEffect(r: Run, table: string, rows: seq<Values>, f: Option<nat>)
    requires table in r.db
    requires !ExecAll(r, Inserts(table, rows), f).failed
    ensures var db' := ExecAll(r, Inserts(table, rows), f).db;
      db'.Keys == r.db.Keys
      && (forall n :: n in r.db && n != table ==> db'[n] == r.db[n])
      && db'[table].columns == r.db[table].columns
      && |db'[table].rows| == |r.db[table].rows| + |rows|
      && db'[table].rows[..|r.db[table].rows|] == r.db[table].rows
      && (forall i, k :: 0 <= i < |rows| && k in rows[i] ==>
            k in db'[table].rows[|r.db[table].rows| + i] && db'[table].rows[|r.db[table].rows| + i][k] == rows[i][k])
  {
    if |rows| > 0 {
      var n := |rows| - 1;
      assert Inserts(table, rows)[..n] == Inserts(table, rows[..n]);
      var p := ExecAll(r, Inserts(table, rows[..n]), f);
      assert !p.failed;
      InsertsEffect(r, table, rows[..n], f);
      InsertStep(p, table, rows[n], f);
      assert ExecAll(r, Inserts(table, rows), f) == Exec(p, Insert(table, rows[n]), f);
      InsertsChain(r.db, p.db, Exec(p, Insert(table, rows[n]), f).db, table, rows, rows[..n]);
    }
  }

  /** The effect of the earlier inserts followed by the effect of the last one. */
  lemma InsertsChain(db0: Tables, db1: Tables, db2: Tables, table: string, rows: seq<Values>, pre: seq<Values>)
    requires table in db0 && |rows| > 0 && pre == rows[..|rows| - 1]
    requires db1.Keys == db0.Keys
      && (forall n :: n in db0 && n != table ==> db1[n] == db0[n])
      && db1[table].columns == db0[table].columns
      && |db1[table].rows| == |db0[table].rows| + |pre|
      && db1[table].rows[..|db0[table].rows|] == db0[table].rows
      && (forall i, k :: 0 <= i < |pre| && k in pre[i] ==>
            k in db1[table].rows[|db0[table].rows| + i] && db1[table].rows[|db0[table].rows| + i][k] == pre[i][k])
    requires db2.Keys == db1.Keys
      && (forall n :: n in db1 && n != table ==> db2[n] == db1[n])
      && db2[table].columns == db1[table].columns
      && |db2[table].rows| == |db1[table].rows| + 1
      && db2[table].rows[..|db1[table].rows|] == db1[table].rows
      && (forall k :: k in rows[|rows| - 1] ==> k in db2[table].rows[|db1[table].rows|] && db2[table].rows[|db1[table].rows|][k] == rows[|rows| - 1][k])
    ensures db2.Keys == db0.Keys
      && (forall n :: n in db0 && n != table ==> db2[n] == db0[n])
      && db2[table].columns == db0[table].columns
      && |db2[table].rows| == |db0[table].rows| + |rows|
      && db2[table].rows[..|db0[table].rows|] == db0[table].rows
      && (forall i, k :: 0 <= i < |rows| && k in rows[i] ==>
            k in db2[table].rows[|db0[table].rows| + i] && db2[table].rows[|db0[table].rows| + i][k] == rows[i][k])
  {
    AppendedRows(db0[table].rows, db1[table].rows, db2[table].rows, rows, pre);
  }

  /** The rows after the last insert: those after the earlier inserts, then the last one. */
  lemma AppendedRows(old0: seq<Row>, mid: seq<Row>, fin: seq<Row>, rows: seq<Values>, pre: seq<Values>)
    requires |rows| > 0 && pre == rows[..|rows| - 1]
    requires |mid| == |old0| + |pre| && mid[..|old0|] == old0
    requires forall i, k :: 0 <= i < |pre| && k in pre[i] ==> k in mid[|old0| + i] && mid[|old0| + i][k] == pre[i][k]
    requires |fin| == |mid| + 1 && fin[..|mid|] == mid
    requires forall k :: k in rows[|rows| - 1] ==> k in fin[|mid|] && fin[|mid|][k] == rows[|rows| - 1][k]
    ensures |fin| == |old0| + |rows| && fin[..|old0|] == old0
    ensures forall i, k :: 0 <= i < |rows| && k in rows[i] ==>
      k in fin[|old0| + i] && fin[|old0| + i][k] == rows[i][k]
  {
    assert fin[..|old0|] == mid[..|old0|];
    forall i, k | 0 <= i < |rows| && k in rows[i]
      ensures k in fin[|old0| + i] && fin[|old0| + i][k] == rows[i][k]
    {
      if i < |pre| {
        assert pre[i] == rows[i];
        assert fin[|old0| + i] == mid[|old0| + i];
      }
    }
  }

  /** One INSERT that succeeds appends one row holding the given values. */
  lemma InsertStep(p: Run, table: string, values: Values, f: Option<nat>)
    requires table in p.db && !Exec(p, Insert(table, values), f).failed
    ensures var db' := Exec(p, Insert(table, values), f).db;
      db'.Keys == p.db.Keys
      && (forall n :: n in p.db && n != table ==> db'[n] == p.db[n])
      && db'[table].columns == p.db[table].columns
      && |db'[table].rows| == |p.db[table].rows| + 1
      && db'[table].rows[..|p.db[table].rows|] == p.db[table].rows
      && (forall k :: k in values ==> k in db'[table].rows[|p.db[table].rows|] && db'[table].rows[|p.db[table].rows|][k] == values[k])
  {
    var t := p.db[table];
    BuildRowGiven(t.columns, values, t.nextSerial);
  }

  /** A value given to an INSERT lands in its column. */
  lemma {:induction false} BuildRowGiven(cols: seq<Column>, values: Values, serial: nat)
    requires values.Keys <= ColumnNames(cols)
    ensures forall k :: k in values ==> BuildRow(cols, values, serial)[k] == values[k]
  {
    forall k | k in values ensures BuildRow(cols, values, serial)[k] == values[k] {
      BuildRowAt(cols, values, serial, k);
    }
  }

  lemma {:induction false} BuildRowAt(cols: seq<Column>, values: Values, serial: nat, k: string)
    requires k in values && k in ColumnNames(cols)
    ensures BuildRow(cols, values, serial)[k] == values[k]
  {
    var n := |cols| - 1;
    if cols[n].name != k {
      BuildRowAt(cols[..n], values, serial, k);
    }
  }

  /** When the server fails statement k of a run, the run ends failed with the store the first k
      statements left. */
  lemma {:induction false} RejectedStops(r: Run, cs: seq<Command>, k: nat, f: Option<nat>)
    requires !r.failed && k < |cs| && f == Some(r.issued + k)
    requires !ExecAll(r, cs[..k], f).failed
    ensures ExecAll(r, cs, f).failed
    ensures ExecAll(r, cs, f).db == ExecAll(r, cs[..k], f).db
  {
    var p := ExecAll(r, cs[..k], f);
    IssuedCount(r, cs[..k], f);
    assert cs[..k + 1][..k] == cs[..k];
    assert ExecAll(r, cs[..k + 1], f) == Exec(p, cs[k], f);
    ExecAllStops(r, cs, k + 1, f);
  }

  /** Sending a + b is sending a, then b. */
  lemma {:induction false} ExecAllConcat(r: Run, a: seq<Command>, b: seq<Command>, rejectAt: Option<nat>)
    ensures ExecAll(r, a + b, rejectAt) == ExecAll(ExecAll(r, a, rejectAt), b, rejectAt)
  {
    if |b| == 0 {
      assert a + b == a;
    } else {
      assert (a + b)[..|a + b| - 1] == a + b[..|b| - 1];
      ExecAllConcat(r, a, b[..|b| - 1], rejectAt);
    }
  }

  /** Each statement sent counts one query. */
  lemma {:induction false} IssuedCount(r: Run, cs: seq<Command>, f: Option<nat>)
    requires !ExecAll(r, cs, f).failed
    ensures ExecAll(r, cs, f).issued == r.issued + |cs|
  {
    if |cs| > 0 {
      IssuedCount(r, cs[..|cs| - 1], f);
    }
  }

  /** ADD COLUMN IF NOT EXISTS only adds: old columns stay first and unchanged, the new names are
      those of `cols`, and every row keeps its values. */
  lemma {:induction false} AddColumnsGrows(t: Table, cols: seq<Column>)
    ensures var t' := AddColumnsTo(t, cols);
      |t'.columns| >= |t.columns| && t'.columns[..|t.columns|] == t.columns
      && ColumnNames(t'.columns) == ColumnNames(t.columns) + ColumnNames(cols)
      && |t'.rows| == |t.rows| && t'.nextSerial == t.nextSerial
      && (forall j, k :: 0 <= j < |t.rows| && k in t.rows[j] && k in ColumnNames(t.columns) ==> k in t'.rows[j] && t'.rows[j][k] == t.rows[j][k])
  {
    if |cols| > 0 {
      var c := cols[|cols| - 1];
      var t1 := AddColumnsTo(t, cols[..|cols| - 1]);
      AddColumnsGrows(t, cols[..|cols| - 1]);
      if c.name !in ColumnNames(t1.columns) {
        var t2 := AddColumn(t1, c);
        assert t2.columns[..|t1.columns|] == t1.columns;
        assert t2.columns[..|t.columns|] == t1.columns[..|t.columns|];
        assert t2.columns[..|t2.columns| - 1] == t1.columns;
        forall j, k | 0 <= j < |t.rows| && k in t.rows[j] && k in ColumnNames(t.columns) ensures k in t2.rows[j] && t2.rows[j][k] == t.rows[j][k] {
          assert t2.rows[j] == t1.rows[j][c.name := Fill(c.default, 0)];
        }
      }
    }
  }

  /** Adding columns that all exist already changes nothing. */
  lemma {:induction false} AddExistingColumns(t: Table, cols: seq<Column>)
    requires ColumnNames(cols) <= ColumnNames(t.columns)
    ensures AddColumnsTo(t, cols) == t
  {
    if |cols| > 0 {
      AddExistingColumns(t, cols[..|cols| - 1]);
    }
  }

  /** Re-running an ADD COLUMN IF NOT EXISTS statement is a no-op. */
  lemma AddColumnsIdempotent(t: Table, cols: seq<Column>)
    ensures AddColumnsTo(AddColumnsTo(t, cols), cols) == AddColumnsTo(t, cols)
  {
    AddColumnsGrows(t, cols);
    AddExistingColumns(AddColumnsTo(t, cols), cols);
  }

  /** A column that is new to the table (and first of its name in `cols`) reaches every existing
      row with its default. */
  lemma {:induction false} AddedColumnFilled(t: Table, cols: seq<Column>, i: nat, j: nat)
    requires i < |cols| && j < |t.rows|
    requires cols[i].name !in ColumnNames(t.columns) && cols[i].name !in ColumnNames(cols[..i])
    ensures j < |AddColumnsTo(t, cols).rows| && cols[i].name in AddColumnsTo(t, cols).rows[j]
    ensures AddColumnsTo(t, cols).rows[j][cols[i].name] == Fill(cols[i].default, 0)
  {
    var n := |cols| - 1;
    var t1 := AddColumnsTo(t, cols[..n]);
    assert AddColumnsTo(t, cols) == AddColumn(t1, cols[n]);
    AddColumnsGrows(t, cols[..n]);
    if i == n {
      assert cols[..n] == cols[..i];
      AddColumnNewRow(t1, cols[n], j);
    } else {
      var name := cols[i].name;
      assert cols[..n][i] == cols[i] && cols[..n][..i] == cols[..i];
      AddedColumnFilled(t, cols[..n], i, j);
      NameInPrefix(cols, i, n);
      AddColumnKeepsRow(t1, cols[n], j, name);
    }
  }

  /** The column at position i is named among the first n columns, for i < n. */
  lemma NameInPrefix(cols: seq<Column>, i: nat, n: nat)
    requires i < n <= |cols|
    ensures cols[i].name in ColumnNames(cols[..n])
  {
    assert cols[..n][..i + 1][..i] == cols[..i];
    assert cols[..n][..i + 1] == cols[..i + 1];
    ColumnNamesPrefix(cols[..n], i + 1);
  }

  /** A new column's default lands in every existing row. */
  lemma AddColumnNewRow(t: Table, c: Column, j: nat)
    requires j < |t.rows| && c.name !in ColumnNames(t.columns)
    ensures j < |AddColumn(t, c).rows| && c.name in AddColumn(t, c).rows[j]
    ensures AddColumn(t, c).rows[j][c.name] == Fill(c.default, 0)
  {
  }

  /** Adding a column keeps every other value of a row. */
  lemma AddColumnKeepsRow(t: Table, c: Column, j: nat, name: string)
    requires j < |t.rows| && name in t.rows[j]
    requires name != c.name || c.name in ColumnNames(t.columns)
    ensures j < |AddColumn(t, c).rows| && name in AddColumn(t, c).rows[j]
    ensures AddColumn(t, c).rows[j][name] == t.rows[j][name]
  {
  }

  lemma {:induction false} ColumnNamesPrefix(cols: seq<Column>, k: nat)
    requires k <= |cols|
    ensures ColumnNames(cols[..k]) <= ColumnNames(cols)
  {
    if k < |cols| {
      assert cols[..|cols| - 1][..k] == cols[..k];
      ColumnNamesPrefix(cols[..|cols| - 1], k);
    } else {
      assert cols[..k] == cols;
    }
  }

  /** A name is a column name exactly when some column carries it. */
  lemma {:induction false} ColumnNamesMembers(cols: seq<Column>)
    ensures forall k :: k in ColumnNames(cols) <==> exists i :: 0 <= i < |cols| && cols[i].name == k
  {
    if |cols| > 0 {
      var n := |cols| - 1;
      ColumnNamesMembers(cols[..n]);
      forall k | k in ColumnNames(cols) ensures exists i :: 0 <= i < |cols| && cols[i].name == k {
        if k != cols[n].name {
          assert k in ColumnNames(cols[..n]);
          var i :| 0 <= i < |cols[..n]| && cols[..n][i].name == k;
          assert cols[i].name == k;
        }
      }
      forall k | exists i :: 0 <= i < |cols| && cols[i].name == k ensures k in ColumnNames(cols) {
        var i :| 0 <= i < |cols| && cols[i].name == k;
        if i < n {
          assert cols[..n][i].name == k;
        }
      }
    }
  }

  /** The value an INSERT stores in a column whose name no other column shares. */
  lemma {:induction false} BuildRowColumn(cols: seq<Column>, values: Values, serial: nat, i: nat)
    requires i < |cols| && forall j :: 0 <= j < |cols| && j != i ==> cols[j].name != cols[i].name
    ensures cols[i].name in BuildRow(cols, values, serial)
    ensures BuildRow(cols, values, serial)[cols[i].name]
         == if cols[i].name in values then values[cols[i].name] else Fill(cols[i].default, serial)
  {
    var n := |cols| - 1;
    if i < n {
      forall j | 0 <= j < n && j != i ensures cols[..n][j].name != cols[..n][i].name {
      }
      BuildRowColumn(cols[..n], values, serial, i);
    }
  }

  /** The pool through which a script talks to the store. */
  class Pool {
    var db: Tables
    var issued: nat
    var open: bool
    const rejectAt: Option<nat>

    constructor (db: Tables, rejectAt: Option<nat>)
      ensures this.db == db && issued == 0 && open && this.rejectAt == rejectAt
    {
      this.db := db;
      issued := 0;
      open := true;
      this.rejectAt := rejectAt;
    }

    function State(): Run
      reads this
    {
      Run(db, issued, false)
    }

    /** `await pool.query(statement)`; `ok` is false where the promise rejects. */
    method Execute(c: Command) returns (ok: bool)
      requires open
      modifies this
      ensures open
      ensures Run(db, issued, !ok) == Exec(old(State()), c, rejectAt)
    {
      var res := Apply(db, c);
      issued := issued + 1;
      if rejectAt == Some(issued - 1) || res.Err? {
        ok := false;
      } else {
        db, ok := res.value, true;
      }
    }

    /** `await pool.query(fileContents)` for a multi-statement file. */
    method ExecuteBatch(cs: seq<Command>) returns (ok: bool)
      requires open
      modifies this
      ensures open
      ensures Run(db, issued, !ok) == ExecBatch(old(State()), cs, rejectAt)
    {
      var res := ApplyBatch(db, cs);
      issued := issued + 1;
      if rejectAt == Some(issued - 1) || res.Err? {
        ok := false;
      } else {
        db, ok := res.value, true;
      }
    }

    /** `await pool.query(select)`, answering a row count, or `Err` where the promise rejects. */
    method Count(q: Query) returns (n: Result<nat>)
      requires open
      modifies this
      ensures open
      ensures Run(db, issued, n.Err?) == Ask(old(State()), q, rejectAt)
      ensures n.Ok? ==> n == Answer(db, q)
    {
      n := if rejectAt == Some(issued) then Err else Answer(db, q);
      issued := issued + 1;
    }

    /** `pool.end()` */
    method End()
      requires open
      modifies this
      ensures !open && db == old(db) && issued == old(issued)
    {
      open := false;
    }
  }
}
