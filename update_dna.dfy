/** backend/updateDb.js: creates the `dna` table when it is absent, then inserts the four DNA
    cards, every time it runs. */
module UpdateDna {
  import opened Js
  import opened Db

  const Dna := "dna"

  const CreateDna := CreateTable(Dna, [
    Column("id", "SERIAL", true, Serial),
    Column("title", "VARCHAR(255)", true, NoDefault),
    Column("description", "TEXT", true, NoDefault),
    Column("image", "TEXT", true, NoDefault)
  ])

  function Card(title: string, description: string, image: string): Values {
    map["title" := Text(title), "description" := Text(description), "image" := Text(image)]
  }

  const Cards: seq<Values> := [
    Card("Immersive #Experiences",
      "We transform passive viewing into active participation. Our digital worlds are designed to captivate, engage, and leave a lasting impression.",
      "https://images.unsplash.com/photo-1618005182384-a83a8bd57fbe?auto=format&fit=crop&q=80&w=1000"),
    Card("Pixel #Perfection",
      "Quality is non-negotiable. We obsess over every micro-interaction, ensuring smooth animations and flawless execution across all devices.",
      "https://images.unsplash.com/photo-1550745165-9bc0b252726f?auto=format&fit=crop&q=80&w=1000"),
    Card("Strategic #Growth",
      "Beauty with purpose. We blend aesthetic excellence with data-driven strategy to ensure your digital presence drives real business results.",
      "https://images.unsplash.com/photo-1460925895917-afdab827c52f?auto=format&fit=crop&q=80&w=1000"),
    Card("Future #Ready",
      "We build on modern stacks designed for scale. From Web3 to AI integration, we prepare your brand for the digital landscape of tomorrow.",
      "https://images.unsplash.com/photo-1526374965328-7f61d4dc18c5?auto=format&fit=crop&q=80&w=1000")
  ]

  /** Everything the script sends, in order. */
  function Statements(): seq<Command> {
    [CreateDna] + Inserts(Dna, Cards)
  }

  /** How the script ends: 'DNA data seeded', or the error printed by the catch block. */
  datatype Outcome = Completed | ErrorLogged

  method CreateDnaTable(pool: Pool) returns (outcome: Outcome)
    requires pool.open
    modifies pool
    ensures !pool.open
    ensures var r := ExecAll(old(pool.State()), Statements(), pool.rejectAt);
      pool.db == r.db && pool.issued == r.issued && (outcome == ErrorLogged <==> r.failed)
  {
    ghost var r0 := pool.State();
    outcome := ErrorLogged;
    var ok := pool.Execute(CreateDna);
    ExecAllConcat(r0, [CreateDna], Inserts(Dna, Cards), pool.rejectAt);
    assert [CreateDna][..0] == [];
    if !ok {
      ExecAllFailed(Run(pool.db, pool.issued, true), Inserts(Dna, Cards), pool.rejectAt);
      pool.End();
      return;
    }
    ok := InsertAll(pool, Cards);
    if ok {
      outcome := Completed;
    }
    pool.End();
  }

  /** The `for … of` loop over the cards: one INSERT each, stopping at the first rejected query. */
  method InsertAll(pool: Pool, rows: seq<Values>) returns (ok: bool)
    requires pool.open
    modifies pool
    ensures pool.open
    ensures Run(pool.db, pool.issued, !ok) == ExecAll(old(pool.State()), Inserts(Dna, rows), pool.rejectAt)
  {
    ghost var r0 := pool.State();
    ghost var cs := Inserts(Dna, rows);
    ok := true;
    for i := 0 to |rows|
      invariant pool.open
      invariant pool.State() == ExecAll(r0, cs[..i], pool.rejectAt)
    {
      ok := pool.Execute(Insert(Dna, rows[i]));
      assert cs[..i + 1][..i] == cs[..i];
      if !ok {
        ExecAllStops(r0, cs, i + 1, pool.rejectAt);
        return;
      }
    }
    assert cs[..|rows|] == cs;
  }

  /** The rows the table had before the run: none when the run creates it. */
  function RowsBefore(db: Tables): seq<Row> {
    if Dna in db then db[Dna].rows else []
  }

  /** What sending the create and then `rows` as inserts does, when nothing fails. */
  ghost predicate Appended(db: Tables, db': Tables, rows: seq<Values>) {
    Dna in db'
    && db'.Keys == db.Keys + {Dna}
    && (forall n :: n in db && n != Dna ==> db'[n] == db[n])
    && (Dna in db ==> db'[Dna].columns == db[Dna].columns)
    && |db'[Dna].rows| == |RowsBefore(db)| + |rows|
    && db'[Dna].rows[..|RowsBefore(db)|] == RowsBefore(db)
    && (forall i, k :: 0 <= i < |rows| && k in rows[i] ==>
          k in db'[Dna].rows[|RowsBefore(db)| + i] && db'[Dna].rows[|RowsBefore(db)| + i][k] == rows[i][k])
  }

  lemma {:induction false} CreateThenInsert(r: Run, rows: seq<Values>, f: Option<nat>)
    requires !ExecAll(r, [CreateDna] + Inserts(Dna, rows), f).failed
    ensures Appended(r.db, ExecAll(r, [CreateDna] + Inserts(Dna, rows), f).db, rows)
    ensures ExecAll(r, [CreateDna] + Inserts(Dna, rows), f).issued == r.issued + 1 + |rows|
  {
    ExecAllConcat(r, [CreateDna], Inserts(Dna, rows), f);
    assert [CreateDna][..0] == [];
    var r1 := ExecAll(r, [CreateDna], f);
    assert r1 == Exec(r, CreateDna, f);
    ExecAllFailedStays(r1, Inserts(Dna, rows), f);
    CreateStep(r, f);
    InsertsEffect(r1, Dna, rows, f);
    IssuedCount(r1, Inserts(Dna, rows), f);
    AppendedFrom(r.db, r1.db, ExecAll(r1, Inserts(Dna, rows), f).db, rows);
  }

  /** The guarded create keeps an existing table, and otherwise adds an empty one. */
  lemma CreateStep(r: Run, f: Option<nat>)
    requires !Exec(r, CreateDna, f).failed
    ensures var db' := Exec(r, CreateDna, f).db;
      Dna in db' && db'.Keys == r.db.Keys + {Dna}
      && (forall n :: n in r.db && n != Dna ==> db'[n] == r.db[n])
      && (Dna in r.db ==> db'[Dna] == r.db[Dna])
      && db'[Dna].rows == RowsBefore(r.db)
  {
  }

  lemma AppendedFrom(db: Tables, db1: Tables, db2: Tables, rows: seq<Values>)
    requires Dna in db1 && db1.Keys == db.Keys + {Dna}
    requires forall n :: n in db && n != Dna ==> db1[n] == db[n]
    requires Dna in db ==> db1[Dna] == db[Dna]
    requires db1[Dna].rows == RowsBefore(db)
    requires db2.Keys == db1.Keys
    requires forall n :: n in db1 && n != Dna ==> db2[n] == db1[n]
    requires db2[Dna].columns == db1[Dna].columns
    requires |db2[Dna].rows| == |db1[Dna].rows| + |rows|
    requires db2[Dna].rows[..|db1[Dna].rows|] == db1[Dna].rows
    requires forall i, k :: 0 <= i < |rows| && k in rows[i] ==>
            k in db2[Dna].rows[|db1[Dna].rows| + i] && db2[Dna].rows[|db1[Dna].rows| + i][k] == rows[i][k]
    ensures Appended(db, db2, rows)
  {
  }

  lemma ExecAllFailedStays(r: Run, cs: seq<Command>, f: Option<nat>)
    requires !ExecAll(r, cs, f).failed
    ensures !r.failed
  {
    if r.failed {
      ExecAllFailed(r, cs, f);
    }
  }

  /** A completed run keeps every row the table had, appends the four cards in order, and
      changes no other table; an existing table keeps its columns. */
  lemma RunAppendsCards(r: Run, f: Option<nat>)
    requires !ExecAll(r, Statements(), f).failed
    ensures Appended(r.db, ExecAll(r, Statements(), f).db, Cards)
  {
    CreateThenInsert(r, Cards, f);
  }

  /** The script is not idempotent: two completed runs append eight rows, the cards twice. */
  lemma {:induction false} TwoRunsAppendEight(r: Run, f: Option<nat>)
    requires !ExecAll(r, Statements(), f).failed
    requires !ExecAll(ExecAll(r, Statements(), f), Statements(), f).failed
    ensures var db2 := ExecAll(ExecAll(r, Statements(), f), Statements(), f).db;
      Dna in db2
      && |db2[Dna].rows| == |RowsBefore(r.db)| + 8
      && db2[Dna].rows[..|RowsBefore(r.db)|] == RowsBefore(r.db)
      && (forall i, k :: 0 <= i < 4 && k in Cards[i] ==>
            k in db2[Dna].rows[|RowsBefore(r.db)| + i] && db2[Dna].rows[|RowsBefore(r.db)| + i][k] == Cards[i][k]
            && k in db2[Dna].rows[|RowsBefore(r.db)| + 4 + i] && db2[Dna].rows[|RowsBefore(r.db)| + 4 + i][k] == Cards[i][k])
  {
    var r1 := ExecAll(r, Statements(), f);
    RunAppendsCards(r, f);
    RunAppendsCards(r1, f);
    TwoAppends(r.db, r1.db, ExecAll(r1, Statements(), f).db, Cards);
  }

  lemma TwoAppends(db0: Tables, db1: Tables, db2: Tables, rows: seq<Values>)
    requires Appended(db0, db1, rows) && Appended(db1, db2, rows)
    ensures |db2[Dna].rows| == |RowsBefore(db0)| + 2 * |rows|
    ensures db2[Dna].rows[..|RowsBefore(db0)|] == RowsBefore(db0)
    ensures forall i, k :: 0 <= i < |rows| && k in rows[i] ==>
      k in db2[Dna].rows[|RowsBefore(db0)| + i] && db2[Dna].rows[|RowsBefore(db0)| + i][k] == rows[i][k]
      && k in db2[Dna].rows[|RowsBefore(db0)| + |rows| + i] && db2[Dna].rows[|RowsBefore(db0)| + |rows| + i][k] == rows[i][k]
  {
    var n0 := |RowsBefore(db0)|;
    var rows1 := db1[Dna].rows;
    var rows2 := db2[Dna].rows;
    assert RowsBefore(db1) == rows1;
    assert rows2[..n0] == rows1[..n0] by {
      assert rows2[..|rows1|][..n0] == rows2[..n0];
    }
    forall i, k | 0 <= i < |rows| && k in rows[i]
      ensures k in rows2[n0 + i] && rows2[n0 + i][k] == rows[i][k]
    {
      assert rows2[..|rows1|][n0 + i] == rows1[n0 + i];
    }
  }

  /** When the server fails the insert of card k, the cards before it stay inserted and the run
      ends failed. */
  lemma FailedInsertKeepsEarlier(r: Run, k: nat, f: Option<nat>)
    requires k < 4 && f == Some(r.issued + 1 + k)
    requires !ExecAll(r, Statements()[..k + 1], f).failed
    ensures ExecAll(r, Statements(), f).failed
    ensures Appended(r.db, ExecAll(r, Statements(), f).db, Cards[..k])
  {
    FailedInsertKeepsEarlierFor(r, Cards, k, f);
  }

  lemma {:induction false} FailedInsertKeepsEarlierFor(r: Run, rows: seq<Values>, k: nat, f: Option<nat>)
    requires k < |rows| && f == Some(r.issued + 1 + k)
    requires !ExecAll(r, ([CreateDna] + Inserts(Dna, rows))[..k + 1], f).failed
    ensures ExecAll(r, [CreateDna] + Inserts(Dna, rows), f).failed
    ensures Appended(r.db, ExecAll(r, [CreateDna] + Inserts(Dna, rows), f).db, rows[..k])
  {
    var cs := [CreateDna] + Inserts(Dna, rows);
    CreatePrefix(rows, k);
    CreateThenInsert(r, rows[..k], f);
    var before := ExecAll(r, cs[..k + 1], f);
    assert before.issued == r.issued + 1 + k;
    assert ExecAll(r, cs[..k + 2], f) == Exec(before, cs[k + 1], f) == Run(before.db, before.issued + 1, true);
    ExecAllStops(r, cs, k + 2, f);
    assert ExecAll(r, cs, f).db == before.db;
  }

  /** The first k + 1 statements of a run create the table and insert the first k rows. */
  lemma CreatePrefix(rows: seq<Values>, k: nat)
    requires k < |rows|
    ensures ([CreateDna] + Inserts(Dna, rows))[..k + 1] == [CreateDna] + Inserts(Dna, rows[..k])
    ensures ([CreateDna] + Inserts(Dna, rows))[..k + 2][..k + 1] == ([CreateDna] + Inserts(Dna, rows))[..k + 1]
  {
    var cs := [CreateDna] + Inserts(Dna, rows);
    assert cs[..k + 1] == [CreateDna] + Inserts(Dna, rows[..k]);
  }
}
