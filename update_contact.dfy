/** backend/updateDb_contact.js: creates the `contact_submissions` table when it is absent. */
module UpdateContact {
  import opened Js
  import opened Db

  const Submissions := "contact_submissions"

  const ContactColumns: seq<Column> := [
    Column("id", "SERIAL", true, Serial),
    Column("name", "VARCHAR(255)", true, NoDefault),
    Column("email", "VARCHAR(255)", true, NoDefault),
    Column("phone", "VARCHAR(50)", false, NoDefault),
    Column("website", "VARCHAR(255)", false, NoDefault),
    Column("services", "TEXT", false, NoDefault),
    Column("message", "TEXT", false, NoDefault),
    Column("created_at", "TIMESTAMP", false, CurrentTimestamp)
  ]

  const CreateContact := CreateTable(Submissions, ContactColumns)

  /** How the script ends: 'contact_submissions table created successfully', or the error. */
  datatype Outcome = Completed | ErrorLogged

  method CreateContactTable(pool: Pool) returns (outcome: Outcome)
    requires pool.open
    modifies pool
    ensures !pool.open
    ensures var r := Exec(old(pool.State()), CreateContact, pool.rejectAt);
      pool.db == r.db && pool.issued == r.issued && (outcome == ErrorLogged <==> r.failed)
  {
    var ok := pool.Execute(CreateContact);
    outcome := if ok then Completed else ErrorLogged;
    pool.End();
  }

  /** A completed run creates the table, empty and with exactly these columns, when it is absent;
      an existing table is kept exactly as it is, so a missing column such as `status` stays
      missing; no other table changes. */
  lemma CreateEffect(r: Run, f: Option<nat>)
    requires !Exec(r, CreateContact, f).failed
    ensures var db' := Exec(r, CreateContact, f).db;
      db'.Keys == r.db.Keys + {Submissions}
      && (forall n :: n in r.db && n != Submissions ==> db'[n] == r.db[n])
      && (Submissions in r.db ==> db'[Submissions] == r.db[Submissions])
      && (Submissions !in r.db ==>
            db'[Submissions].rows == []
            && ColumnNames(db'[Submissions].columns) == {"id", "name", "email", "phone", "website", "services", "message", "created_at"})
  {
    ContactNames();
  }

  lemma ContactNames()
    ensures ColumnNames(ContactColumns) == {"id", "name", "email", "phone", "website", "services", "message", "created_at"}
  {
    var c := ContactColumns;
    ColumnNamesMembers(c);
    assert c[0].name == "id" && c[1].name == "name" && c[2].name == "email" && c[3].name == "phone";
    assert c[4].name == "website" && c[5].name == "services" && c[6].name == "message" && c[7].name == "created_at";
  }

  /** No two contact columns share a name. */
  lemma ContactDistinct()
    ensures forall i, j :: 0 <= i < |ContactColumns| && 0 <= j < |ContactColumns| && i != j ==> ContactColumns[i].name != ContactColumns[j].name
  {
  }

  /** The submission row that a fresh table builds from the given values. */
  function Submission(values: Values): Row {
    BuildRow(ContactColumns, values, 1)
  }

  /** In the freshly created table, a submission is stored exactly when it names known columns,
      gives a non-NULL name and email, and does not force a NULL id; phone, website, services and
      message may be left out. */
  lemma {:induction false} SubmissionAccepted(values: Values)
    ensures InsertInto(Table(ContactColumns, [], 1), values).Ok?
        <==> values.Keys <= ColumnNames(ContactColumns)
             && "name" in values && values["name"] != Null
             && "email" in values && values["email"] != Null
             && ("id" in values ==> values["id"] != Null)
  {
    ContactNames();
    var row := Submission(values);
    SubmissionValues(values);
    if values.Keys <= ColumnNames(ContactColumns) {
      if ViolatesNotNull(ContactColumns, row) {
        var i :| 0 <= i < |ContactColumns| && ContactColumns[i].notNull && ContactColumns[i].name in row && row[ContactColumns[i].name] == Null;
        assert i == 0 || i == 1 || i == 2;
      } else {
        assert ContactColumns[1].notNull && ContactColumns[2].notNull;
      }
    }
  }

  /** Each column of a new submission holds the given value or its default: the next id, NULL,
      or the current time for `created_at`. */
  lemma SubmissionValues(values: Values)
    ensures var row := Submission(values);
      row.Keys == ColumnNames(ContactColumns)
      && "id" in row && row["id"] == (if "id" in values then values["id"] else Int(1))
      && "name" in row && row["name"] == (if "name" in values then values["name"] else Null)
      && "email" in row && row["email"] == (if "email" in values then values["email"] else Null)
      && "phone" in row && row["phone"] == (if "phone" in values then values["phone"] else Null)
      && "website" in row && row["website"] == (if "website" in values then values["website"] else Null)
      && "services" in row && row["services"] == (if "services" in values then values["services"] else Null)
      && "message" in row && row["message"] == (if "message" in values then values["message"] else Null)
      && "created_at" in row && row["created_at"] == (if "created_at" in values then values["created_at"] else Now)
  {
    ContactNames();
    ContactDistinct();
    BuildRowColumn(ContactColumns, values, 1, 0);
    BuildRowColumn(ContactColumns, values, 1, 1);
    BuildRowColumn(ContactColumns, values, 1, 2);
    BuildRowColumn(ContactColumns, values, 1, 3);
    BuildRowColumn(ContactColumns, values, 1, 4);
    BuildRowColumn(ContactColumns, values, 1, 5);
    BuildRowColumn(ContactColumns, values, 1, 6);
    BuildRowColumn(ContactColumns, values, 1, 7);
  }
}
