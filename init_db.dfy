/** backend/initDb.js: applies the schema file, then seeds the admin user and four content tables,
    each only when it has nothing yet, and exits with status 0, or 1 at the first failure. */
module InitDb {
  import opened Js
  import opened Db

  function AdminRow(hash: string): Values {
    map["username" := Text("admin"), "password" := Text(hash)]
  }

  function ServiceRow(title: string, description: string, icon: string): Values {
    map["title" := Text(title), "description" := Text(description), "icon" := Text(icon)]
  }

  function PortfolioRow(title: string, category: string, image: string, description: string): Values {
    map["title" := Text(title), "category" := Text(category), "image" := Text(image), "description" := Text(description)]
  }

  function TestimonialRow(name: string, role: string, content: string): Values {
    map["name" := Text(name), "role" := Text(role), "content" := Text(content)]
  }

  function ContentRow(key: string, value: string): Values {
    map["key" := Text(key), "value" := Text(value)]
  }

  const Services: seq<Values> := [
    ServiceRow("Web Development", "Scalable, high-performance web applications built with modern stacks.", "code"),
    ServiceRow("Frontend Engineering", "Interactive, smooth, and responsive interfaces using React & GSAP.", "layout"),
    ServiceRow("UI/UX Design", "User-centric design systems that convert visitors into customers.", "pen-tool"),
    ServiceRow("Branding", "Complete identity systems from logos to brand guidelines.", "star")
  ]

  const PortfolioItems: seq<Values> := [
    PortfolioRow("FinTech Dashboard", "Web App", "https://picsum.photos/800/600?random=1", "Real-time financial data visualization."),
    PortfolioRow("Neon Commerce", "E-Commerce", "https://picsum.photos/800/600?random=2", "High-conversion streetwear store."),
    PortfolioRow("Future Health", "Mobile App", "https://picsum.photos/800/600?random=3", "Telemedicine platform for the future.")
  ]

  const Testimonials: seq<Values> := [
    TestimonialRow("Sarah Jenkins", "CEO, TechFlow", "Gradevo transformed our digital presence. The 3D integration is seamless."),
    TestimonialRow("Marcus Chen", "Founder, StartUp X", "Pixel-perfect design and incredibly fast delivery. Highly recommended.")
  ]

  const Content: seq<Values> := [
    ContentRow("heroTitle", "Gra#Devo — Design. Develop. Deploy."),
    ContentRow("heroSubtitle", "A full-stack creative agency blending design, engineering, and storytelling to help brands grow digitally."),
    ContentRow("servicesIntro", "We build digital experiences that are fast, beautiful, and ready to scale."),
    ContentRow("contactCTA", "Let’s build something extraordinary.")
  ]

  const AdminCheck := CountWhere("users", "username", Text("admin"))

  /** The admin step: look the user up, insert it only when absent. */
  function SeedAdmin(r: Run, hash: string, f: Option<nat>): Run {
    var r1 := Ask(r, AdminCheck, f);
    if r1.failed || Answer(r.db, AdminCheck) != Ok(0) then r1
    else Exec(r1, Insert("users", AdminRow(hash)), f)
  }

  /** A content step: count the rows, insert the list one by one only when the count is 0. */
  function SeedIfEmpty(r: Run, table: string, rows: seq<Values>, f: Option<nat>): Run {
    var r1 := Ask(r, CountRows(table), f);
    if r1.failed || Answer(r.db, CountRows(table)) != Ok(0) then r1
    else ExecAll(r1, Inserts(table, rows), f)
  }

  /** Every step after the schema, in order. */
  function SeedAll(r: Run, hash: string, f: Option<nat>): Run {
    var r1 := SeedAdmin(r, hash, f);
    var r2 := SeedIfEmpty(r1, "services", Services, f);
    var r3 := SeedIfEmpty(r2, "portfolio", PortfolioItems, f);
    var r4 := SeedIfEmpty(r3, "testimonials", Testimonials, f);
    SeedIfEmpty(r4, "site_content", Content, f)
  }

  /** The whole script. `schema` is the statements of schema.sql, or None when the file cannot be
      read; the file is sent as one query. */
  function InitRun(r: Run, schema: Option<seq<Command>>, hash: string, f: Option<nat>): Run {
    if r.failed || schema.None? then Run(r.db, r.issued, true)
    else SeedAll(ExecBatch(r, schema.value, f), hash, f)
  }

  function ExitCode(r: Run): int {
    if r.failed then 1 else 0
  }

  /** `hash` is what bcrypt returns for 'admin123' (cost 10). The script ends in process.exit, so
      the pool is never closed. */
  method InitDb(pool: Pool, schema: Option<seq<Command>>, hash: string) returns (exitCode: int)
    requires pool.open
    modifies pool
    ensures pool.open
    ensures var r := InitRun(old(pool.State()), schema, hash, pool.rejectAt);
      pool.db == r.db && pool.issued == r.issued && exitCode == ExitCode(r)
  {
    if schema.None? {
      return 1;
    }
    var ok := pool.ExecuteBatch(schema.value);
    if !ok {
      return 1;
    }
    ok := SeedAdminStep(pool, hash);
    if !ok {
      return 1;
    }
    ok := SeedTable(pool, "services", Services);
    if !ok {
      return 1;
    }
    ok := SeedTable(pool, "portfolio", PortfolioItems);
    if !ok {
      return 1;
    }
    ok := SeedTable(pool, "testimonials", Testimonials);
    if !ok {
      return 1;
    }
    ok := SeedTable(pool, "site_content", Content);
    if !ok {
      return 1;
    }
    return 0;
  }

  method SeedAdminStep(pool: Pool, hash: string) returns (ok: bool)
    requires pool.open
    modifies pool
    ensures pool.open
    ensures Run(pool.db, pool.issued, !ok) == SeedAdmin(old(pool.State()), hash, pool.rejectAt)
  {
    var found := pool.Count(AdminCheck);
    if found.Err? {
      return false;
    }
    if found.value != 0 {
      return true;
    }
    ok := pool.Execute(Insert("users", AdminRow(hash)));
  }

  method SeedTable(pool: Pool, table: string, rows: seq<Values>) returns (ok: bool)
    requires pool.open
    modifies pool
    ensures pool.open
    ensures Run(pool.db, pool.issued, !ok) == SeedIfEmpty(old(pool.State()), table, rows, pool.rejectAt)
  {
    var count := pool.Count(CountRows(table));
    if count.Err? {
      return false;
    }
    if count.value != 0 {
      return true;
    }
    ghost var r1 := pool.State();
    ghost var cs := Inserts(table, rows);
    for i := 0 to |rows|
      invariant pool.open
      invariant pool.State() == ExecAll(r1, cs[..i], pool.rejectAt)
    {
      ok := pool.Execute(Insert(table, rows[i]));
      assert cs[..i + 1][..i] == cs[..i];
      if !ok {
        ExecAllStops(r1, cs, i + 1, pool.rejectAt);
        return false;
      }
    }
    assert cs[..|rows|] == cs;
    return true;
  }

  /** A non-empty table (or one whose count fails) is left untouched. */
  lemma SeedSkipsNonEmpty(r: Run, table: string, rows: seq<Values>, f: Option<nat>)
    requires Answer(r.db, CountRows(table)) != Ok(0)
    ensures SeedIfEmpty(r, table, rows, f).db == r.db
  {
  }

  /** An empty table whose seeding completes holds exactly the listed rows, in order. */
  lemma {:induction false} SeedFillsEmpty(r: Run, table: string, rows: seq<Values>, f: Option<nat>)
    requires table in r.db && |r.db[table].rows| == 0
    requires !SeedIfEmpty(r, table, rows, f).failed
    ensures var db' := SeedIfEmpty(r, table, rows, f).db;
      db'.Keys == r.db.Keys
      && (forall n :: n in r.db && n != table ==> db'[n] == r.db[n])
      && |db'[table].rows| == |rows|
      && (forall i, k :: 0 <= i < |rows| && k in rows[i] ==> k in db'[table].rows[i] && db'[table].rows[i][k] == rows[i][k])
  {
    var r1 := Ask(r, CountRows(table), f);
    assert !r.failed;
    InsertsEffect(r1, table, rows, f);
  }

  /** The admin row is added only when no user is named 'admin'; it then carries the hash. */
  lemma {:induction false} AdminSeeded(r: Run, hash: string, f: Option<nat>)
    requires !SeedAdmin(r, hash, f).failed
    ensures var db' := SeedAdmin(r, hash, f).db;
      (exists i :: 0 <= i < |r.db["users"].rows| && "username" in r.db["users"].rows[i] && r.db["users"].rows[i]["username"] == Text("admin"))
      ==> db' == r.db
    ensures var db' := SeedAdmin(r, hash, f).db;
      (forall i :: 0 <= i < |r.db["users"].rows| ==> !("username" in r.db["users"].rows[i] && r.db["users"].rows[i]["username"] == Text("admin")))
      ==> db'.Keys == r.db.Keys
          && (forall n :: n in r.db && n != "users" ==> db'[n] == r.db[n])
          && db'["users"].rows[..|r.db["users"].rows|] == r.db["users"].rows
          && |db'["users"].rows| == |r.db["users"].rows| + 1
          && db'["users"].rows[|r.db["users"].rows|]["username"] == Text("admin")
          && db'["users"].rows[|r.db["users"].rows|]["password"] == Text(hash)
  {
    var users := r.db["users"];
    var hits := set i | 0 <= i < |users.rows| && "username" in users.rows[i] && users.rows[i]["username"] == Text("admin") && Text("admin") != Null;
    if i :| 0 <= i < |users.rows| && "username" in users.rows[i] && users.rows[i]["username"] == Text("admin") {
      assert i in hits;
    } else {
      assert hits == {};
      var r1 := Ask(r, AdminCheck, f);
      var t := users;
      BuildRowGiven(t.columns, AdminRow(hash), t.nextSerial);
    }
  }

  /** Seeding a table a second time, after a first seeding that completed, changes nothing. */
  lemma {:induction false} SeedTwice(r: Run, table: string, rows: seq<Values>, f: Option<nat>)
    requires |rows| > 0 && !SeedIfEmpty(r, table, rows, f).failed
    ensures var r' := SeedIfEmpty(r, table, rows, f);
      table in r'.db && |r'.db[table].rows| > 0
      && SeedIfEmpty(r', table, rows, f).db == r'.db
  {
    var r1 := Ask(r, CountRows(table), f);
    if Answer(r.db, CountRows(table)) == Ok(0) {
      SeedFillsEmpty(r, table, rows, f);
    }
  }

  /** A completed content step changes no other table. */
  lemma SeedFrame(r: Run, table: string, rows: seq<Values>, f: Option<nat>)
    requires !SeedIfEmpty(r, table, rows, f).failed
    ensures var db' := SeedIfEmpty(r, table, rows, f).db;
      db'.Keys == r.db.Keys && (forall n :: n in r.db && n != table ==> db'[n] == r.db[n])
  {
    var r1 := Ask(r, CountRows(table), f);
    if Answer(r.db, CountRows(table)) == Ok(0) {
      InsertsEffect(r1, table, rows, f);
    }
  }

  ghost predicate HasAdmin(db: Tables) {
    "users" in db && exists i :: 0 <= i < |db["users"].rows| && "username" in db["users"].rows[i] && db["users"].rows[i]["username"] == Text("admin")
  }

  predicate NonEmpty(db: Tables, table: string) {
    table in db && |db[table].rows| > 0
  }

  /** The state a completed run leaves: an admin user and four non-empty content tables. */
  ghost predicate Seeded(db: Tables) {
    HasAdmin(db) && NonEmpty(db, "services") && NonEmpty(db, "portfolio") && NonEmpty(db, "testimonials") && NonEmpty(db, "site_content")
  }

  /** On a seeded store every step finds its data and sends nothing but its check. */
  lemma {:induction false} SeededSkipsAll(r: Run, hash: string, f: Option<nat>)
    requires Seeded(r.db)
    ensures SeedAll(r, hash, f).db == r.db
  {
    var users := r.db["users"];
    var i :| 0 <= i < |users.rows| && "username" in users.rows[i] && users.rows[i]["username"] == Text("admin");
    var hits := set j | 0 <= j < |users.rows| && "username" in users.rows[j] && users.rows[j]["username"] == Text("admin") && Text("admin") != Null;
    assert i in hits;
    assert SeedAdmin(r, hash, f).db == r.db;
  }

  lemma {:induction false} AdminStepSeeds(r: Run, hash: string, f: Option<nat>)
    requires !SeedAdmin(r, hash, f).failed
    ensures HasAdmin(SeedAdmin(r, hash, f).db)
  {
    AdminSeeded(r, hash, f);
    var users := r.db["users"];
    if !(exists i :: 0 <= i < |users.rows| && "username" in users.rows[i] && users.rows[i]["username"] == Text("admin")) {
      assert "username" in SeedAdmin(r, hash, f).db["users"].rows[|users.rows|];
    }
  }

  /** A completed content step leaves its table non-empty and keeps what other steps established. */
  lemma {:induction false} SeedKeeps(r: Run, table: string, rows: seq<Values>, f: Option<nat>)
    requires |rows| > 0 && table != "users" && !SeedIfEmpty(r, table, rows, f).failed
    ensures NonEmpty(SeedIfEmpty(r, table, rows, f).db, table)
    ensures forall t :: t != table && NonEmpty(r.db, t) ==> NonEmpty(SeedIfEmpty(r, table, rows, f).db, t)
    ensures HasAdmin(r.db) ==> HasAdmin(SeedIfEmpty(r, table, rows, f).db)
  {
    SeedTwice(r, table, rows, f);
    SeedFrame(r, table, rows, f);
    if HasAdmin(r.db) {
      assert SeedIfEmpty(r, table, rows, f).db["users"] == r.db["users"];
    }
  }

  /** A completed seeding leaves the store seeded. */
  lemma {:induction false} SeedAllSeeds(r: Run, hash: string, f: Option<nat>)
    requires !SeedAll(r, hash, f).failed
    ensures Seeded(SeedAll(r, hash, f).db)
  {
    var r1 := SeedAdmin(r, hash, f);
    var r2 := SeedIfEmpty(r1, "services", Services, f);
    var r3 := SeedIfEmpty(r2, "portfolio", PortfolioItems, f);
    var r4 := SeedIfEmpty(r3, "testimonials", Testimonials, f);
    assert SeedAll(r, hash, f) == SeedIfEmpty(r4, "site_content", Content, f);
    assert !r4.failed && !r3.failed && !r2.failed && !r1.failed;
    AdminStepSeeds(r, hash, f);
    SeedKeeps(r1, "services", Services, f);
    SeedKeeps(r2, "portfolio", PortfolioItems, f);
    SeedKeeps(r3, "testimonials", Testimonials, f);
    SeedKeeps(r4, "site_content", Content, f);
  }

  /** Seeding twice gives the same store as seeding once. */
  lemma SeedAllTwice(r: Run, hash: string, f: Option<nat>)
    requires !SeedAll(r, hash, f).failed
    ensures SeedAll(SeedAll(r, hash, f), hash, f).db == SeedAll(r, hash, f).db
  {
    SeedAllSeeds(r, hash, f);
    SeededSkipsAll(SeedAll(r, hash, f), hash, f);
  }

  /** An unreadable or failing schema file ends the script with status 1 before any seeding. */
  lemma InitStopsAtSchema(r: Run, schema: Option<seq<Command>>, hash: string, f: Option<nat>)
    requires !r.failed && (schema.None? || ExecBatch(r, schema.value, f).failed)
    ensures ExitCode(InitRun(r, schema, hash, f)) == 1
    ensures InitRun(r, schema, hash, f).db == r.db
    ensures InitRun(r, schema, hash, f).issued <= r.issued + 1
  {
  }
}
