# Gradevo agency site: a Dafny model of its core

Gradevo is a small agency site. It has a public React front end (home, about, services, portfolio,
terms), an administration console that edits the content through a REST API, and a PostgreSQL
back end with a handful of one-off Node scripts that create and migrate tables and seed them.

This project models four parts of that system and proves their properties:

- **The maintenance scripts** (`backend/*.js`). They run over a small relational store (`Db`):
  - tables with ordered columns, rows and a SERIAL counter
  - `CREATE TABLE IF NOT EXISTS`, `ADD COLUMN IF NOT EXISTS`, `INSERT` (defaults and NOT NULL
    checks) and `UPDATE … WHERE`
  - a `Pool` class whose `Execute`/`Count`/`End` methods mirror `pool.query` and `pool.end`

  Server failures are a parameter (`rejectAt`), the number of the query that the server refuses.
  Each script is a method. Its effect on the store is proved against a function of the old store.
- **Content selection on the public pages**:
  - site-content lookups: `find` takes the first entry, a `forEach` fold keeps the last
  - fallbacks and image URL resolution
  - featured work and the "view all" rules
  - the category filter, tech-stack tags, title splitting on `#`
  - card numbering, the services icon lookup, the route table
  - the build's chunk naming
- **Request building in the admin console**: the form fields and JSON bodies that each editor
  sends, POST versus PUT, delete confirmation, and how each page reads the answer (session
  expiry, failure alerts, refetches).
- **The small state machines**: the navbar (scroll, logo, tagline cycle, mobile menu), the custom
  cursor, and the editors' states. Each is a class whose methods state the whole new state.

Inputs that the source takes from the outside become parameters. These are fetch answers, server
statuses, file contents, the bcrypt hash, scroll offsets and DOM paths.

## Model

| member | source | states |
|---|---|---|
| Db.BuildRow | gradevo-agency-V1/backend/updateDb_featured.js:7 | an inserted row has exactly the table's columns |
| Db.BuildRowGiven | gradevo-agency-V1/backend/initDb.js:38 | every value an INSERT names lands in its column |
| Db.BuildRowColumn | gradevo-agency-V1/backend/updateDb_contact.js:8-14 | a column not named by the INSERT takes its default (next serial, constant, NULL or the current time) |
| Db.UpdateRows | gradevo-agency-V1/backend/migrateCategories.js:5 | an UPDATE keeps the number of rows and treats each row on its own |
| Db.Exec | gradevo-agency-V1/backend/migrateCategories.js:5-9 | after a failed query nothing more happens; each query that is sent counts once |
| Db.ExecBatch | gradevo-agency-V1/backend/initDb.js:16 | a multi-statement file counts as one query, and a refused file leaves the store as it was |
| Db.Ask | gradevo-agency-V1/backend/initDb.js:29 | a SELECT COUNT never changes the store |
| Db.ExecAllStops | gradevo-agency-V1/backend/updateSchema.js:26-47 | once statement k fails, the later statements change nothing |
| Db.ExecAllFailed | gradevo-agency-V1/backend/updateDb.js:47-51 | a run that has failed stays exactly as it is |
| Db.ApplyValid | gradevo-agency-V1/backend/updateSchema.js:27-31 | every statement keeps each row's columns equal to its table's columns |
| Db.AddColumnsValid | gradevo-agency-V1/backend/updateSchema.js:35-39 | adding columns keeps every row shaped like its table |
| Db.Inserts | gradevo-agency-V1/backend/initDb.js:37-39 | one INSERT per listed row, in list order |
| Db.InsertsEffect | gradevo-agency-V1/backend/updateDb.js:39-44 | inserts that all succeed append one row per entry, in order, each holding the given values; the other tables do not change |
| Db.InsertStep | gradevo-agency-V1/backend/initDb.js:80 | one successful INSERT appends exactly one row holding the given values |
| Db.BuildRowAt | gradevo-agency-V1/backend/initDb.js:65 | a named value is stored in its column |
| Db.ExecAllConcat | gradevo-agency-V1/backend/updateDb.js:5-44 | sending a then b is sending a, then sending b |
| Db.IssuedCount | gradevo-agency-V1/backend/migrateCategories.js:5-9 | a run with no failure sends one query per statement |
| Db.AddColumnsGrows | gradevo-agency-V1/backend/updateSchema.js:27-31 | ADD COLUMN IF NOT EXISTS only adds: old columns stay first and unchanged, rows keep their values |
| Db.AddExistingColumns | gradevo-agency-V1/backend/updateDb_featured.js:7 | adding columns that all exist changes nothing |
| Db.AddColumnsIdempotent | gradevo-agency-V1/backend/updateSchema.js:35-39 | running the same ADD COLUMN IF NOT EXISTS twice equals running it once |
| Db.AddedColumnFilled | gradevo-agency-V1/backend/update_schema.js:19 | a new column reaches every existing row with its default value |
| Db.ColumnNamesPrefix | gradevo-agency-V1/backend/updateSchema.js:27-31 | the column names of a prefix of the columns are among all the names |
| Db.ColumnNamesMembers | gradevo-agency-V1/backend/updateDb_contact.js:6-15 | a name is a column name exactly when some column carries it |
| Db.Pool.constructor | gradevo-agency-V1/backend/updateDb.js:5 | a fresh pool is open, has sent nothing, and holds the given store |
| Db.Pool.Execute | gradevo-agency-V1/backend/updateDb.js:6-12 | `await pool.query(stmt)` does what `Exec` says; `ok` is false exactly when the promise rejects |
| Db.Pool.ExecuteBatch | gradevo-agency-V1/backend/initDb.js:16 | sending a whole file behaves as `ExecBatch` |
| Db.Pool.Count | gradevo-agency-V1/backend/initDb.js:29-30 | a count query answers the table's row count, or Err when it is refused; the store does not change |
| Db.Pool.End | gradevo-agency-V1/backend/migrateCategories.js:14 | `pool.end()` closes the pool and changes nothing else |
| MigrateCategories.Canonical | gradevo-agency-V1/backend/migrateCategories.js:5-9 | 'Brand' and 'Graphic Design' become 'Brand Solutions'; the three tech labels become 'Tech Solutions'; other values stay; no legacy label is left |
| MigrateCategories.MigrateRows | gradevo-agency-V1/backend/migrateCategories.js:5-9 | row by row, only the category changes, legacy labels become their new label, and no legacy label is left |
| MigrateCategories.MigrateCategories | gradevo-agency-V1/backend/migrateCategories.js:4-15 | the script's five UPDATEs stop at the first failure; the error is reported; the pool is always closed |
| MigrateCategories.Unroll | gradevo-agency-V1/backend/migrateCategories.js:5-9 | the statement list is the five renames in source order |
| MigrateCategories.RenameStep | gradevo-agency-V1/backend/migrateCategories.js:5 | a rename that is not refused rewrites only the portfolio rows whose category matches |
| MigrateCategories.RowComposition | gradevo-agency-V1/backend/migrateCategories.js:5-9 | the five renames applied in order give each row its canonical category |
| MigrateCategories.MigrationEffect | gradevo-agency-V1/backend/migrateCategories.js:5-9 | an uninterrupted run replaces each portfolio row's category by its canonical one and leaves every other table alone |
| MigrateCategories.MigrationIdempotent | gradevo-agency-V1/backend/migrateCategories.js:5-9 | running the migration twice gives the same store as running it once |
| MigrateCategories.MigrationStops | gradevo-agency-V1/backend/migrateCategories.js:11-14 | when statement k fails, the first k renames stay applied and the rest are never sent |
| InitDb.InitDb | gradevo-agency-V1/backend/initDb.js:10-91 | the script is the schema file, then the admin step, then the four seed steps; it exits 1 at the first failure and 0 otherwise |
| InitDb.SeedAdminStep | gradevo-agency-V1/backend/initDb.js:20-25 | the admin user is inserted, with the given hash, only when no user named 'admin' exists |
| InitDb.SeedTable | gradevo-agency-V1/backend/initDb.js:29-41 | a content table is seeded only when its count is 0 |
| InitDb.SeedSkipsNonEmpty | gradevo-agency-V1/backend/initDb.js:44-45 | a non-empty table, or one whose count fails, is left untouched |
| InitDb.SeedFillsEmpty | gradevo-agency-V1/backend/initDb.js:58-68 | an empty table whose seeding completes holds exactly the listed rows, in order |
| InitDb.AdminSeeded | gradevo-agency-V1/backend/initDb.js:20-25 | the admin row appears only when no 'admin' user existed, and it carries the hash |
| InitDb.SeedTwice | gradevo-agency-V1/backend/initDb.js:71-83 | seeding a table again after a completed seeding changes nothing |
| InitDb.SeedFrame | gradevo-agency-V1/backend/initDb.js:44-55 | a completed seed step changes no other table |
| InitDb.SeededSkipsAll | gradevo-agency-V1/backend/initDb.js:19-83 | on a seeded store every step finds its data and inserts nothing |
| InitDb.AdminStepSeeds | gradevo-agency-V1/backend/initDb.js:20-25 | a completed admin step leaves an 'admin' user in place |
| InitDb.SeedKeeps | gradevo-agency-V1/backend/initDb.js:29-41 | a completed content step leaves its table non-empty and keeps what the other steps established |
| InitDb.SeedAllSeeds | gradevo-agency-V1/backend/initDb.js:19-83 | a completed seeding leaves an admin user and four non-empty content tables |
| InitDb.SeedAllTwice | gradevo-agency-V1/backend/initDb.js:19-83 | the seeding is idempotent: twice gives the same store as once |
| InitDb.InitStopsAtSchema | gradevo-agency-V1/backend/initDb.js:12-17 | an unreadable or failing schema file ends the script with status 1 before any seeding |
| UpdateDna.CreateDnaTable | gradevo-agency-V1/backend/updateDb.js:4-52 | create-if-absent, then the four inserts, stopping at the first failure; the error is reported; the pool is always closed |
| UpdateDna.CreateThenInsert | gradevo-agency-V1/backend/updateDb.js:5-44 | the create followed by inserts that succeed keeps the old rows and appends the new ones |
| UpdateDna.CreateStep | gradevo-agency-V1/backend/updateDb.js:6-12 | the guarded create keeps an existing table and otherwise adds an empty one |
| UpdateDna.AppendedFrom | gradevo-agency-V1/backend/updateDb.js:39-44 | the rows appended by the inserts are the given cards, in order |
| UpdateDna.ExecAllFailedStays | gradevo-agency-V1/backend/updateDb.js:47-51 | after a failure the later inserts change nothing |
| UpdateDna.RunAppendsCards | gradevo-agency-V1/backend/updateDb.js:16-44 | a completed run keeps every existing dna row and appends the four cards in order |
| UpdateDna.TwoRunsAppendEight | gradevo-agency-V1/backend/updateDb.js:39-44 | the script is not idempotent: two completed runs append eight rows, the cards twice |
| UpdateDna.TwoAppends | gradevo-agency-V1/backend/updateDb.js:39-44 | two appends of the same cards give the cards twice, after the old rows |
| UpdateDna.FailedInsertKeepsEarlier | gradevo-agency-V1/backend/updateDb.js:39-51 | when card k's insert fails, the cards before it stay inserted and no later one is sent |
| UpdateSchemaColumns.UpdateSchema | gradevo-agency-V1/backend/updateSchema.js:26-47 | the two ALTERs are sent in order and stop at the first failure; the error is reported; the pool is always closed |
| UpdateSchemaColumns.RunEffect | gradevo-agency-V1/backend/updateSchema.js:27-39 | after a completed run both tables exist and carry their new columns |
| UpdateSchemaColumns.ColumnsAdded | gradevo-agency-V1/backend/updateSchema.js:27-39 | each table gains its two columns, keeps its old columns first and unchanged, and keeps every row |
| UpdateSchemaColumns.RerunIsNoop | gradevo-agency-V1/backend/updateSchema.js:27-39 | a second completed run changes nothing |
| UpdateSchemaColumns.PortfolioFailureSkipsRest | gradevo-agency-V1/backend/updateSchema.js:27-31 | a failing portfolio step leaves the store as it was, and the testimonials step is not sent |
| UpdateFeatured.AddIsFeaturedColumn | gradevo-agency-V1/backend/updateDb_featured.js:5-14 | one ALTER; the error is reported; the pool is always closed |
| UpdateFeatured.FeaturedAdded | gradevo-agency-V1/backend/updateDb_featured.js:7 | after a completed run the portfolio has `is_featured`, and when the column is new every existing project reads false |
| UpdateFeatured.RerunIsNoop | gradevo-agency-V1/backend/updateDb_featured.js:7 | re-running leaves the store unchanged |
| UpdateFeatured.InsertDefaultsToNotFeatured | gradevo-agency-V1/backend/updateDb_featured.js:7 | a later INSERT that does not name the flag stores false |
| UpdateContact.CreateContactTable | gradevo-agency-V1/backend/updateDb_contact.js:5-22 | one CREATE TABLE IF NOT EXISTS; the error is reported; the pool is always closed |
| UpdateContact.CreateEffect | gradevo-agency-V1/backend/updateDb_contact.js:6-15 | an absent table is created empty with exactly these columns; an existing one is kept as it is; no other table changes |
| UpdateContact.ContactNames | gradevo-agency-V1/backend/updateDb_contact.js:8-14 | the table's column names are id, name, email, phone, website, services, message and created_at |
| UpdateContact.ContactDistinct | gradevo-agency-V1/backend/updateDb_contact.js:8-14 | no two columns share a name |
| UpdateContact.SubmissionAccepted | gradevo-agency-V1/backend/updateDb_contact.js:8-14 | in the new table a submission is stored exactly when it names known columns, has a non-NULL name and email, and does not force a NULL id |
| UpdateContact.SubmissionValues | gradevo-agency-V1/backend/updateDb_contact.js:8-14 | each column of a new submission holds the given value or its default |
| UpdateStatus.UpdateSchema | gradevo-agency-V1/backend/update_schema.js:9-31 | the schema file, then the status column; a failing status step is only logged; the pool is always closed |
| UpdateStatus.SchemaFailureSkipsStatus | gradevo-agency-V1/backend/update_schema.js:26-30 | when the schema step fails, the status step is not sent and the store is as before |
| UpdateStatus.StatusFailureSwallowed | gradevo-agency-V1/backend/update_schema.js:18-23 | a failing status step still ends in the success message, and the store keeps the schema's effect |
| UpdateStatus.StatusAdded | gradevo-agency-V1/backend/update_schema.js:19 | a new `status` column gives every existing submission the status 'new' |
| UpdateStatus.RerunKeepsStatus | gradevo-agency-V1/backend/update_schema.js:19 | sending the status step again leaves the store unchanged |
| Js.Or | gradevo-agency-V1/frontend/pages/About.tsx:37-64 | `s \|\| d` gives s when it is present and non-empty, and d otherwise |
| SiteContent.FirstIndex | gradevo-agency-V1/frontend/pages/Terms.tsx:12 | the position of the first entry with the key, or None when no entry has it |
| SiteContent.KeysConcat | gradevo-agency-V1/frontend/components/Footer.tsx:30-34 | the keys of a concatenation are the union of the keys |
| SiteContent.Assign | gradevo-agency-V1/frontend/pages/admin/ContactManager.tsx:108-110 | `obj[k] = v` grows the object by at most one entry |
| SiteContent.AssignLookup | gradevo-agency-V1/frontend/pages/admin/StoryManager.tsx:161 | after `obj[k] = v`, k reads v and every other key reads what it read before |
| SiteContent.AssignKeys | gradevo-agency-V1/frontend/pages/admin/ContactManager.tsx:108-110 | the key set gains k, and it stays free of duplicates |
| SiteContent.LastIndex | gradevo-agency-V1/frontend/pages/About.tsx:16-19 | the position of the last entry with the key, or None when no entry has it |
| SiteContent.LastWins | gradevo-agency-V1/frontend/pages/About.tsx:16-19 | the object that `forEach` builds holds each fetched key's LAST value, and keeps the other keys |
| SiteContent.AssignAllKeys | gradevo-agency-V1/frontend/components/Footer.tsx:30-34 | the built object's keys are the old keys plus the fetched ones, without duplicates |
| SiteContent.BuildContentMap | gradevo-agency-V1/frontend/pages/admin/LegalManager.tsx:18-21 | the `forEach` loop builds the object `AssignAll([], data)`, whose keys are unique |
| SiteContent.FindAgreesWithForEach | gradevo-agency-V1/frontend/components/Navbar.tsx:30 | with no repeated key, `find` (first entry) and the `forEach` fold (last entry) read the same value |
| SiteContent.FindDiffersFromForEach | gradevo-agency-V1/frontend/pages/admin/LogoManager.tsx:19 | with a repeated key, `find` sees the first value and the fold sees the second |
| SiteContent.MergeOverDefaults | gradevo-agency-V1/frontend/components/Footer.tsx:35-37 | `{...prev, ...info}`: fetched keys take their last fetched value, other keys keep theirs, and the keys are the union |
| SiteContent.FirstIndexOfUnique | gradevo-agency-V1/frontend/components/Footer.tsx:30-34 | in an object without repeated keys, each entry is what `find` returns for its key |
| SiteContent.ResolveImage | gradevo-agency-V1/frontend/pages/Home.tsx:125 | absolute 'http' URLs are kept; server paths are prefixed with the API origin |
| SiteContent.ResolveImageIdempotent | gradevo-agency-V1/frontend/pages/Portfolio.tsx:53 | a resolved image starts with 'http', so resolving it again changes nothing |
| Chunks.ManualChunks | gradevo-agency-V1/frontend/vite.config.ts:27-42 | exactly the ids outside node_modules are left to the default placement |
| Chunks.ReactThreeIsThree | gradevo-agency-V1/frontend/vite.config.ts:29-35 | every '@react-three' id is also a 'three' id, which is why its test comes first |
| Chunks.ChunkOf | gradevo-agency-V1/frontend/vite.config.ts:29-39 | three-vendor ⇔ 'three' without '@react-three'; animation-vendor ⇔ gsap or framer-motion without 'three'; vendor for the rest |
| SectionHeader.PiecesShape | gradevo-agency-V1/frontend/components/ui/SectionHeader.tsx:40-45 | the pieces alternate part, '#', part, …; there is one '#' fewer than parts; the text shown is the parts joined by '#' |
| SectionHeader.HeadingShowsTitle | gradevo-agency-V1/frontend/components/ui/SectionHeader.tsx:40-45 | the heading shows the title exactly, with one highlighted '#' per '#' in it, and no plain piece contains '#' |
| SectionHeader.PlainTitle | gradevo-agency-V1/frontend/components/ui/SectionHeader.tsx:40 | a title without '#' is one plain piece |
| SectionHeader.Render | gradevo-agency-V1/frontend/components/ui/SectionHeader.tsx:38-51 | the subtitle paragraph appears ⇔ the subtitle is non-empty; the alignment is centred ⇔ `centered` |
| WhatDefinesUs.FragmentsShape | gradevo-agency-V1/frontend/components/WhatDefinesUs.tsx:137-142 | a space follows each segment; every segment after the first is highlighted; without the spaces the text is the parts joined by '#' |
| WhatDefinesUs.CardTitle | gradevo-agency-V1/frontend/components/WhatDefinesUs.tsx:137-142 | a card title shows its text (spaces aside), with one highlighted segment per '#' |
| WhatDefinesUs.CardLabelForm | gradevo-agency-V1/frontend/components/WhatDefinesUs.tsx:128 | cards 1 to 9 read '01' to '09'; from 10 on the number is not padded |
| WhatDefinesUs.CardLabelsDistinct | gradevo-agency-V1/frontend/components/WhatDefinesUs.tsx:128 | no two cards share a label |
| WhatDefinesUs.SmallLabelsDistinct | gradevo-agency-V1/frontend/components/WhatDefinesUs.tsx:128 | the padded labels of cards 1 to 9 are all different |
| WhatDefinesUs.MixedLabelsDistinct | gradevo-agency-V1/frontend/components/WhatDefinesUs.tsx:128 | a padded label never equals an unpadded one |
| WhatDefinesUs.LabelDecodes | gradevo-agency-V1/frontend/components/WhatDefinesUs.tsx:128 | the label is the decimal card number, with a '0' in front below 10 |
| WhatDefinesUs.Cards | gradevo-agency-V1/frontend/components/WhatDefinesUs.tsx:109-142 | one card per item, in order, with its label and its resolved image |
| PortfolioPage.VisibleItems | gradevo-agency-V1/frontend/pages/Portfolio.tsx:20-22 | 'All' shows the list as it is; another category shows exactly its own items, in fetched order |
| PortfolioPage.TechTagsMeaning | gradevo-agency-V1/frontend/pages/Portfolio.tsx:65-73 | a set tech stack gives one trimmed tag per comma-separated entry, and none contains a comma; otherwise the three default tags |
| PortfolioPage.TrimKeepsOut | gradevo-agency-V1/frontend/pages/Portfolio.tsx:67 | trimming adds no character |
| PortfolioPage.ActionOf | gradevo-agency-V1/frontend/pages/Portfolio.tsx:75-83 | 'View Project' links to the project URL exactly when one is set |
| PortfolioPage.Rows | gradevo-agency-V1/frontend/pages/Portfolio.tsx:46-53 | one row per visible project, in order; odd rows are mirrored; each image is resolved |
| Home.AfterFetch | gradevo-agency-V1/frontend/pages/Home.tsx:27-30 | the total counts every featured project; at most six are kept, all featured; a failed fetch keeps no work and 0 |
| Home.DisplayedWork | gradevo-agency-V1/frontend/pages/Home.tsx:27-30 | the cards shown are the first featured projects, in fetched order |
| Home.Render | gradevo-agency-V1/frontend/pages/Home.tsx:105-116 | 'View All Projects' ⇔ more than six are featured; large cards ⇔ at most three |
| Home.ViewAllExactlyWhenCut | gradevo-agency-V1/frontend/pages/Home.tsx:112-116 | 'View All Projects' is offered exactly when some featured project is not on the page |
| ServiceList.Render | gradevo-agency-V1/frontend/components/ServiceList.tsx:23-26 | nothing ⇔ no services; the grid ⇔ more than four |
| ServiceList.ShownServices | gradevo-agency-V1/frontend/components/ServiceList.tsx:26-65 | the grid shows the first six and offers the full list exactly when one is cut; the list shows all |
| ServiceList.NumbersAreTwoDigits | gradevo-agency-V1/frontend/components/ServiceList.tsx:40 | every number shown in the grid is '0' followed by one digit |
| Testimonials.CharAt0 | gradevo-agency-V1/frontend/components/Testimonials.tsx:67 | `charAt(0)` is the first character, or '' for an empty name |
| Testimonials.CardOf | gradevo-agency-V1/frontend/components/Testimonials.tsx:59-74 | a photo ⇔ an image URL is set, else the initial; a LinkedIn link ⇔ one is set |
| Testimonials.Render | gradevo-agency-V1/frontend/components/Testimonials.tsx:51-55 | large cards ⇔ at most three; 'View All' ⇔ more than six; at most six cards |
| Testimonials.CardsInOrder | gradevo-agency-V1/frontend/components/Testimonials.tsx:52 | the cards are those of the first testimonials, in order; 'View All' ⇔ a story is left out |
| ServicesPage.IconOf | gradevo-agency-V1/frontend/pages/Services.tsx:20 | an own key of the icon object names its icon; no other name does |
| ServicesPage.GetIconAsWritten | gradevo-agency-V1/frontend/pages/Services.tsx:19-22 | `icons[name] \|\| Sparkles` as written: a missing name gives Sparkles, and a name inherited from Object.prototype gives that member |
| ServicesPage.PrototypeNameIsNoIcon | gradevo-agency-V1/frontend/pages/Services.tsx:21 | a service whose icon reads 'constructor' or 'toString' gets no lucide icon |
| ServicesPage.GetIcon | gradevo-agency-V1/frontend/pages/Services.tsx:19-22 | the named icon when there is one, Sparkles for every other name |
| ServicesPage.GetIconAgrees | gradevo-agency-V1/frontend/pages/Services.tsx:19-22 | the corrected lookup agrees with the page wherever the page yields an icon, and every icon is found by its name |
| ServicesPage.SeededIconsFallBack | gradevo-agency-V1/frontend/pages/Services.tsx:31 | the icon names the seed stores ('code', 'layout', 'pen-tool', 'star') all fall back to Sparkles |
| ServicesPage.Number | gradevo-agency-V1/frontend/pages/Services.tsx:36 | `0{id}` is '0' followed by the id's digits |
| ServicesPage.NumberForm | gradevo-agency-V1/frontend/pages/Services.tsx:36 | distinct ids give distinct numbers; the number has two characters ⇔ the id is below 10 |
| ServicesPage.Cards | gradevo-agency-V1/frontend/pages/Services.tsx:30-36 | one card per fetched service, in order, with its number and title and the corrected icon; none before a fetch or after it fails |
| ServicesPage.CardsMatchPage | gradevo-agency-V1/frontend/pages/Services.tsx:19-36 | each card's icon is what the page as written renders exactly when the service's icon name is not an inherited `Object.prototype` member |
| Terms.AfterFetch | gradevo-agency-V1/frontend/pages/Terms.tsx:8-16 | a failed fetch keeps the text; otherwise the first 'terms_content' value, or the not-found text when there is none |
| Terms.FirstEntryShown | gradevo-agency-V1/frontend/pages/Terms.tsx:12-13 | with two entries the first is shown; an empty value is shown as it is |
| Terms.NotFoundExactlyWhenMissing | gradevo-agency-V1/frontend/pages/Terms.tsx:13-15 | the not-found text appears exactly when no entry carries the key; otherwise the text is a fetched value |
| About.ReadsStoryKeys | gradevo-agency-V1/frontend/pages/About.tsx:37-64 | the page reads exactly the text keys the story editor saves, in the same order |
| About.ShownTexts | gradevo-agency-V1/frontend/pages/About.tsx:37-64 | each text block shows its key's value when that is non-empty, and its fallback otherwise |
| About.StoryImage | gradevo-agency-V1/frontend/pages/About.tsx:46 | the resolved story image when one is set, else the stock photo |
| About.ShowsFetchedText | gradevo-agency-V1/frontend/pages/About.tsx:16-19 | a block shows the LAST fetched value of its key when that is non-empty, and its fallback otherwise |
| About.FailedFetchShowsFallbacks | gradevo-agency-V1/frontend/pages/About.tsx:21-23 | a failed fetch shows every fallback and the stock photo |
| About.Page.constructor | gradevo-agency-V1/frontend/pages/About.tsx:9 | the page starts from the empty object |
| About.Page.FetchContent | gradevo-agency-V1/frontend/pages/About.tsx:14-23 | a fetched list replaces the content with its fold; a failure keeps the content |
| Footer.FooterDetail | gradevo-agency-V1/frontend/components/Footer.tsx:25-38 | each detail reads its last fetched value, or else its default; no default key is lost |
| Footer.FailedFetchKeepsDefaults | gradevo-agency-V1/frontend/components/Footer.tsx:15-23 | a failed fetch shows the default email, phone and address, no social button, and the wordmark |
| Footer.Socials | gradevo-agency-V1/frontend/components/Footer.tsx:120-134 | at most three buttons, each for a network whose link is set, linking to that link |
| Footer.SocialsComplete | gradevo-agency-V1/frontend/components/Footer.tsx:120-134 | every network with a link set gets its button, in the order Instagram, WhatsApp, LinkedIn |
| Footer.Button | gradevo-agency-V1/frontend/components/Footer.tsx:121 | one button ⇔ the network's link is set |
| Footer.FooterLogo | gradevo-agency-V1/frontend/components/Footer.tsx:98-112 | the resolved logo image ⇔ 'logo_url' is set, else the wordmark |
| Footer.Footer.constructor | gradevo-agency-V1/frontend/components/Footer.tsx:15-23 | the footer starts from the defaults |
| Footer.Footer.FetchContactInfo | gradevo-agency-V1/frontend/components/Footer.tsx:25-38 | a fetched list is spread over the current details; a failure keeps them |
| Navbar.WordAfter | gradevo-agency-V1/frontend/components/Navbar.tsx:43 | the tagline is always one of the three words |
| Navbar.TaglineCycle | gradevo-agency-V1/frontend/components/Navbar.tsx:51-53 | the tagline repeats every three ticks and never shows the same word twice in a row |
| Navbar.ActiveLinks | gradevo-agency-V1/frontend/components/Navbar.tsx:146 | the highlighted links are those whose path is the location; there is at most one |
| Navbar.ActiveLinkUnique | gradevo-agency-V1/frontend/constants.ts:10-16 | exactly one link is highlighted ⇔ some link has the location's path |
| Navbar.Bar.constructor | gradevo-agency-V1/frontend/components/Navbar.tsx:10-23 | the bar starts closed and unscrolled, with no logo and '.Design' shown |
| Navbar.Bar.OnScroll | gradevo-agency-V1/frontend/components/Navbar.tsx:15-18 | scrolled ⇔ scrollY > 50; nothing else changes |
| Navbar.Bar.FetchLogo | gradevo-agency-V1/frontend/components/Navbar.tsx:25-39 | the first 'logo_url' entry sets the logo, even when its value is empty; otherwise the logo stays |
| Navbar.Bar.Tick | gradevo-agency-V1/frontend/components/Navbar.tsx:51-77 | the index moves to the next word, wrapping after the third; the tagline changes |
| Navbar.Bar.Toggle | gradevo-agency-V1/frontend/components/Navbar.tsx:88-94 | the menu flips, and background scrolling is locked exactly while it is open |
| Navbar.Bar.Close | gradevo-agency-V1/frontend/components/Navbar.tsx:83-85 | the menu closes and the page scrolls again |
| Navbar.Bar.Brand | gradevo-agency-V1/frontend/components/Navbar.tsx:105-116 | the resolved logo image ⇔ a logo URL is set, else the wordmark |
| Navbar.HashtagRule | gradevo-agency-V1/frontend/components/Navbar.tsx:123 | with the wordmark the '#' always shows; with an image it shows exactly once the page is scrolled |
| AppRoutes.AdminRoutes | gradevo-agency-V1/frontend/App.tsx:70-84 | one protected route per admin section, at '/admin/<section>' |
| AppRoutes.Routes | gradevo-agency-V1/frontend/App.tsx:61-84 | the table has seventeen routes |
| AppRoutes.Match | gradevo-agency-V1/frontend/App.tsx:61-85 | the matched route is a route with that path; no match ⇔ no route has it |
| AppRoutes.Resolve | gradevo-agency-V1/frontend/App.tsx:61-85 | the page of the route with that path, or NotFound when there is none |
| AppRoutes.RouteFingerprint | gradevo-agency-V1/frontend/App.tsx:61-84 | each route's path has its own length-and-last-character fingerprint |
| AppRoutes.PathsDistinct | gradevo-agency-V1/frontend/App.tsx:61-84 | no two routes share a path |
| AppRoutes.EachPathShowsItsPage | gradevo-agency-V1/frontend/App.tsx:61-84 | every route's own path shows that route's page |
| AppRoutes.PrefixStarts | gradevo-agency-V1/frontend/App.tsx:46 | a path built on a prefix starts with it |
| AppRoutes.NotAdminPath | gradevo-agency-V1/frontend/App.tsx:46 | a path that differs from '/admin' early on is drawn with the navbar and footer |
| AppRoutes.RouteKinds | gradevo-agency-V1/frontend/App.tsx:61-84 | protected ⇔ an '/admin/' path other than the login page; chrome ⇔ a public page |
| AppRoutes.AdministratorHasNoChrome | gradevo-agency-V1/frontend/App.tsx:46 | the prefix test is on characters: '/administrator' has no chrome and shows NotFound |
| CustomCursor.Closest | gradevo-agency-V1/frontend/components/ui/CustomCursor.tsx:52 | `closest` finds the first matching element, the target included, or none |
| CustomCursor.InteractiveMeaning | gradevo-agency-V1/frontend/components/ui/CustomCursor.tsx:58-67 | hover ⇔ the target or an ancestor is a link or a button, or the target has 'cursor-hover' |
| CustomCursor.Cursor.constructor | gradevo-agency-V1/frontend/components/ui/CustomCursor.tsx:11-14 | the cursor starts in the default, unpressed state |
| CustomCursor.Cursor.MouseOver | gradevo-agency-V1/frontend/components/ui/CustomCursor.tsx:48-69 | a data-cursor element gives view-more with its text, or 'View'; otherwise hover follows the interactive test and the text is kept |
| CustomCursor.Cursor.MouseDown | gradevo-agency-V1/frontend/components/ui/CustomCursor.tsx:45 | pressed; nothing else changes |
| CustomCursor.Cursor.MouseUp | gradevo-agency-V1/frontend/components/ui/CustomCursor.tsx:46 | released; nothing else changes |
| CustomCursor.Cursor.FollowerLook | gradevo-agency-V1/frontend/components/ui/CustomCursor.tsx:92-137 | view-more before hover before the default ring, each stated both ways |
| CustomCursor.LookOfValidCursor | gradevo-agency-V1/frontend/components/ui/CustomCursor.tsx:92-137 | the follower is 100, 50 or 20 pixels wide for view-more, hover and default |
| Admin.FormValue | gradevo-agency-V1/frontend/pages/admin/PortfolioManager.tsx:65-76 | `formData.get` finds a value ⇔ a field has that name, and the value is one appended under it |
| Admin.FormValueAt | gradevo-agency-V1/frontend/pages/admin/PortfolioManager.tsx:65-76 | a field is read back unless an earlier field has the same name |
| Admin.FormValueConcat | gradevo-agency-V1/frontend/pages/admin/PortfolioManager.tsx:65-76 | in a form of two parts the first part's field wins |
| Admin.ImageField | gradevo-agency-V1/frontend/pages/admin/PortfolioManager.tsx:72-76 | the chosen file in preference to the current image URL, or no image field |
| Admin.KeyValue | gradevo-agency-V1/frontend/pages/admin/LegalManager.tsx:34-44 | the body is exactly `{ key, value }` |
| Admin.SaveTarget | gradevo-agency-V1/frontend/pages/admin/PortfolioManager.tsx:78-82 | PUT to the item URL ⇔ the item has a non-zero id; otherwise POST to the collection |
| Admin.ItemUrlsDistinct | gradevo-agency-V1/frontend/pages/admin/ServiceManager.tsx:57 | item URLs extend the collection URL, and different ids give different URLs |
| Admin.Classify | gradevo-agency-V1/frontend/pages/admin/PortfolioManager.tsx:92-100 | done ⇔ ok; session expired ⇔ 401 or 403; failed otherwise |
| Admin.Effects | gradevo-agency-V1/frontend/pages/admin/PortfolioManager.tsx:92-105 | success refetches the list; a 401/403 alerts and goes to the login page; another failure alerts; a rejection does nothing |
| Admin.DeleteFlow | gradevo-agency-V1/frontend/pages/admin/DnaManager.tsx:27-45 | nothing without confirmation; otherwise one DELETE of the item URL, answered as for saves |
| Admin.DeleteRefetchesOnSuccess | gradevo-agency-V1/frontend/pages/admin/ServiceManager.tsx:26-43 | a confirmed delete refetches the list exactly when the server accepts it |
| PortfolioManager.EditorCategories | gradevo-agency-V1/frontend/pages/admin/PortfolioManager.tsx:190 | the editor offers the page's categories without 'All' |
| PortfolioManager.TextFields | gradevo-agency-V1/frontend/pages/admin/PortfolioManager.tsx:65-70 | every save carries six text fields |
| PortfolioManager.SaveFormText | gradevo-agency-V1/frontend/pages/admin/PortfolioManager.tsx:65-70 | the server reads each text field with its default ('' or 'Brand Solutions'), and the flag as 'true'/'false' |
| PortfolioManager.TextFieldRead | gradevo-agency-V1/frontend/pages/admin/PortfolioManager.tsx:65-70 | every text field is read back as sent |
| PortfolioManager.SaveFormImage | gradevo-agency-V1/frontend/pages/admin/PortfolioManager.tsx:72-76 | the image the server reads is the chosen file before the existing URL, or none |
| PortfolioManager.Editor.constructor | gradevo-agency-V1/frontend/pages/admin/PortfolioManager.tsx:18-23 | no projects, 'All' selected, the editor closed |
| PortfolioManager.Editor.Refilter | gradevo-agency-V1/frontend/pages/admin/PortfolioManager.tsx:29-35 | the shown list is the public page's filter of the projects |
| PortfolioManager.Editor.SelectCategory | gradevo-agency-V1/frontend/pages/admin/PortfolioManager.tsx:117 | the category is selected and the list refiltered |
| PortfolioManager.Editor.Loaded | gradevo-agency-V1/frontend/pages/admin/PortfolioManager.tsx:29-35 | the fetched projects replace the list, refiltered |
| PortfolioManager.Editor.StartNew | gradevo-agency-V1/frontend/pages/admin/PortfolioManager.tsx:126 | the editor opens on a new 'Brand Solutions' project with no file |
| PortfolioManager.Editor.StartEdit | gradevo-agency-V1/frontend/pages/admin/PortfolioManager.tsx:157 | the editor opens on the project's fields with no file |
| PortfolioManager.Editor.Save | gradevo-agency-V1/frontend/pages/admin/PortfolioManager.tsx:63-106 | one POST/PUT with the form; success closes and clears the editor; otherwise it stays open |
| DnaManager.TextFields | gradevo-agency-V1/frontend/pages/admin/DnaManager.tsx:49-56 | every save carries the title and the description |
| DnaManager.SaveFormFields | gradevo-agency-V1/frontend/pages/admin/DnaManager.tsx:49-62 | the server reads the title and description ('' when missing), and the chosen file before the existing image |
| DnaManager.Editor.constructor | gradevo-agency-V1/frontend/pages/admin/DnaManager.tsx:12-15 | the editor starts closed |
| DnaManager.Editor.StartNew | gradevo-agency-V1/frontend/pages/admin/DnaManager.tsx:93 | 'Add Item' opens an empty item with no file |
| DnaManager.Editor.Save | gradevo-agency-V1/frontend/pages/admin/DnaManager.tsx:47-86 | one POST/PUT with the form; success closes and clears the editor; otherwise it stays open |
| ServiceManager.ToJson | gradevo-agency-V1/frontend/pages/admin/ServiceManager.tsx:46-49 | `JSON.stringify` holds at most the four fields, missing ones left out |
| ServiceManager.ReadOptional | gradevo-agency-V1/frontend/pages/admin/ServiceManager.tsx:46-49 | an omitted member leaves the decoded service as it was |
| ServiceManager.JsonRoundTrip | gradevo-agency-V1/frontend/pages/admin/ServiceManager.tsx:46-49 | reading the body back gives the service being edited |
| ServiceManager.Editor.constructor | gradevo-agency-V1/frontend/pages/admin/ServiceManager.tsx:12-14 | the editor starts closed on an empty service |
| ServiceManager.Editor.EditTitle | gradevo-agency-V1/frontend/pages/admin/ServiceManager.tsx:95 | a typed title replaces the title and nothing else |
| ServiceManager.Editor.Save | gradevo-agency-V1/frontend/pages/admin/ServiceManager.tsx:45-73 | one POST/PUT with the JSON body; success closes and clears the editor; otherwise it stays open |
| LogoManager.SaveForm | gradevo-agency-V1/frontend/pages/admin/LogoManager.tsx:44-49 | the key 'logo_url', then the chosen file under 'image' or else the current URL under 'value' |
| LogoManager.BuildForm | gradevo-agency-V1/frontend/pages/admin/LogoManager.tsx:44-49 | the form appended field by field is exactly `SaveForm` of the current URL and file |
| LogoManager.Shown | gradevo-agency-V1/frontend/pages/admin/LogoManager.tsx:101-103 | the local preview first, then the resolved stored logo, else nothing |
| LogoManager.Page.constructor | gradevo-agency-V1/frontend/pages/admin/LogoManager.tsx:5-9 | loading, with no logo, preview or file |
| LogoManager.Page.FetchLogo | gradevo-agency-V1/frontend/pages/admin/LogoManager.tsx:15-28 | the first 'logo_url' entry sets the logo; loading ends whatever the answer |
| LogoManager.Page.ChooseFile | gradevo-agency-V1/frontend/pages/admin/LogoManager.tsx:30-36 | a picked file is kept and previewed; cancelling changes nothing |
| LogoManager.Page.Save | gradevo-agency-V1/frontend/pages/admin/LogoManager.tsx:38-76 | one POST of the form; an ok reply whose body parses stores the returned value, drops the file and preview, alerts and reloads; a rejected fetch, a non-ok status or a body that fails to parse alerts 'Failed to save logo' and changes nothing; saving always ends |
| LogoManager.ExactlyOneSource | gradevo-agency-V1/frontend/pages/admin/LogoManager.tsx:44-49 | a save sends exactly one of the file and the URL, never both |
| StoryManager.TextWrites | gradevo-agency-V1/frontend/pages/admin/StoryManager.tsx:43-54 | one write per saved key |
| StoryManager.ImageWrite | gradevo-agency-V1/frontend/pages/admin/StoryManager.tsx:57-69 | an image upload is sent exactly when a file is chosen |
| StoryManager.WritesTarget | gradevo-agency-V1/frontend/pages/admin/StoryManager.tsx:43-69 | every write is a POST to the site-content endpoint; a chosen image goes last, as a form with the 'story_image' key and the file |
| StoryManager.SavedWrites | gradevo-agency-V1/frontend/pages/admin/StoryManager.tsx:43-69 | a save writes exactly the set text keys, each with its value, in order, then the image |
| StoryManager.TitleInput | gradevo-agency-V1/frontend/pages/admin/StoryManager.tsx:178 | a title input shows the stored title when set, else its fallback |
| StoryManager.DefaultTitleNotSaved | gradevo-agency-V1/frontend/pages/admin/StoryManager.tsx:195 | a title that only shows its fallback is not saved |
| StoryManager.Page.constructor | gradevo-agency-V1/frontend/pages/admin/StoryManager.tsx:5-8 | loading, with no content and no file |
| StoryManager.Page.FetchContent | gradevo-agency-V1/frontend/pages/admin/StoryManager.tsx:14-28 | a fetched list replaces the content with its fold; loading ends |
| StoryManager.Page.Edit | gradevo-agency-V1/frontend/pages/admin/StoryManager.tsx:161 | a typed value changes its key and nothing else |
| StoryManager.Page.Save | gradevo-agency-V1/frontend/pages/admin/StoryManager.tsx:30-80 | the writes are sent in order up to the first rejected fetch; the alert says which; saving always ends |
| StoryManager.SendAll | gradevo-agency-V1/frontend/pages/admin/StoryManager.tsx:43-69 | the loop sends a prefix of the writes, all of them unless a fetch rejects |
| StoryManager.SendTexts | gradevo-agency-V1/frontend/pages/admin/StoryManager.tsx:43-54 | the text loop sends the set keys' writes up to the rejected one |
| StoryManager.SavedPrefix | gradevo-agency-V1/frontend/pages/admin/StoryManager.tsx:43-54 | the writes for a prefix of the keys are a prefix of all the writes |
| LegalManager.KeyOf | gradevo-agency-V1/frontend/pages/admin/LegalManager.tsx:33 | the terms tab edits 'terms_content', the privacy tab 'privacy_content' |
| LegalManager.SaveRequest | gradevo-agency-V1/frontend/pages/admin/LegalManager.tsx:34-44 | one POST of the active tab's key with its text, or '' when it has none |
| LegalManager.SaveAlert | gradevo-agency-V1/frontend/pages/admin/LegalManager.tsx:46-49 | the success alert follows any settled answer, whatever its status; only a rejection alerts failure |
| LegalManager.EditOnlyActiveKey | gradevo-agency-V1/frontend/pages/admin/LegalManager.tsx:98-102 | typing changes only the active tab's key, and a save right after sends what was typed |
| LegalManager.Page.constructor | gradevo-agency-V1/frontend/pages/admin/LegalManager.tsx:5-8 | loading, on the terms tab |
| LegalManager.Page.FetchContent | gradevo-agency-V1/frontend/pages/admin/LegalManager.tsx:14-28 | a fetched list replaces the content with its fold; loading ends |
| LegalManager.Page.SelectTab | gradevo-agency-V1/frontend/pages/admin/LegalManager.tsx:98-102 | the tab changes and the content is kept |
| LegalManager.Page.Edit | gradevo-agency-V1/frontend/pages/admin/LegalManager.tsx:98-102 | typing sets the active tab's key |
| LegalManager.Page.Save | gradevo-agency-V1/frontend/pages/admin/LegalManager.tsx:30-53 | one POST of the active key; one alert; saving always ends |
| ContactManager.SaveRequests | gradevo-agency-V1/frontend/pages/admin/ContactManager.tsx:112-142 | one `{ key, value }` POST per detail, in key order |
| ContactManager.FirstFailure | gradevo-agency-V1/frontend/pages/admin/ContactManager.tsx:112-142 | done ⇔ every response is ok; otherwise the first response that is not ok decides |
| ContactManager.FirstFailureAt | gradevo-agency-V1/frontend/pages/admin/ContactManager.tsx:112-142 | the loop's early exit at i agrees with `FirstFailure` |
| ContactManager.SaveMessage | gradevo-agency-V1/frontend/pages/admin/ContactManager.tsx:112-142 | a rejection or a failure gives the failure message; success the success message; a 401/403 redirects instead |
| ContactManager.ServicesOf | gradevo-agency-V1/frontend/pages/admin/ContactManager.tsx:331-336 | the parsed list, or the raw text as a one-item list when it is not JSON |
| ContactManager.Badge | gradevo-agency-V1/frontend/pages/admin/ContactManager.tsx:354-355 | green exactly for 'replied'; an empty or missing status reads 'New' |
| ContactManager.ReplyBody | gradevo-agency-V1/frontend/pages/admin/ContactManager.tsx:158-191 | the reply carries the submission's id and address with the typed subject and message |
| ContactManager.Page.constructor | gradevo-agency-V1/frontend/pages/admin/ContactManager.tsx:38-56 | the details start empty and the reply dialog closed |
| ContactManager.Page.FetchContactInfo | gradevo-agency-V1/frontend/pages/admin/ContactManager.tsx:64-76 | a fetched list is spread over the details; a failure keeps them |
| ContactManager.Page.HandleChange | gradevo-agency-V1/frontend/pages/admin/ContactManager.tsx:108-110 | a typed value changes its key and nothing else |
| ContactManager.Page.HandleSave | gradevo-agency-V1/frontend/pages/admin/ContactManager.tsx:112-142 | one write per detail; the message follows `SaveMessage`, or the page goes to the login |
| ContactManager.Page.OpenReply | gradevo-agency-V1/frontend/pages/admin/ContactManager.tsx:144-149 | the dialog opens on the submission with the prefilled subject and greeting |
| ContactManager.Page.CloseReply | gradevo-agency-V1/frontend/pages/admin/ContactManager.tsx:151-156 | the dialog closes and its fields clear |
| ContactManager.Page.SendReply | gradevo-agency-V1/frontend/pages/admin/ContactManager.tsx:158-191 | nothing without a selected submission; otherwise one POST of the reply; success closes the dialog |

## Left out

- Animation: the GSAP and framer-motion timelines, including the scroll guard of the DNA cards
  (frontend/components/WhatDefinesUs.tsx:34) and the cursor's tweens. The navbar sets the new
  tagline when the animation finishes. The model sets it at once.
- Navbar.Bar.OnScroll: `scrollY` is an integer, not a floating-point number.
- CustomCursor.Cursor: the follower's pressed scale (0.9) is kept as the percentage 90. The mouse
  coordinates are not modelled.
- CustomCursor.Cursor.MouseOver: the DOM is given as the target followed by its ancestors.
- Network and parsing: every `fetch` is a parameter (its answer, a status or a rejection).
  `JSON.parse` is given as the list it yields, or as a failure. A body that parses to something
  other than a list is not modelled.
- `schema.sql` is not part of this model. Its statements are a parameter of the scripts that
  run it.
- The bcrypt hash is a parameter. Console output is reduced to the outcome the script reports.
- Db: a failed INSERT does not advance the SERIAL counter; PostgreSQL's sequence does advance.
  `CURRENT_TIMESTAMP` is the symbolic value `Now`. Adding a SERIAL column with ADD COLUMN is not
  modelled.
- ServiceManager.ToJson: the member order of the JSON body is fixed as id, title, description,
  icon, whatever order the object was built in.
- AppRoutes.Resolve: paths match exactly. React Router's case-insensitive matching, trailing
  slashes and ranking are not modelled.
- Dashboard, AdminLayout, Login, ProtectedRoute, Privacy, Contact and the testimonial manager are
  not part of this model.
- PortfolioManager.Editor.Save, DnaManager.Editor.Save, ServiceManager.Editor.Save: these
  handlers have no `try`/`catch`, so a rejected fetch is an unhandled rejection and nothing after
  the `await` runs: no effects and no change of state.
- LogoManager.Page.Save: a body that parses but has no `value` member stores `undefined` in the
  source; the model takes the parsed `value` as a string or the parse as failed.
- ServicesPage.Cards: builds each card with the corrected icon lookup `GetIcon`. For an icon name
  inherited from `Object.prototype` the page as written hands that member to React instead (see
  Findings); `ServicesPage.CardsMatchPage` shows the two agree on every other service.
- PortfolioItem.Item, SiteContent.Entry: `image` and `value` are strings, never `null`, so a page
  that crashes calling a string method on a `null` image or content value is not modelled.
- Testimonials.CharAt0: works on Dafny characters, not on UTF-16 code units, so a name that starts
  with a surrogate pair is not modelled.

## Findings

| source | as written | input that shows it | evidently intended | confidence | as-written member | corrected member |
|---|---|---|---|---|---|---|
| gradevo-agency-V1/frontend/pages/Services.tsx:19-22 | `icons[iconName] \|\| Sparkles` also finds members inherited from `Object.prototype` | a service whose icon field is "constructor" or "toString" | only the six imported icons are found; every other name falls back to `Sparkles` | not executed | ServicesPage.GetIconAsWritten (with ServicesPage.PrototypeNameIsNoIcon) | ServicesPage.GetIcon (with ServicesPage.GetIconAgrees) |
