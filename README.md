# SIMPLEDATA portal: persistence engine, login check, dashboard figures and admin view

This project is a Dafny model of the core of the SIMPLEDATA training and project portal, written in TypeScript and React. It models:

- **`DBService`** (services/dbService.ts), the engine behind every page. It holds six collections:
  - users, projects, gems, tools, used ids and training modules;
  - two configurations (company and Cloud SQL).

  After every change it writes a full snapshot to the browser's local storage. On a best-effort basis it mirrors changes to a Cloud SQL proxy.
- **The credential check of the login screen** (components/LoginScreen.tsx).
- **The figures of the dashboard** (components/Dashboard.tsx).
- **The non-visual logic of the database admin view** (components/DatabaseView.tsx): proxy URL cleaning, the connection test, the column list, the CSV field auto-mapping, and the guarded column changes.

## Files

- `json.dfy`:
  - module `Wrappers`, holding `Option`;
  - module `Json`: JSON values and the `Row` type, a map from field name to value. Every stored object is a row.
- `types.dfy`, module `Types`: the entities of types.ts, and their encoding as rows.
- `seeds.dfy`, module `Seeds`: the seed arrays of components/constants.ts. They are used only as initial data.
- `db_model.dfy`, module `DbModel`: the value-level model of the engine.
  - The state, the snapshot and loading.
  - The remote commands and the proxy's answers.
  - Batches of commands: `RunBatch` sends commands in order and stops at the first failure.
  - The list surgery of a save.
  - The migration plan.
  - The column changes.
- `db_service.dfy`, module `DbService`: class `DBService`. It has the engine's fields plus three more:
  - `store`: the local storage;
  - `replies`: the answers the proxy will give, one per request;
  - a ghost `trace` of local commits and remote requests, in order.

  Each method is proved against the functions of `DbModel`.
- `login.dfy`, module `Login`: `handleSubmit` and `handleRootLogin`.
- `dashboard.dfy`, module `Dashboard`: the KPI counts and the first name.
- `database_view.dfy`, module `DatabaseView`: the admin view's handlers, which drive a `DBService`.

## How the remote side and storage are modelled

- **The Cloud SQL proxy** is a script of answers, `replies`. Each request consumes one answer.
  - Rows are a success.
  - An HTTP error becomes `Cloud SQL Error: …`.
  - An exhausted script is a transport failure.
- **`executeSql`** fails with "No Proxy URL configured" before sending anything when the URL is empty. Otherwise it appends `Issued(request)` to `trace`, and the request carries the current configuration.
- **Every `saveLocal`** appends `Committed(state)` to `trace`. Contracts can therefore state the order of events, for example:
  - a save commits locally before its remote command;
  - a failed remote command changes nothing local.
- **Local storage** is a map from the eight storage keys to what was last written under each one.
- **The seed data** is a constructor parameter of `DBService`, kept as the field `seeds`. The application's seed data is `Seeds.InitialSeeds`. This keeps large constant values out of the class's proofs.

## Where the code does something other than what one might expect

The model follows the code in each of these cases:

- **ADD_COLUMN overwrites.** It sets the field to `''` on every row, overwriting any value the field already had (services/dbService.ts:280).
- **`genericSave` never writes the used ids back** (services/dbService.ts:179-183).
  - `registerUsedId` saves and mirrors a new record, but the local `usedIds` list never grows.
  - A second registration of the same id is therefore saved and upserted again.
- **`alterTable` stores back only USERS and PROJECTS** (services/dbService.ts:290-291). For GEMS and TOOLS it still commits locally and, when active, migrates everything, but the rows are unchanged.
- **`alterTable` looks its table name up in a plain object literal** (services/dbService.ts:286-287). Names that the object inherits from `Object.prototype`, such as `constructor` or `toString`, read as truthy. They pass the guard, commit, and migrate, although no table has that name.
- **The `isActive` test differs between methods.**
  - `alterTable` and `saveCompanyConfig` test only `isActive`. With an empty proxy URL, the first remote command fails with "No Proxy URL configured".
  - `genericGet` and `genericSave` test both `isActive` and a non-empty proxy URL.
- **The connection test checks the URL before cleaning it** (components/DatabaseView.tsx:73-75). A URL made only of white space therefore passes the check. It is saved as the empty string, and the test then fails with "No Proxy URL configured" without sending anything.

## Model

| member | source | states |
|---|---|---|
| DbModel.Answer | services/dbService.ts:103-109 | a request succeeds exactly when the proxy's next answer is rows, and then yields those rows |
| DbModel.Loaded | services/dbService.ts:47-68 | a key that is present gives its stored value; an absent one gives the seed for the five seeded collections, nothing for the used ids, and the previous value for each configuration |
| DbModel.Snapshot | services/dbService.ts:70-79 | saveLocal's eight writes as one map; characterised by `SnapshotKeys`, `ReloadAfterSave` and `SnapshotOverwrites` |
| DbModel.Mirrors | services/dbService.ts:156 | the gate of genericGet and genericSave (also line 187): active and a proxy URL set; characterised by `FetchedFallsBack`, `ReadDone` and `SaveDone` |
| DbModel.SnapshotKeys | services/dbService.ts:70-79 | a save writes exactly the eight storage keys, each holding the kind of value loading expects |
| DbModel.RunBatch | services/dbService.ts:128-130 | at most one request per command is sent and at most one answer consumed per request; all commands are sent when the batch passes, and none without a proxy URL |
| DbModel.SchemaCommands | services/dbService.ts:115-126 | seven CREATE TABLE commands, one per table in the fixed order, all with JSONB for Postgres and JSON otherwise |
| DbModel.Fetched | services/dbService.ts:155-166 | the local list, or, only when mirroring and the proxy answers with rows, those rows |
| DbModel.Applied | services/dbService.ts:168-177 | ADD appends the item at the end; UPDATE keeps the length and changes elements only to the item; DELETE leaves no element with the item's id and never lengthens the list |
| DbModel.WrittenBack | services/dbService.ts:179-183 | the named collection becomes the new list and every other table's rows stay; used ids and config are never written back |
| DbModel.SaveCommand | services/dbService.ts:187-196 | DELETE sends a delete by the item's id; ADD and UPDATE send an upsert of the item under its id; both go to the item's table |
| DbModel.Reset | services/dbService.ts:205-212 | the five seeded collections are their seeds; used ids and both configurations are kept |
| DbModel.TableData | services/dbService.ts:266-274 | USERS, PROJECTS, GEMS and TOOLS give their collection; every other name gives no rows |
| DbModel.AlterRow | services/dbService.ts:278-285 | ADD_COLUMN gives the row the field with `''`; DROP_COLUMN removes it; every other field keeps its value |
| DbModel.HasInternalName | services/dbService.ts:286-289 | every mapped name passes the guard; any other name that passes is an inherited property name |
| DbModel.Altered | services/dbService.ts:277-291 | for USERS or PROJECTS that collection becomes its altered rows and nothing else changes; for every other name the state is unchanged |
| DbModel.FirstLaunch | services/dbService.ts:43-68 | with nothing stored, the service starts with the application's seed users, one row per seed user in order, no used ids, the default company config and no mirroring |
| DbModel.BatchAppend | services/dbService.ts:128-130 | sending `a + b` in order is sending `a`, then sending `b` only if `a` passed |
| DbModel.BatchIssuesPrefix | services/dbService.ts:128-130 | an ordered loop of commands sends exactly a prefix of them, in order: all of them when it passes, none without a proxy URL |
| DbModel.BatchPassIff | services/dbService.ts:128-130 | a loop of commands passes iff there is nothing to send, or a URL is set and every command is answered with rows; one answer is consumed per command |
| DbModel.BatchFailsAtFirstBadAnswer | services/dbService.ts:137-143 | a failed loop stops at the first command whose answer is not rows; that command is the last one sent |
| DbModel.FindIndex | services/dbService.ts:173 | `findIndex` by id: the first position holding the id, or -1 exactly when no element holds it |
| DbModel.RemoveId | services/dbService.ts:171 | `filter` by id: no element of the result has the id, and the result is no longer than the list |
| DbModel.RemoveIdMembers | services/dbService.ts:171 | an element is in the result iff it is in the list and has another id |
| DbModel.RemoveIdAppend | services/dbService.ts:171 | delete distributes over concatenation, so the survivors keep their order |
| DbModel.RemoveIdAbsent | services/dbService.ts:170-171 | deleting an id that no element has leaves the list unchanged |
| DbModel.RemoveIdCount | services/dbService.ts:170-171 | delete removes exactly the elements with the id: the length drops by their count, and none remain |
| DbModel.AddAppends | services/dbService.ts:176 | ADD grows the list by one: the old elements come first, in order, then the item |
| DbModel.HasId | services/dbService.ts:241 | registerUsedId's `some` test; characterised by `HasIdIffFound` |
| DbModel.HasIdIffFound | services/dbService.ts:241 | an id is present (`some`) exactly when `findIndex` finds it |
| DbModel.AddCountsOneMore | services/dbService.ts:175-177 | there is no duplicate check: adding an existing id makes one more element with that id |
| DbModel.UpdateReplacesFirst | services/dbService.ts:172-174 | UPDATE keeps the length and replaces only the first element with the id; with no such element the list is unchanged |
| DbModel.FetchedFallsBack | services/dbService.ts:155-166 | a read uses the remote rows only when active, a URL is set and the proxy answers with rows; otherwise it uses the local list |
| DbModel.UpsertCommands | services/dbService.ts:136-144 | the `upsert` helper's commands, one per item; characterised by `UpsertCommandsIn` and `MigrationBlocks` |
| DbModel.ConfigRow | services/dbService.ts:152 | `{id: 'global_config', ...companyConfig}`, also at line 261; characterised by `ConfigRowHolds` |
| DbModel.ConfigRowHolds | services/dbService.ts:152 | the config row has exactly the fields id, title and subtitle, with the fixed id `global_config` and the config's two values |
| DbModel.UpsertCommandsIn | services/dbService.ts:136-144 | the `upsert` helper sends only upserts into its one table |
| DbModel.MigrationCommands | services/dbService.ts:136-152 | the migration sends one command per item of the six collections, plus one for the company config |
| DbModel.MigrationBlocks | services/dbService.ts:136-152 | each collection's block, at its offset, holds exactly one upsert per item, in list order and with the item's id and content: users, projects, gems, tools, used ids, modules; the last command is the company-config row and there is nothing else |
| DbModel.MigrationOrder | services/dbService.ts:146-152 | every command of the migration is an upsert, and the tables come in the fixed order users, projects, gems, tools, used ids, modules, config |
| DbModel.MigrationRun | services/dbService.ts:146-152 | the seven awaited `upsert` calls, each continuing only after the previous passed; characterised by `MigrationRunIsBatch` |
| DbModel.MigrationRunIsBatch | services/dbService.ts:146-152 | the seven awaited upserts together behave as one ordered loop over all the migration commands |
| DbModel.ResetKeeps | services/dbService.ts:205-212 | reset restores the five seeded collections, keeps the used ids and both configurations, and is idempotent |
| DbModel.AlterRows | services/dbService.ts:278-285 | the column change is applied to every row, and the number of rows is kept |
| DbModel.AddColumnSetsEmpty | services/dbService.ts:279-280 | ADD_COLUMN gives every row the field with value `''` (overwriting any value it had) and leaves the other fields as they were |
| DbModel.DropColumnRemoves | services/dbService.ts:281-284 | DROP_COLUMN removes the field from every row and keeps the other fields and their values |
| DbModel.DropThenAdd | services/dbService.ts:278-285 | dropping and then adding a column is the same as adding it |
| DbModel.AddTwice | services/dbService.ts:279-280 | adding a column twice is the same as adding it once |
| DbModel.AlterOnlyUsersAndProjects | services/dbService.ts:289-291 | only USERS and PROJECTS change locally; every other collection and both configurations are untouched |
| DbModel.UnmappedNames | services/dbService.ts:286-289 | any name but the four has no rows and changes nothing locally; of those names, exactly the inherited property names pass the guard |
| DbModel.ConstructorPassesGuard | services/dbService.ts:286-289 | `constructor` passes the guard although it names no table |
| DbModel.ReloadAfterSave | services/dbService.ts:47-79 | loading from a store just written by a save gives back exactly the saved state |
| DbModel.LoadEmpty | services/dbService.ts:47-68 | an empty store loads the seeds, no used ids and the configurations the service already had |
| DbModel.SnapshotOverwrites | services/dbService.ts:70-79 | a later save overwrites every key of an earlier one |
| DbService.DBService.constructor | services/dbService.ts:43-45 | a new service holds what loading the saved store gives, starting from the default configurations |
| DbService.DBService.LoadInitialData | services/dbService.ts:47-68 | each collection comes from its key, or from its seed (none for used ids); each configuration comes from its key, or keeps its value |
| DbService.DBService.SaveLocal | services/dbService.ts:70-79 | every collection and both configurations are written under their keys, and the commit is recorded |
| DbService.DBService.SaveCloudSqlConfig | services/dbService.ts:85-88 | only the Cloud SQL configuration changes, and it is committed locally |
| DbService.DBService.ExecuteSql | services/dbService.ts:90-110 | with no URL it fails and sends nothing; otherwise it sends one request with the current configuration, and the next answer decides the result |
| DbService.DBService.ExecuteInOrder | services/dbService.ts:128-130 | the loop's outcome, the answers left and the requests sent are those of `RunBatch` |
| DbService.DBService.InitializeCloudSchema | services/dbService.ts:112-131 | when not active it does nothing; otherwise it creates the seven tables in order (JSONB for Postgres, else JSON) and stops at the first failure |
| DbService.DBService.UpsertAll | services/dbService.ts:136-144 | one upsert per item, in list order, stopping at the first failure |
| DbService.DBService.UpsertStep | services/dbService.ts:146-152 | one awaited `upsert` continues the migration so far |
| DbService.DBService.MigrateLocalToCloud | services/dbService.ts:133-153 | it fails with "not active" and sends nothing when inactive; otherwise it is the ordered loop over all migration commands, and the first failure is returned |
| DbService.DBService.GenericGet | services/dbService.ts:155-166 | the result is remote rows or the local list as `Fetched` says; a request is sent only when active with a URL set, and a failure changes no state |
| DbService.DBService.ApplyAction | services/dbService.ts:169-177 | the new list is the delete, update or add of the item on a copy of the local list |
| DbService.DBService.WriteBack | services/dbService.ts:179-183 | the new list replaces users, projects, gems, tools or modules; the used ids are never replaced |
| DbService.DBService.GenericSave | services/dbService.ts:168-201 | the collection and snapshot are committed first; then, only when active with a URL set, exactly one remote upsert or delete is sent; its answer changes nothing local |
| DbService.DBService.GetUsers | services/dbService.ts:215 | the users as `Fetched` says (remote rows, or the local list); when active with a URL set, one `SELECT content` for its table is sent and one answer consumed; otherwise nothing is sent (`ReadDone`) |
| DbService.DBService.AddUser | services/dbService.ts:216 | the user's row is appended and the save is carried out as a genericSave |
| DbService.DBService.UpdateUser | services/dbService.ts:217 | the first user with that id is replaced |
| DbService.DBService.DeleteUser | services/dbService.ts:218 | every user with that id is removed, and a remote delete by that id is mirrored |
| DbService.DBService.GetProjects | services/dbService.ts:221 | the projects as `Fetched` says (remote rows, or the local list); when active with a URL set, one `SELECT content` for its table is sent and one answer consumed; otherwise nothing is sent (`ReadDone`) |
| DbService.DBService.AddProject | services/dbService.ts:222 | the project's row is appended |
| DbService.DBService.UpdateProject | services/dbService.ts:223 | the first project with that id is replaced |
| DbService.DBService.DeleteProject | services/dbService.ts:224 | every project with that id is removed |
| DbService.DBService.GetGems | services/dbService.ts:227 | the gems as `Fetched` says (remote rows, or the local list); when active with a URL set, one `SELECT content` for its table is sent and one answer consumed; otherwise nothing is sent (`ReadDone`) |
| DbService.DBService.AddGem | services/dbService.ts:228 | the gem's row is appended |
| DbService.DBService.UpdateGem | services/dbService.ts:229 | the first gem with that id is replaced |
| DbService.DBService.DeleteGem | services/dbService.ts:230 | every gem with that id is removed |
| DbService.DBService.GetTools | services/dbService.ts:233 | the tools as `Fetched` says (remote rows, or the local list); when active with a URL set, one `SELECT content` for its table is sent and one answer consumed; otherwise nothing is sent (`ReadDone`) |
| DbService.DBService.AddTool | services/dbService.ts:234 | the tool's row is appended |
| DbService.DBService.UpdateTool | services/dbService.ts:235 | the first tool with that id is replaced |
| DbService.DBService.DeleteTool | services/dbService.ts:236 | every tool with that id is removed |
| DbService.DBService.GetUsedIds | services/dbService.ts:239 | the used ids as `Fetched` says (remote rows, or the local list); when active with a URL set, one `SELECT content` for its table is sent and one answer consumed; otherwise nothing is sent (`ReadDone`) |
| DbService.DBService.RegisterUsedId | services/dbService.ts:240-244 | the state never changes; with the id already present nothing at all happens; otherwise the record is saved and mirrored as an add |
| DbService.DBService.GetModules | services/dbService.ts:247 | the modules as `Fetched` says (remote rows, or the local list); when active with a URL set, one `SELECT content` for its table is sent and one answer consumed; otherwise nothing is sent (`ReadDone`) |
| DbService.DBService.AddModule | services/dbService.ts:248 | the module's row is appended |
| DbService.DBService.UpdateModule | services/dbService.ts:249 | the first module with that id is replaced |
| DbService.DBService.DeleteModule | services/dbService.ts:250 | every module with that id is removed |
| DbService.DBService.ResetToDefaults | services/dbService.ts:205-212 | the state becomes `Reset` of the old one (the seeds back; used ids and configurations kept), and it is committed locally |
| DbService.DBService.SaveCompanyConfig | services/dbService.ts:254-263 | the config is committed locally first; then, when active, one upsert of the `global_config` row is sent, and its error is returned |
| DbService.DBService.GetTableData | services/dbService.ts:266-274 | the method form of `DbModel.TableData`: its result is `TableData(Current(), tableName)`, the rows of USERS, PROJECTS, GEMS or TOOLS, and none for any other name |
| DbService.DBService.AlterTable | services/dbService.ts:276-298 | (`AlterDone`) for a name the lookup rejects nothing happens; otherwise the state becomes `Altered`, is committed, and, when active, the full migration follows and its outcome is returned |
| Login.Lower | components/LoginScreen.tsx:11 | lower-casing keeps the length and maps each character |
| Login.LowerIdempotent | components/LoginScreen.tsx:11 | lower-casing twice is lower-casing once |
| Login.Find | components/LoginScreen.tsx:11 | `find` gives the first user whose e-mail matches up to case, or none exactly when no user matches |
| Login.FirstMatchUnique | components/LoginScreen.tsx:11 | there is only one first match |
| Login.SameEmail | components/LoginScreen.tsx:11 | the test of `find`: both e-mails lower-cased and equal; characterised by `Find`, `FindIgnoresCase` and `LowerIdempotent` |
| Login.FindIgnoresCase | components/LoginScreen.tsx:11 | the lookup depends on the typed e-mail only up to case |
| Login.PasswordAccepted | components/LoginScreen.tsx:14 | `isPassCorrect`; characterised by `PasswordAcceptedIff` |
| Login.PasswordAcceptedIff | components/LoginScreen.tsx:14 | the password test is exactly "stored is `''`, or stored equals typed"; a user without a password is never accepted; the third disjunct is redundant |
| Login.HandleSubmit | components/LoginScreen.tsx:9-21 | on success the form is unchanged; on rejection exactly the error message is set |
| Login.FirstMatchDecides | components/LoginScreen.tsx:11-16 | the first matching user alone decides: they log in exactly when the password is accepted against theirs |
| Login.NoMatchRejects | components/LoginScreen.tsx:13-20 | with no user for the e-mail, the login is rejected with the message and nobody is logged in |
| Login.LoggedInUserMatches | components/LoginScreen.tsx:11-17 | whoever logs in is one of the users, has the typed e-mail up to case, and has a blank password or the typed one |
| Login.EmailCaseIgnored | components/LoginScreen.tsx:11 | changing only the case of the typed e-mail never changes who logs in |
| Login.HandleRootLogin | components/LoginScreen.tsx:23-27 | it only fills in `aiwis` / `123123`, keeps the error, and logs nobody in |
| Login.RootLoginWithSeeds | components/LoginScreen.tsx:23-27 | submitting the filled-in root credentials against the seeded users logs in the root user |
| Dashboard.Filter | components/Dashboard.tsx:17-18 | `filter` keeps only passing elements and never grows the list |
| Dashboard.FilterMultiset | components/Dashboard.tsx:17-18 | a kept element is kept as often as it occurs, and nothing else is kept |
| Dashboard.FilterStronger | components/Dashboard.tsx:17-18 | a stronger test keeps no more elements |
| Dashboard.FilterAppend | components/Dashboard.tsx:17-18 | filtering a concatenation filters each part |
| Dashboard.ActiveProjects | components/Dashboard.tsx:17 | the active count is at most the number of projects |
| Dashboard.InProgress | components/Dashboard.tsx:17 | the test of the active filter, `status === 'En Curso'`; characterised by `ActiveProjectsCounts` |
| Dashboard.Mine | components/Dashboard.tsx:18 | the test of the user's filter: in progress, with the user in the team or as lead; characterised by `MyProjectsCounts` |
| Dashboard.ActiveProjectsCounts | components/Dashboard.tsx:17 | the active count counts each `'En Curso'` project once per occurrence, and it is 0 exactly when no project is in progress |
| Dashboard.MyProjects | components/Dashboard.tsx:18 | the user's count is at most the active count |
| Dashboard.MyProjectsCounts | components/Dashboard.tsx:18 | a project counts for the user (once per occurrence) exactly when it is in progress and has the user in its team or as its lead |
| Dashboard.CountsAppend | components/Dashboard.tsx:17-18 | both counts add up over concatenated project lists |
| Dashboard.CompletedClasses | components/Dashboard.tsx:19 | the length of `completedVideoIds`, or 0 when it is absent |
| Dashboard.FirstName | components/Dashboard.tsx:31 | a prefix of the name without spaces, followed in the name by a space unless it is the whole name |
| Dashboard.FirstNameWhole | components/Dashboard.tsx:31 | the greeting uses the whole name exactly when the name has no space |
| DatabaseView.SkipSpaces | components/DatabaseView.tsx:75 | the first position that is not white space |
| DatabaseView.CutSpaces | components/DatabaseView.tsx:75 | the end of the string once its trailing white space is cut |
| DatabaseView.Trim | components/DatabaseView.tsx:75 | `trim()`; characterised by `TrimIsCore` and `TrimKeepsClean` |
| DatabaseView.TrimIsCore | components/DatabaseView.tsx:75 | `trim()` gives the part between the leading and the trailing white space |
| DatabaseView.TrimKeepsClean | components/DatabaseView.tsx:75 | a string that neither starts nor ends with white space is its own trim |
| DatabaseView.CleanUrl | components/DatabaseView.tsx:75 | the trimmed URL with at most one trailing `/` removed |
| DatabaseView.CleanUrlDropsOneSlash | components/DatabaseView.tsx:75 | a URL ending in `//` keeps one slash |
| DatabaseView.CleanUrlOfBlank | components/DatabaseView.tsx:73-75 | a white-space URL, or a lone slash among white space, cleans to the empty string |
| DatabaseView.HandleTestCloudConnection | components/DatabaseView.tsx:72-89 | with an empty URL nothing is stored or sent; otherwise the cleaned configuration (isActive unchanged) is committed before `SELECT 1` is sent; only on success is it committed again as active; on failure isActive keeps its value |
| DatabaseView.ConfirmConnection | components/DatabaseView.tsx:79-88 | `SELECT 1`, then, on success only, the configuration stored as active |
| DatabaseView.TableColumns | components/DatabaseView.tsx:133 | the fields of the first row, or none when there are no rows |
| DatabaseView.ColumnsAfterAlter | components/DatabaseView.tsx:133 | after ADD_COLUMN the columns gain the field; after DROP_COLUMN they lose it |
| DatabaseView.AutoMapFields | components/DatabaseView.tsx:113 | each field of the first row that is also a CSV header maps to itself, and nothing else is mapped |
| DatabaseView.HandleAddColumn | components/DatabaseView.tsx:50-58 | an empty name does nothing; otherwise the column is added through alterTable with all of alterTable's effects (`AlterDone`: the snapshot stored, the migration's requests and answers, its outcome returned); on success the name is cleared and the table reloaded; on failure the view is kept |
| DatabaseView.HandleDropColumn | components/DatabaseView.tsx:63-68 | without confirmation nothing happens; otherwise the column is dropped through alterTable with all of alterTable's effects (`AlterDone`), and, on success, the table reloaded |

## Left out

- HTTP `fetch`, the response's JSON body and the decoding of remote rows (`r.content || JSON.parse(r.content)`) are not modelled. The proxy is a script of answers, and the rows of a successful answer are used as given.
- DbService.DBService.constructor: JSON serialisation and parsing in local storage are not modelled. The constructor requires each stored key to hold what the service itself writes there (`WellKinded`), so a corrupt stored value is outside the model.
- Asynchrony is not modelled. Every `async` method runs to completion before the next one starts, so interleaved calls are outside the model.
- Console logging is not modelled; it has no effect on state.
- React rendering, hooks and timers are not modelled. Neither are `alert`, `confirm` and `prompt`; where a dialog decides a branch, its answer is a parameter. `window.location.reload` is not modelled either.
- `getCloudSqlConfig` and `getCompanyConfig` are not separate members: they read a field and return it, and `Current()` exposes both.
- The admin view's `handleSaveSqlConfig`, `handleInitializeCloud`, `handleMigration`, `handleHardReset`, `executeImport` and `loadTable` are left out. Each only forwards to a modelled engine method or shows a message.
- The deployment templates `getPackageJson` and `getIndexJs` are left out: they are fixed strings.
- The CSV parser `etl.parseCSV` is left out; its source is not part of this model. `AutoMapFields` takes the parsed headers as a parameter.
- components/StudyGuideModal.tsx is not part of this model: it only renders. `getEnvVar` in components/constants.ts is not part of it either: it is environment plumbing.
- Login.HandleSubmit: takes typed `User` values, but the engine holds untyped rows, and `alterTable` can drop `email` from every user. The source then throws a TypeError on `u.email.toLowerCase()`; a user row without `email` is outside the model.
- Dashboard.MyProjects: takes typed `Project` values. A project row whose `teamIds` was dropped by `alterTable` makes `p.teamIds.includes` throw for an 'En Curso' project; such a row is outside the model.
- Dashboard.FirstName: takes the user's name as a string. A user row whose `name` was dropped by `alterTable` makes `currentUser.name.split(' ')` throw; such a row is outside the model.
- Login.Lower: lower-cases ASCII letters only. JavaScript's `toLowerCase` maps all Unicode letters.
- JSON numbers are mathematical integers. Fractional and floating-point values are not modelled.
- DatabaseView.TableColumns: the order of an object's keys is lost. Rows are maps, so the columns are a set, not `Object.keys`'s ordered list.
- DatabaseView.AutoMapFields: a CSV column named `__proto__` is not modelled. JavaScript ignores a string assignment to that key.
- Rows of the ETL import (`executeImport` only logs) are not modelled.
