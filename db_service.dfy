/**
 * The persistence and sync engine itself (class DBService of
 * services/dbService.ts). It holds the six collections and the two configs,
 * writes a whole snapshot to local storage after every change, and mirrors
 * changes to a Cloud SQL proxy.
 *
 * Local storage is the field `store`. The proxy is the field `replies`: the
 * answers it will give, one per request, in order (an exhausted script is a
 * transport failure). The ghost field `trace` records, in order, each local
 * commit and each request sent to the proxy.
 */
module DbService {
  import opened Wrappers
  import opened Json
  import opened Types
  import opened Seeds
  import opened DbModel

  class DBService {
    var users: seq<Row>
    var projects: seq<Row>
    var gems: seq<Row>
    var tools: seq<Row>
    var usedIds: seq<Row>
    var modules: seq<Row>
    var companyConfig: CompanyConfig
    var cloudSqlConfig: CloudSqlConfig
    /** INITIAL_USERS, INITIAL_PROJECTS, INITIAL_GEMS, INITIAL_TOOLS, INITIAL_MODULES. */
    const seeds: SeedSet

    /** The browser's local storage. */
    var store: map<string, Stored>
    /** The answers the proxy will give, one per request. */
    var replies: seq<Reply>
    /** Local commits and remote requests, oldest first. */
    ghost var trace: seq<Event>

    /** The service state as a value. */
    function Current(): State
      reads this`users, this`projects, this`gems, this`tools, this`usedIds, this`modules,
            this`companyConfig, this`cloudSqlConfig
    {
      State(users, projects, gems, tools, usedIds, modules, companyConfig, cloudSqlConfig)
    }

    /**
     * The field initialisers, then loadInitialData. `initial` is the seed
     * data the service falls back on; the application's own is
     * `InitialSeeds`.
     */
    constructor(saved: map<string, Stored>, proxy: seq<Reply>, initial: SeedSet)
      requires WellKinded(saved)
      ensures seeds == initial
      ensures Current() == Loaded(saved, initial, DefaultCompanyConfig, DefaultCloudSqlConfig)
      ensures store == saved && replies == proxy && trace == []
    {
      seeds := initial;
      users, projects, gems, tools, usedIds, modules := [], [], [], [], [], [];
      companyConfig := DefaultCompanyConfig;
      cloudSqlConfig := DefaultCloudSqlConfig;
      store := saved;
      replies := proxy;
      trace := [];
      new;
      LoadInitialData();
    }

    /** Each collection and config from its key, or its default. */
    method LoadInitialData()
      requires WellKinded(store)
      modifies this`users, this`projects, this`gems, this`tools, this`usedIds, this`modules,
               this`companyConfig, this`cloudSqlConfig
      ensures Current() == Loaded(store, seeds, old(companyConfig), old(cloudSqlConfig))
    {
      var saved := Loaded(store, seeds, companyConfig, cloudSqlConfig);
      cloudSqlConfig := saved.cloud;
      users, projects, gems, tools := saved.users, saved.projects, saved.gems, saved.tools;
      usedIds, modules := saved.usedIds, saved.modules;
      companyConfig := saved.company;
    }

    /** Writes every collection and both configs, each under its own key. */
    method SaveLocal()
      modifies this`store, this`trace
      ensures store == old(store) + Snapshot(Current())
      ensures trace == old(trace) + [Committed(Current())]
    {
      store := store + Snapshot(Current());
      trace := trace + [Committed(Current())];
    }

    method SaveCloudSqlConfig(config: CloudSqlConfig)
      modifies this`cloudSqlConfig, this`store, this`trace
      ensures Current() == old(Current()).(cloud := config)
      ensures store == old(store) + Snapshot(Current())
      ensures trace == old(trace) + [Committed(Current())]
    {
      cloudSqlConfig := config;
      SaveLocal();
    }

    /**
     * One request to the proxy. Without a proxy URL it fails before
     * contacting anything; otherwise the request is sent with the current
     * config and the proxy's next answer decides the result.
     */
    method ExecuteSql(query: Sql) returns (r: Result<seq<Row>>)
      modifies this`replies, this`trace
      ensures cloudSqlConfig.proxyUrl == "" ==>
        r == Err(NoProxyUrl) && replies == old(replies) && trace == old(trace)
      ensures cloudSqlConfig.proxyUrl != "" ==>
        && r == Answer(old(replies))
        && replies == Rest(old(replies))
        && trace == old(trace) + [Issued(Request(query, cloudSqlConfig))]
    {
      if cloudSqlConfig.proxyUrl == "" {
        return Err(NoProxyUrl);
      }
      trace := trace + [Issued(Request(query, cloudSqlConfig))];
      r := Answer(replies);
      replies := Rest(replies);
    }

    /** Awaits each command in turn; the first failure ends the loop and is returned. */
    method ExecuteInOrder(cmds: seq<Sql>) returns (o: Outcome)
      modifies this`replies, this`trace
      ensures var b := RunBatch(cmds, cloudSqlConfig, old(replies));
        o == b.outcome && replies == b.rest && trace == old(trace) + b.events
    {
      var i := 0;
      while i < |cmds|
        invariant 0 <= i <= |cmds|
        invariant var b := RunBatch(cmds[..i], cloudSqlConfig, old(replies));
          b.outcome == Pass && replies == b.rest && trace == old(trace) + b.events
      {
        ghost var before := RunBatch(cmds[..i], cloudSqlConfig, old(replies));
        ghost var one := RunBatch([cmds[i]], cloudSqlConfig, before.rest);
        var r := ExecuteSql(cmds[i]);
        assert [cmds[i]][1..] == [];
        assert cmds[..i + 1] == cmds[..i] + [cmds[i]];
        BatchAppend(cmds[..i], [cmds[i]], cloudSqlConfig, old(replies));
        if r.Err? {
          assert cmds == cmds[..i + 1] + cmds[i + 1..];
          BatchAppend(cmds[..i + 1], cmds[i + 1..], cloudSqlConfig, old(replies));
          return Fail(r.error);
        }
        assert cloudSqlConfig.proxyUrl != "";
        assert Answer(before.rest).Ok?;
        assert RunBatch([], cloudSqlConfig, Rest(before.rest)) == Batch([], Rest(before.rest), Pass);
        assert one == Batch([Issued(Request(cmds[i], cloudSqlConfig))] + [], Rest(before.rest), Pass);
        assert one == Batch([Issued(Request(cmds[i], cloudSqlConfig))], replies, Pass);
        assert RunBatch(cmds[..i + 1], cloudSqlConfig, old(replies)) == Batch(before.events + one.events, one.rest, Pass);
        i := i + 1;
      }
      assert cmds[..i] == cmds;
      o := Pass;
    }

    /** Creates the seven tables when active; nothing otherwise. */
    method InitializeCloudSchema() returns (o: Outcome)
      modifies this`replies, this`trace
      ensures !cloudSqlConfig.isActive ==> o == Pass && replies == old(replies) && trace == old(trace)
      ensures cloudSqlConfig.isActive ==>
        var b := RunBatch(SchemaCommands(cloudSqlConfig.provider), cloudSqlConfig, old(replies));
        o == b.outcome && replies == b.rest && trace == old(trace) + b.events
    {
      if !cloudSqlConfig.isActive {
        return Pass;
      }
      o := ExecuteInOrder(SchemaCommands(cloudSqlConfig.provider));
    }

    /** The `upsert` helper of migrateLocalToCloud: one upsert per item, in order. */
    method UpsertAll(table: Table, items: seq<Row>) returns (o: Outcome)
      modifies this`replies, this`trace
      ensures var b := RunBatch(UpsertCommands(table, items), cloudSqlConfig, old(replies));
        o == b.outcome && replies == b.rest && trace == old(trace) + b.events
    {
      o := ExecuteInOrder(UpsertCommands(table, items));
    }

    /** One `await upsert(table, items)` of migrateLocalToCloud, continuing the batch `sofar`. */
    method UpsertStep(table: Table, items: seq<Row>, ghost sofar: Batch, ghost t0: seq<Event>)
      returns (o: Outcome)
      requires sofar.outcome == Pass && replies == sofar.rest && trace == t0 + sofar.events
      modifies this`replies, this`trace
      ensures var b := Then(sofar, UpsertCommands(table, items), cloudSqlConfig);
        o == b.outcome && replies == b.rest && trace == t0 + b.events
    {
      o := UpsertAll(table, items);
      ghost var b := RunBatch(UpsertCommands(table, items), cloudSqlConfig, sofar.rest);
      assert trace == (t0 + sofar.events) + b.events == t0 + (sofar.events + b.events);
    }

    /**
     * Pushes every collection, in the fixed order, and the company config;
     * fails when the connection is not active. The first failed upsert
     * stops the rest.
     */
    method MigrateLocalToCloud() returns (o: Outcome)
      modifies this`replies, this`trace
      ensures !cloudSqlConfig.isActive ==>
        o == Fail(NotActive) && replies == old(replies) && trace == old(trace)
      ensures cloudSqlConfig.isActive ==>
        var b := RunBatch(MigrationCommands(Current()), cloudSqlConfig, old(replies));
        o == b.outcome && replies == b.rest && trace == old(trace) + b.events
    {
      if !cloudSqlConfig.isActive {
        return Fail(NotActive);
      }
      ghost var t0 := trace;
      MigrationRunIsBatch(Current(), cloudSqlConfig, replies);
      ghost var b := Batch([], replies, Pass);
      o := UpsertStep(AppUsers, users, b, t0);
      b := Then(b, UpsertCommands(AppUsers, users), cloudSqlConfig);
      if o.Fail? {
        return;
      }
      o := UpsertStep(AppProjects, projects, b, t0);
      b := Then(b, UpsertCommands(AppProjects, projects), cloudSqlConfig);
      if o.Fail? {
        return;
      }
      o := UpsertStep(AppGems, gems, b, t0);
      b := Then(b, UpsertCommands(AppGems, gems), cloudSqlConfig);
      if o.Fail? {
        return;
      }
      o := UpsertStep(AppTools, tools, b, t0);
      b := Then(b, UpsertCommands(AppTools, tools), cloudSqlConfig);
      if o.Fail? {
        return;
      }
      o := UpsertStep(AppUsedIds, usedIds, b, t0);
      b := Then(b, UpsertCommands(AppUsedIds, usedIds), cloudSqlConfig);
      if o.Fail? {
        return;
      }
      o := UpsertStep(AppTrainingModules, modules, b, t0);
      b := Then(b, UpsertCommands(AppTrainingModules, modules), cloudSqlConfig);
      if o.Fail? {
        return;
      }
      o := UpsertStep(AppConfig, [ConfigRow(companyConfig)], b, t0);
    }

    // -------------------------------------------------------------------
    // Reads and writes of one collection

    /**
     * The proxy's side of a read of `table`: when mirroring, one
     * `SELECT content` is sent and one answer consumed; otherwise nothing.
     */
    twostate predicate ReadDone(table: Table)
      reads this
    {
      if Mirrors(cloudSqlConfig) then
        replies == Rest(old(replies)) && trace == old(trace) + [Issued(Request(SelectContent(table), cloudSqlConfig))]
      else
        replies == old(replies) && trace == old(trace)
    }

    /**
     * The remote rows when mirroring and the read succeeds; the local list
     * when not mirroring or when the read fails.
     */
    method GenericGet(local: seq<Row>, table: Table) returns (xs: seq<Row>)
      modifies this`replies, this`trace
      ensures xs == Fetched(local, cloudSqlConfig, old(replies))
      ensures ReadDone(table)
    {
      if cloudSqlConfig.isActive && cloudSqlConfig.proxyUrl != "" {
        var r := ExecuteSql(SelectContent(table));
        if r.Ok? {
          return r.value;
        }
        return local;
      }
      return local;
    }

    /**
     * The state after a save of `cmd` that leaves `newList` in `table`:
     * the collection is written back, the snapshot stored, and then, only
     * when mirroring, the one remote command sent; its answer changes
     * nothing but the proxy's remaining answers.
     */
    twostate predicate SaveDone(table: Table, newList: seq<Row>, cmd: Sql)
      reads this
    {
      && Current() == WrittenBack(old(Current()), table, newList)
      && store == old(store) + Snapshot(Current())
      && (if Mirrors(old(cloudSqlConfig)) then
            replies == Rest(old(replies)) &&
            trace == old(trace) + [Committed(Current()), Issued(Request(cmd, cloudSqlConfig))]
          else
            replies == old(replies) && trace == old(trace) + [Committed(Current())])
    }

    /** The new list of a save: filter out the id, replace the first match, or push. */
    method ApplyAction(item: Row, localList: seq<Row>, action: SaveAction) returns (newList: seq<Row>)
      ensures newList == Applied(action, localList, item)
    {
      newList := localList;
      if action == Delete {
        newList := RemoveId(newList, IdOf(item));
      } else if action == Update {
        var idx := FindIndex(newList, IdOf(item));
        if idx != -1 {
          newList := newList[idx := item];
        }
      } else {
        newList := newList + [item];
      }
    }

    /** Stores the new list into its collection; the used ids and the config are not stored. */
    method WriteBack(table: Table, newList: seq<Row>)
      modifies this`users, this`projects, this`gems, this`tools, this`modules
      ensures Current() == WrittenBack(old(Current()), table, newList)
    {
      if table == AppUsers { users := newList; }
      if table == AppProjects { projects := newList; }
      if table == AppGems { gems := newList; }
      if table == AppTools { tools := newList; }
      if table == AppTrainingModules { modules := newList; }
    }

    /** Builds the new list from a copy of `localList`, commits it, then mirrors the change. */
    method GenericSave(item: Row, table: Table, localList: seq<Row>, action: SaveAction)
      modifies this`users, this`projects, this`gems, this`tools, this`modules,
               this`store, this`replies, this`trace
      ensures SaveDone(table, Applied(action, localList, item), SaveCommand(action, table, item))
    {
      var newList := ApplyAction(item, localList, action);
      WriteBack(table, newList);
      SaveLocal();

      if cloudSqlConfig.isActive && cloudSqlConfig.proxyUrl != "" {
        // a failed remote command is caught and only logged
        var _ := ExecuteSql(SaveCommand(action, table, item));
      }
    }

    // -------------------------------------------------------------------
    // The per-collection operations

    method GetUsers() returns (xs: seq<Row>)
      modifies this`replies, this`trace
      ensures xs == Fetched(users, cloudSqlConfig, old(replies))
      ensures ReadDone(AppUsers)
    {
      xs := GenericGet(users, AppUsers);
    }

    method AddUser(u: User)
      modifies this`users, this`projects, this`gems, this`tools, this`modules,
               this`store, this`replies, this`trace
      ensures users == old(users) + [UserRow(u)]
      ensures SaveDone(AppUsers, users, Upsert(AppUsers, JStr(u.id), JObj(UserRow(u))))
    {
      GenericSave(UserRow(u), AppUsers, users, Add);
    }

    method UpdateUser(u: User)
      modifies this`users, this`projects, this`gems, this`tools, this`modules,
               this`store, this`replies, this`trace
      ensures users == Applied(Update, old(users), UserRow(u))
      ensures SaveDone(AppUsers, users, Upsert(AppUsers, JStr(u.id), JObj(UserRow(u))))
    {
      GenericSave(UserRow(u), AppUsers, users, Update);
    }

    method DeleteUser(id: string)
      modifies this`users, this`projects, this`gems, this`tools, this`modules,
               this`store, this`replies, this`trace
      ensures users == RemoveId(old(users), Some(JStr(id)))
      ensures SaveDone(AppUsers, users, DeleteById(AppUsers, JStr(id)))
    {
      GenericSave(map["id" := JStr(id)], AppUsers, users, Delete);
    }

    method GetProjects() returns (xs: seq<Row>)
      modifies this`replies, this`trace
      ensures xs == Fetched(projects, cloudSqlConfig, old(replies))
      ensures ReadDone(AppProjects)
    {
      xs := GenericGet(projects, AppProjects);
    }

    method AddProject(p: Project)
      modifies this`users, this`projects, this`gems, this`tools, this`modules,
               this`store, this`replies, this`trace
      ensures projects == old(projects) + [ProjectRow(p)]
      ensures SaveDone(AppProjects, projects, Upsert(AppProjects, JStr(p.id), JObj(ProjectRow(p))))
    {
      GenericSave(ProjectRow(p), AppProjects, projects, Add);
    }

    method UpdateProject(p: Project)
      modifies this`users, this`projects, this`gems, this`tools, this`modules,
               this`store, this`replies, this`trace
      ensures projects == Applied(Update, old(projects), ProjectRow(p))
      ensures SaveDone(AppProjects, projects, Upsert(AppProjects, JStr(p.id), JObj(ProjectRow(p))))
    {
      GenericSave(ProjectRow(p), AppProjects, projects, Update);
    }

    method DeleteProject(id: string)
      modifies this`users, this`projects, this`gems, this`tools, this`modules,
               this`store, this`replies, this`trace
      ensures projects == RemoveId(old(projects), Some(JStr(id)))
      ensures SaveDone(AppProjects, projects, DeleteById(AppProjects, JStr(id)))
    {
      GenericSave(map["id" := JStr(id)], AppProjects, projects, Delete);
    }

    method GetGems() returns (xs: seq<Row>)
      modifies this`replies, this`trace
      ensures xs == Fetched(gems, cloudSqlConfig, old(replies))
      ensures ReadDone(AppGems)
    {
      xs := GenericGet(gems, AppGems);
    }

    method AddGem(g: Gem)
      modifies this`users, this`projects, this`gems, this`tools, this`modules,
               this`store, this`replies, this`trace
      ensures gems == old(gems) + [GemRow(g)]
      ensures SaveDone(AppGems, gems, Upsert(AppGems, JStr(g.id), JObj(GemRow(g))))
    {
      GenericSave(GemRow(g), AppGems, gems, Add);
    }

    method UpdateGem(g: Gem)
      modifies this`users, this`projects, this`gems, this`tools, this`modules,
               this`store, this`replies, this`trace
      ensures gems == Applied(Update, old(gems), GemRow(g))
      ensures SaveDone(AppGems, gems, Upsert(AppGems, JStr(g.id), JObj(GemRow(g))))
    {
      GenericSave(GemRow(g), AppGems, gems, Update);
    }

    method DeleteGem(id: string)
      modifies this`users, this`projects, this`gems, this`tools, this`modules,
               this`store, this`replies, this`trace
      ensures gems == RemoveId(old(gems), Some(JStr(id)))
      ensures SaveDone(AppGems, gems, DeleteById(AppGems, JStr(id)))
    {
      GenericSave(map["id" := JStr(id)], AppGems, gems, Delete);
    }

    method GetTools() returns (xs: seq<Row>)
      modifies this`replies, this`trace
      ensures xs == Fetched(tools, cloudSqlConfig, old(replies))
      ensures ReadDone(AppTools)
    {
      xs := GenericGet(tools, AppTools);
    }

    method AddTool(t: Tool)
      modifies this`users, this`projects, this`gems, this`tools, this`modules,
               this`store, this`replies, this`trace
      ensures tools == old(tools) + [ToolRow(t)]
      ensures SaveDone(AppTools, tools, Upsert(AppTools, JStr(t.id), JObj(ToolRow(t))))
    {
      GenericSave(ToolRow(t), AppTools, tools, Add);
    }

    method UpdateTool(t: Tool)
      modifies this`users, this`projects, this`gems, this`tools, this`modules,
               this`store, this`replies, this`trace
      ensures tools == Applied(Update, old(tools), ToolRow(t))
      ensures SaveDone(AppTools, tools, Upsert(AppTools, JStr(t.id), JObj(ToolRow(t))))
    {
      GenericSave(ToolRow(t), AppTools, tools, Update);
    }

    method DeleteTool(id: string)
      modifies this`users, this`projects, this`gems, this`tools, this`modules,
               this`store, this`replies, this`trace
      ensures tools == RemoveId(old(tools), Some(JStr(id)))
      ensures SaveDone(AppTools, tools, DeleteById(AppTools, JStr(id)))
    {
      GenericSave(map["id" := JStr(id)], AppTools, tools, Delete);
    }

    method GetUsedIds() returns (xs: seq<Row>)
      modifies this`replies, this`trace
      ensures xs == Fetched(usedIds, cloudSqlConfig, old(replies))
      ensures ReadDone(AppUsedIds)
    {
      xs := GenericGet(usedIds, AppUsedIds);
    }

    /**
     * Saves the record only when no used id has its id. The save does not
     * write the used ids back, so the local list never grows.
     */
    method RegisterUsedId(record: UsedId)
      modifies this`users, this`projects, this`gems, this`tools, this`modules,
               this`store, this`replies, this`trace
      ensures Current() == old(Current())
      ensures HasId(old(usedIds), Some(JStr(record.id))) ==>
        store == old(store) && replies == old(replies) && trace == old(trace)
      ensures !HasId(old(usedIds), Some(JStr(record.id))) ==>
        SaveDone(AppUsedIds, old(usedIds) + [UsedIdRow(record)],
                 Upsert(AppUsedIds, JStr(record.id), JObj(UsedIdRow(record))))
    {
      if FindIndex(usedIds, Some(JStr(record.id))) == -1 {
        GenericSave(UsedIdRow(record), AppUsedIds, usedIds, Add);
      }
    }

    method GetModules() returns (xs: seq<Row>)
      modifies this`replies, this`trace
      ensures xs == Fetched(modules, cloudSqlConfig, old(replies))
      ensures ReadDone(AppTrainingModules)
    {
      xs := GenericGet(modules, AppTrainingModules);
    }

    method AddModule(m: TrainingModule)
      modifies this`users, this`projects, this`gems, this`tools, this`modules,
               this`store, this`replies, this`trace
      ensures modules == old(modules) + [ModuleRow(m)]
      ensures SaveDone(AppTrainingModules, modules, Upsert(AppTrainingModules, JStr(m.id), JObj(ModuleRow(m))))
    {
      GenericSave(ModuleRow(m), AppTrainingModules, modules, Add);
    }

    method UpdateModule(m: TrainingModule)
      modifies this`users, this`projects, this`gems, this`tools, this`modules,
               this`store, this`replies, this`trace
      ensures modules == Applied(Update, old(modules), ModuleRow(m))
      ensures SaveDone(AppTrainingModules, modules, Upsert(AppTrainingModules, JStr(m.id), JObj(ModuleRow(m))))
    {
      GenericSave(ModuleRow(m), AppTrainingModules, modules, Update);
    }

    method DeleteModule(id: string)
      modifies this`users, this`projects, this`gems, this`tools, this`modules,
               this`store, this`replies, this`trace
      ensures modules == RemoveId(old(modules), Some(JStr(id)))
      ensures SaveDone(AppTrainingModules, modules, DeleteById(AppTrainingModules, JStr(id)))
    {
      GenericSave(map["id" := JStr(id)], AppTrainingModules, modules, Delete);
    }

    // -------------------------------------------------------------------
    // Reset, company config and the admin view

    /** The five seeded collections back to their seeds; used ids and configs stay. */
    method ResetToDefaults()
      modifies this`users, this`projects, this`gems, this`tools, this`modules, this`store, this`trace
      ensures Current() == Reset(old(Current()), seeds)
      ensures store == old(store) + Snapshot(Current())
      ensures trace == old(trace) + [Committed(Current())]
    {
      users := seeds.users;
      projects := seeds.projects;
      gems := seeds.gems;
      tools := seeds.tools;
      modules := seeds.modules;
      SaveLocal();
    }

    /**
     * Commits the config locally, then, when active, upserts it remotely;
     * a remote failure is returned to the caller.
     */
    method SaveCompanyConfig(c: CompanyConfig) returns (o: Outcome)
      modifies this`companyConfig, this`store, this`replies, this`trace
      ensures Current() == old(Current()).(company := c)
      ensures store == old(store) + Snapshot(Current())
      ensures !cloudSqlConfig.isActive ==>
        o == Pass && replies == old(replies) && trace == old(trace) + [Committed(Current())]
      ensures cloudSqlConfig.isActive ==>
        var b := RunBatch([ConfigCommand(c)], cloudSqlConfig, old(replies));
        o == b.outcome && replies == b.rest && trace == old(trace) + [Committed(Current())] + b.events
    {
      companyConfig := c;
      SaveLocal();
      if cloudSqlConfig.isActive {
        var r := ExecuteSql(ConfigCommand(c));
        assert [ConfigCommand(c)][1..] == [];
        if r.Err? {
          return Fail(r.error);
        }
      }
      o := Pass;
    }

    /** The raw rows the admin view shows for a view name. */
    function GetTableData(tableName: string): (rows: seq<Row>)
      reads this`users, this`projects, this`gems, this`tools, this`usedIds, this`modules,
            this`companyConfig, this`cloudSqlConfig
      ensures rows == TableData(Current(), tableName)
    {
      match tableName
      case "USERS" => users
      case "PROJECTS" => projects
      case "GEMS" => gems
      case "TOOLS" => tools
      case _ => []
    }

    /**
     * The state after an alterTable that returned `o`: for a name the lookup
     * object rejects, nothing happened; otherwise the rows were altered, the
     * snapshot stored, and, when active, everything migrated, the migration's
     * outcome being `o`.
     */
    twostate predicate AlterDone(tableName: string, action: ColumnAction, fieldName: string, o: Outcome)
      reads this
    {
      if !HasInternalName(tableName) then
        && o == Pass && Current() == old(Current()) && store == old(store)
        && replies == old(replies) && trace == old(trace)
      else
        && Current() == Altered(old(Current()), tableName, action, fieldName)
        && store == old(store) + Snapshot(Current())
        && (!cloudSqlConfig.isActive ==>
              o == Pass && replies == old(replies) && trace == old(trace) + [Committed(Current())])
        && (cloudSqlConfig.isActive ==>
              var b := RunBatch(MigrationCommands(Current()), cloudSqlConfig, old(replies));
              o == b.outcome && replies == b.rest && trace == old(trace) + [Committed(Current())] + b.events)
    }

    /**
     * Adds or drops a column on every row of a view; only USERS and
     * PROJECTS are stored back. Then, for any name the lookup object
     * accepts, commits locally and, when active, migrates everything.
     */
    method AlterTable(tableName: string, action: ColumnAction, fieldName: string) returns (o: Outcome)
      modifies this`users, this`projects, this`store, this`replies, this`trace
      ensures AlterDone(tableName, action, fieldName, o)
    {
      var data := GetTableData(tableName);
      var updatedData := AlterRows(data, action, fieldName);
      if HasInternalName(tableName) {
        if tableName == "USERS" { users := updatedData; }
        if tableName == "PROJECTS" { projects := updatedData; }
        SaveLocal();
        if cloudSqlConfig.isActive {
          o := MigrateLocalToCloud();
          return;
        }
      }
      o := Pass;
    }
  }
}
