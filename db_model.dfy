/**
 * The value-level model of the persistence and sync engine
 * (services/dbService.ts): the state it holds, the snapshot it writes to
 * local storage, the remote commands it issues, and the list surgery and
 * column changes it applies. The class in module DbService is proved
 * against the functions defined here.
 */
module DbModel {
  import opened Wrappers
  import opened Json
  import opened Types
  import opened Seeds

  // ---------------------------------------------------------------------
  // Configuration

  datatype Provider = Postgres | MySql

  datatype CloudSqlConfig = CloudSqlConfig(
    connectionName: string,
    dbName: string,
    dbUser: string,
    proxyUrl: string,
    provider: Provider,
    isActive: bool)

  /** The field initialisers of the service. */
  const DefaultCloudSqlConfig := CloudSqlConfig("", "", "", "", Postgres, false)
  // The subtitle is kept exactly as the source file spells it.
  const DefaultCompanyConfig := CompanyConfig("PORTAL CORPORATIVO", "Centro de Capacitaci√≥n")

  /** The gate of the best-effort paths: active, and a proxy URL is set. */
  predicate Mirrors(cfg: CloudSqlConfig)
  {
    cfg.isActive && cfg.proxyUrl != ""
  }

  // ---------------------------------------------------------------------
  // Remote commands and the proxy's answers

  datatype Table = AppUsers | AppProjects | AppGems | AppTools | AppUsedIds | AppTrainingModules | AppConfig

  /**
   * A remote command: its query template and its positional parameters.
   * `Upsert` is INSERT ... ON CONFLICT (id) DO UPDATE SET content; the
   * parameters are the item's id and the item itself as the content blob.
   */
  datatype Sql =
    | SelectOne
    | CreateTable(table: Table, contentType: string)
    | SelectContent(table: Table)
    | Upsert(table: Table, id: Json, content: Json)
    | DeleteById(table: Table, id: Json)

  /** The body posted to the proxy: the command and the configuration. */
  datatype Request = Request(query: Sql, config: CloudSqlConfig)

  /** What the proxy answers to one request; `Unreachable` is a transport failure. */
  datatype Reply = Rows(rows: seq<Row>) | HttpError(body: string) | Unreachable

  datatype Error =
    | NoProxyUrl               // "No Proxy URL configured"
    | CloudSqlError(body: string)  // "Cloud SQL Error: " + the response text
    | TransportFailure         // the request itself failed
    | NotActive                // "Cloud connection not active"

  datatype Result<T> = Ok(value: T) | Err(error: Error)

  datatype Outcome = Pass | Fail(error: Error)

  /** The result of one request given the proxy's remaining answers. */
  function Answer(replies: seq<Reply>): (r: Result<seq<Row>>)
    ensures r.Ok? <==> |replies| > 0 && replies[0].Rows?
    ensures r.Ok? ==> r.value == replies[0].rows
  {
    if |replies| == 0 then Err(TransportFailure)
    else match replies[0]
      case Rows(rows) => Ok(rows)
      case HttpError(body) => Err(CloudSqlError(body))
      case Unreachable => Err(TransportFailure)
  }

  /** The proxy's answers after one request. */
  function Rest(replies: seq<Reply>): seq<Reply>
  {
    if |replies| == 0 then [] else replies[1..]
  }

  // ---------------------------------------------------------------------
  // The state and its local snapshot

  datatype State = State(
    users: seq<Row>,
    projects: seq<Row>,
    gems: seq<Row>,
    tools: seq<Row>,
    usedIds: seq<Row>,
    modules: seq<Row>,
    company: CompanyConfig,
    cloud: CloudSqlConfig)

  /** What one local-storage key holds. */
  datatype Stored = StoredRows(rows: seq<Row>) | StoredCompany(company: CompanyConfig) | StoredCloud(cloud: CloudSqlConfig)

  const UsersKey := "SIMPLEDATA_users_v1"
  const ProjectsKey := "SIMPLEDATA_projects_v1"
  const GemsKey := "SIMPLEDATA_gems_v1"
  const ToolsKey := "SIMPLEDATA_tools_v1"
  const UsedIdsKey := "SIMPLEDATA_used_ids_v1"
  const CloudSqlConfigKey := "SIMPLEDATA_cloud_sql_config_v1"
  const ModulesKey := "SIMPLEDATA_modules_v1"
  const CompanyConfigKey := "SIMPLEDATA_company_config_v1"

  /** Everything a local save writes, one key per collection and per config. */
  function Snapshot(st: State): map<string, Stored>
  {
    map[UsersKey := StoredRows(st.users),
        ProjectsKey := StoredRows(st.projects),
        GemsKey := StoredRows(st.gems),
        ToolsKey := StoredRows(st.tools),
        UsedIdsKey := StoredRows(st.usedIds),
        ModulesKey := StoredRows(st.modules),
        CompanyConfigKey := StoredCompany(st.company),
        CloudSqlConfigKey := StoredCloud(st.cloud)]
  }

  /** Each known key holds what the service itself writes under it. */
  predicate WellKinded(store: map<string, Stored>)
  {
    && (UsersKey in store ==> store[UsersKey].StoredRows?)
    && (ProjectsKey in store ==> store[ProjectsKey].StoredRows?)
    && (GemsKey in store ==> store[GemsKey].StoredRows?)
    && (ToolsKey in store ==> store[ToolsKey].StoredRows?)
    && (UsedIdsKey in store ==> store[UsedIdsKey].StoredRows?)
    && (ModulesKey in store ==> store[ModulesKey].StoredRows?)
    && (CompanyConfigKey in store ==> store[CompanyConfigKey].StoredCompany?)
    && (CloudSqlConfigKey in store ==> store[CloudSqlConfigKey].StoredCloud?)
  }

  function LoadRows(store: map<string, Stored>, key: string, seed: seq<Row>): seq<Row>
    requires key in store ==> store[key].StoredRows?
  {
    if key in store then store[key].rows else seed
  }

  /**
   * The state after loading: each collection from its key, or its seed when
   * the key is absent (no seed for the used ids); each config from its key,
   * or the value the service had before.
   */
  function Loaded(store: map<string, Stored>, seeds: SeedSet, company: CompanyConfig, cloud: CloudSqlConfig): (st: State)
    requires WellKinded(store)
    ensures UsersKey in store ==> StoredRows(st.users) == store[UsersKey]
    ensures ProjectsKey in store ==> StoredRows(st.projects) == store[ProjectsKey]
    ensures GemsKey in store ==> StoredRows(st.gems) == store[GemsKey]
    ensures ToolsKey in store ==> StoredRows(st.tools) == store[ToolsKey]
    ensures UsedIdsKey in store ==> StoredRows(st.usedIds) == store[UsedIdsKey]
    ensures ModulesKey in store ==> StoredRows(st.modules) == store[ModulesKey]
    ensures CompanyConfigKey in store ==> StoredCompany(st.company) == store[CompanyConfigKey]
    ensures CloudSqlConfigKey in store ==> StoredCloud(st.cloud) == store[CloudSqlConfigKey]
    ensures UsersKey !in store ==> st.users == seeds.users
    ensures ProjectsKey !in store ==> st.projects == seeds.projects
    ensures GemsKey !in store ==> st.gems == seeds.gems
    ensures ToolsKey !in store ==> st.tools == seeds.tools
    ensures UsedIdsKey !in store ==> st.usedIds == []
    ensures ModulesKey !in store ==> st.modules == seeds.modules
    ensures CompanyConfigKey !in store ==> st.company == company
    ensures CloudSqlConfigKey !in store ==> st.cloud == cloud
  {
    State(
      LoadRows(store, UsersKey, seeds.users),
      LoadRows(store, ProjectsKey, seeds.projects),
      LoadRows(store, GemsKey, seeds.gems),
      LoadRows(store, ToolsKey, seeds.tools),
      LoadRows(store, UsedIdsKey, []),
      LoadRows(store, ModulesKey, seeds.modules),
      if CompanyConfigKey in store then store[CompanyConfigKey].company else company,
      if CloudSqlConfigKey in store then store[CloudSqlConfigKey].cloud else cloud)
  }

  /** What the engine has done, in order: local commits and remote requests. */
  datatype Event = Committed(state: State) | Issued(request: Request)

  // ---------------------------------------------------------------------
  // Sequences of remote commands

  /** The requests of `cmds`, in order, as trace events. */
  function Issues(cmds: seq<Sql>, cfg: CloudSqlConfig): (evs: seq<Event>)
    ensures |evs| == |cmds|
  {
    seq(|cmds|, k requires 0 <= k < |cmds| => Issued(Request(cmds[k], cfg)))
  }

  /** The effect of sending commands one after the other, stopping at the first error. */
  datatype Batch = Batch(events: seq<Event>, rest: seq<Reply>, outcome: Outcome)

  function RunBatch(cmds: seq<Sql>, cfg: CloudSqlConfig, replies: seq<Reply>): (b: Batch)
    ensures |b.events| <= |cmds| && |b.rest| <= |replies|
    ensures b.outcome.Pass? ==> |b.events| == |cmds|
    ensures |replies| - |b.rest| <= |b.events|
    ensures cfg.proxyUrl == "" ==> b.events == [] && b.rest == replies
    decreases |cmds|
  {
    if |cmds| == 0 then Batch([], replies, Pass)
    else if cfg.proxyUrl == "" then Batch([], replies, Fail(NoProxyUrl))
    else
      var sent := [Issued(Request(cmds[0], cfg))];
      var answer := Answer(replies);
      if answer.Err? then Batch(sent, Rest(replies), Fail(answer.error))
      else
        var b := RunBatch(cmds[1..], cfg, Rest(replies));
        Batch(sent + b.events, b.rest, b.outcome)
  }

  /** Continue a batch that passed with more commands. */
  function Then(first: Batch, more: seq<Sql>, cfg: CloudSqlConfig): Batch
  {
    if first.outcome.Fail? then first
    else
      var b := RunBatch(more, cfg, first.rest);
      Batch(first.events + b.events, b.rest, b.outcome)
  }

  /** Running `a + b` is running `a`, then `b` only if `a` passed. */
  lemma {:induction false} BatchAppend(a: seq<Sql>, b: seq<Sql>, cfg: CloudSqlConfig, replies: seq<Reply>)
    ensures RunBatch(a + b, cfg, replies) == Then(RunBatch(a, cfg, replies), b, cfg)
    decreases |a|
  {
    if |a| == 0 {
      assert a + b == b;
    } else if cfg.proxyUrl != "" && Answer(replies).Ok? {
      assert (a + b)[1..] == a[1..] + b;
      BatchAppend(a[1..], b, cfg, Rest(replies));
      var x := RunBatch(a[1..], cfg, Rest(replies));
      if x.outcome.Pass? {
        var y := RunBatch(b, cfg, x.rest);
        assert [Issued(Request(a[0], cfg))] + (x.events + y.events)
            == ([Issued(Request(a[0], cfg))] + x.events) + y.events;
      }
    }
  }

  /**
   * Commands are sent in order: the requests issued are those of a prefix
   * of `cmds`, all of them when the batch passes, none when no proxy URL
   * is set.
   */
  lemma {:induction false} BatchIssuesPrefix(cmds: seq<Sql>, cfg: CloudSqlConfig, replies: seq<Reply>)
    ensures var b := RunBatch(cmds, cfg, replies);
      && |b.events| <= |cmds|
      && b.events == Issues(cmds[..|b.events|], cfg)
      && (b.outcome.Pass? ==> |b.events| == |cmds|)
      && (cfg.proxyUrl == "" ==> b.events == [] && b.rest == replies)
    decreases |cmds|
  {
    if |cmds| > 0 && cfg.proxyUrl != "" && Answer(replies).Ok? {
      BatchIssuesPrefix(cmds[1..], cfg, Rest(replies));
      var x := RunBatch(cmds[1..], cfg, Rest(replies));
      var n := |x.events|;
      assert cmds[1..][..n] == cmds[1..n + 1];
      assert cmds[..n + 1] == [cmds[0]] + cmds[1..n + 1];
    }
  }

  /**
   * A batch passes exactly when there is nothing to send, or a proxy URL is
   * set and the proxy answers each of the commands with rows; the proxy's
   * answers are then consumed one per command.
   */
  lemma {:induction false} BatchPassIff(cmds: seq<Sql>, cfg: CloudSqlConfig, replies: seq<Reply>)
    ensures var b := RunBatch(cmds, cfg, replies);
      b.outcome.Pass? <==>
        (|cmds| == 0 || (cfg.proxyUrl != "" && |cmds| <= |replies| &&
                         forall k :: 0 <= k < |cmds| ==> replies[k].Rows?))
    ensures var b := RunBatch(cmds, cfg, replies);
      b.outcome.Pass? && |cmds| > 0 ==> b.rest == replies[|cmds|..]
    decreases |cmds|
  {
    if |cmds| > 0 && cfg.proxyUrl != "" {
      if Answer(replies).Ok? {
        BatchPassIff(cmds[1..], cfg, Rest(replies));
        var tail := Rest(replies);
        assert tail == replies[1..];
        if |cmds| > 1 {
          assert forall k :: 1 <= k < |cmds| && k < |replies| ==> replies[k] == tail[k - 1];
        }
      }
    }
  }

  /** The first `n` answers exist and are rows. */
  predicate RowsUpTo(replies: seq<Reply>, n: nat)
  {
    n <= |replies| && forall k :: 0 <= k < n ==> replies[k].Rows?
  }

  /**
   * With a proxy URL set, a failed batch stops at the first command whose
   * answer is not rows, and that is the last command sent.
   */
  lemma {:induction false} BatchFailsAtFirstBadAnswer(cmds: seq<Sql>, cfg: CloudSqlConfig, replies: seq<Reply>)
    requires cfg.proxyUrl != ""
    ensures var b := RunBatch(cmds, cfg, replies);
      b.outcome.Fail? ==>
        && 1 <= |b.events| <= |cmds|
        && RowsUpTo(replies, |b.events| - 1)
        && !RowsUpTo(replies, |b.events|)
    decreases |cmds|
  {
    if |cmds| > 0 && Answer(replies).Ok? {
      var tail := Rest(replies);
      BatchFailsAtFirstBadAnswer(cmds[1..], cfg, tail);
      var x := RunBatch(cmds[1..], cfg, tail);
      if x.outcome.Fail? {
        var n := |x.events|;
        RowsUpToCons(replies, n - 1);
        RowsUpToCons(replies, n);
      }
    }
  }

  /** Past a first answer that is rows, the rows-prefix of the rest is one shorter. */
  lemma RowsUpToCons(replies: seq<Reply>, n: nat)
    requires |replies| > 0 && replies[0].Rows?
    ensures RowsUpTo(replies, n + 1) <==> RowsUpTo(Rest(replies), n)
  {
    var tail := Rest(replies);
    assert tail == replies[1..];
    if RowsUpTo(tail, n) {
      forall k | 0 <= k < n + 1 ensures replies[k].Rows? {
        if k > 0 {
          assert replies[k] == tail[k - 1];
        }
      }
    }
    if RowsUpTo(replies, n + 1) {
      forall k | 0 <= k < n ensures tail[k].Rows? {
        assert tail[k] == replies[k + 1];
      }
    }
  }

  // ---------------------------------------------------------------------
  // List surgery of genericSave

  datatype SaveAction = Add | Update | Delete

  /** `findIndex(i => i.id === id)`: the first position holding `id`, or -1. */
  function FindIndex(list: seq<Row>, id: Option<Json>): (idx: int)
    ensures -1 <= idx < |list|
    ensures idx == -1 <==> forall k :: 0 <= k < |list| ==> IdOf(list[k]) != id
    ensures idx >= 0 ==> IdOf(list[idx]) == id && forall k :: 0 <= k < idx ==> IdOf(list[k]) != id
  {
    if |list| == 0 then -1
    else if IdOf(list[0]) == id then 0
    else
      var i := FindIndex(list[1..], id);
      if i == -1 then -1 else i + 1
  }

  /** `filter(i => i.id !== id)`. */
  function RemoveId(list: seq<Row>, id: Option<Json>): (r: seq<Row>)
    ensures |r| <= |list|
    ensures forall k :: 0 <= k < |r| ==> IdOf(r[k]) != id
  {
    if |list| == 0 then []
    else (if IdOf(list[0]) != id then [list[0]] else []) + RemoveId(list[1..], id)
  }

  /** The number of elements holding `id`. */
  function CountId(list: seq<Row>, id: Option<Json>): nat
  {
    if |list| == 0 then 0 else (if IdOf(list[0]) == id then 1 else 0) + CountId(list[1..], id)
  }

  /** `list.some(u => u.id === id)`. */
  predicate HasId(list: seq<Row>, id: Option<Json>)
  {
    exists k :: 0 <= k < |list| && IdOf(list[k]) == id
  }

  /**
   * registerUsedId's `some` test and genericSave's `findIndex` agree: an id
   * is present exactly when `findIndex` finds it.
   */
  lemma HasIdIffFound(list: seq<Row>, id: Option<Json>)
    ensures HasId(list, id) <==> FindIndex(list, id) != -1
  {
    if HasId(list, id) {
      var k :| 0 <= k < |list| && IdOf(list[k]) == id;
      assert FindIndex(list, id) != -1;
    }
  }

  /** The list genericSave builds from a copy of the local list. */
  function Applied(action: SaveAction, list: seq<Row>, item: Row): (r: seq<Row>)
    ensures action == Add ==> |r| == |list| + 1 && r[|list|] == item
    ensures action == Update ==> |r| == |list|
    ensures action == Delete ==> |r| <= |list| && forall k :: 0 <= k < |r| ==> IdOf(r[k]) != IdOf(item)
    ensures action != Delete ==> forall k :: 0 <= k < |list| && r[k] != list[k] ==> r[k] == item
  {
    match action
    case Delete => RemoveId(list, IdOf(item))
    case Update =>
      var idx := FindIndex(list, IdOf(item));
      if idx == -1 then list else list[idx := item]
    case Add => list + [item]
  }

  /** The rows a table mirrors: a collection, or the one company-config row. */
  function Collection(st: State, table: Table): seq<Row>
  {
    match table
    case AppUsers => st.users
    case AppProjects => st.projects
    case AppGems => st.gems
    case AppTools => st.tools
    case AppUsedIds => st.usedIds
    case AppTrainingModules => st.modules
    case AppConfig => [ConfigRow(st.company)]
  }

  /** The collections genericSave stores the new list into; the used ids are not among them. */
  function WrittenBack(st: State, table: Table, newList: seq<Row>): (r: State)
    ensures table != AppUsedIds && table != AppConfig ==> Collection(r, table) == newList
    ensures table == AppUsedIds || table == AppConfig ==> r == st
    ensures forall t :: t != table ==> Collection(r, t) == Collection(st, t)
    ensures r.usedIds == st.usedIds && r.company == st.company && r.cloud == st.cloud
  {
    match table
    case AppUsers => st.(users := newList)
    case AppProjects => st.(projects := newList)
    case AppGems => st.(gems := newList)
    case AppTools => st.(tools := newList)
    case AppTrainingModules => st.(modules := newList)
    case AppUsedIds => st
    case AppConfig => st
  }

  /** The remote mirror of a save. */
  function SaveCommand(action: SaveAction, table: Table, item: Row): (c: Sql)
    ensures (c.Upsert? || c.DeleteById?) && c.table == table && c.id == IdParam(item)
    ensures c.DeleteById? <==> action == Delete
    ensures c.Upsert? ==> c.content == JObj(item)
  {
    if action == Delete then DeleteById(table, IdParam(item)) else Upsert(table, IdParam(item), JObj(item))
  }

  /** What genericGet returns: remote rows when mirroring and the read succeeds, else the local list. */
  function Fetched(local: seq<Row>, cfg: CloudSqlConfig, replies: seq<Reply>): (r: seq<Row>)
    ensures r == local || (Mirrors(cfg) && |replies| > 0 && replies[0].Rows? && r == replies[0].rows)
  {
    if Mirrors(cfg) then
      match Answer(replies)
      case Ok(rows) => rows
      case Err(_) => local
    else local
  }

  lemma AddAppends(list: seq<Row>, item: Row)
    ensures var r := Applied(Add, list, item);
      |r| == |list| + 1 && r[..|list|] == list && r[|list|] == item
  {
  }

  lemma {:induction false} CountIdAppend(a: seq<Row>, b: seq<Row>, id: Option<Json>)
    ensures CountId(a + b, id) == CountId(a, id) + CountId(b, id)
    decreases |a|
  {
    if |a| == 0 {
      assert a + b == b;
    } else {
      assert (a + b)[0] == a[0];
      assert (a + b)[1..] == a[1..] + b;
      CountIdAppend(a[1..], b, id);
    }
  }

  /** No duplicate check: adding an id already present makes one more element with it. */
  lemma AddCountsOneMore(list: seq<Row>, item: Row)
    ensures CountId(Applied(Add, list, item), IdOf(item)) == CountId(list, IdOf(item)) + 1
  {
    CountIdAppend(list, [item], IdOf(item));
  }

  lemma UpdateReplacesFirst(list: seq<Row>, item: Row)
    ensures var r := Applied(Update, list, item);
      && |r| == |list|
      && ((forall k :: 0 <= k < |list| ==> IdOf(list[k]) != IdOf(item)) ==> r == list)
      && (forall i :: 0 <= i < |list| && IdOf(list[i]) == IdOf(item) &&
                      (forall k :: 0 <= k < i ==> IdOf(list[k]) != IdOf(item)) ==>
            r[i] == item && forall k :: 0 <= k < |list| && k != i ==> r[k] == list[k])
  {
  }

  lemma {:induction false} RemoveIdAppend(a: seq<Row>, b: seq<Row>, id: Option<Json>)
    ensures RemoveId(a + b, id) == RemoveId(a, id) + RemoveId(b, id)
    decreases |a|
  {
    if |a| == 0 {
      assert a + b == b;
    } else {
      var head := if IdOf(a[0]) != id then [a[0]] else [];
      assert (a + b)[0] == a[0];
      assert (a + b)[1..] == a[1..] + b;
      RemoveIdAppend(a[1..], b, id);
      calc {
        RemoveId(a + b, id);
        head + RemoveId(a[1..] + b, id);
        head + (RemoveId(a[1..], id) + RemoveId(b, id));
        (head + RemoveId(a[1..], id)) + RemoveId(b, id);
        RemoveId(a, id) + RemoveId(b, id);
      }
    }
  }

  lemma {:induction false} RemoveIdAbsent(list: seq<Row>, id: Option<Json>)
    requires forall k :: 0 <= k < |list| ==> IdOf(list[k]) != id
    ensures RemoveId(list, id) == list
    decreases |list|
  {
    if |list| > 0 {
      RemoveIdAbsent(list[1..], id);
    }
  }

  lemma {:induction false} RemoveIdCount(list: seq<Row>, id: Option<Json>)
    ensures |RemoveId(list, id)| == |list| - CountId(list, id)
    ensures CountId(RemoveId(list, id), id) == 0
    decreases |list|
  {
    if |list| > 0 {
      RemoveIdCount(list[1..], id);
      var head := if IdOf(list[0]) != id then [list[0]] else [];
      CountIdAppend(head, RemoveId(list[1..], id), id);
    }
  }

  /**
   * Delete keeps exactly the elements with another id: nothing is added, and
   * every element whose id differs survives.
   */
  lemma {:induction false} RemoveIdMembers(list: seq<Row>, id: Option<Json>)
    ensures forall x :: x in RemoveId(list, id) <==> x in list && IdOf(x) != id
    decreases |list|
  {
    if |list| > 0 {
      RemoveIdMembers(list[1..], id);
      assert list == [list[0]] + list[1..];
    }
  }

  /**
   * genericGet's fallback: the remote rows are used only when mirroring is on
   * and the proxy answers with rows; in every other case the local list.
   */
  lemma FetchedFallsBack(local: seq<Row>, cfg: CloudSqlConfig, replies: seq<Reply>)
    ensures Mirrors(cfg) && |replies| > 0 && replies[0].Rows? ==> Fetched(local, cfg, replies) == replies[0].rows
    ensures !(Mirrors(cfg) && |replies| > 0 && replies[0].Rows?) ==> Fetched(local, cfg, replies) == local
  {
  }

  // ---------------------------------------------------------------------
  // Remote batches of the service

  function ContentType(p: Provider): string
  {
    if p == Postgres then "JSONB" else "JSON"
  }

  /** The tables initializeCloudSchema creates, in order. */
  function SchemaCommands(p: Provider): (cmds: seq<Sql>)
    ensures |cmds| == 7
    ensures forall k :: 0 <= k < |cmds| ==>
      cmds[k].CreateTable? && cmds[k].contentType == ContentType(p) && Rank(cmds[k].table) == k
  {
    var ty := ContentType(p);
    [CreateTable(AppUsers, ty), CreateTable(AppProjects, ty), CreateTable(AppGems, ty),
     CreateTable(AppTools, ty), CreateTable(AppUsedIds, ty), CreateTable(AppTrainingModules, ty),
     CreateTable(AppConfig, ty)]
  }

  /** One upsert per item, in list order. */
  function UpsertCommands(table: Table, items: seq<Row>): (cmds: seq<Sql>)
    ensures |cmds| == |items|
  {
    seq(|items|, k requires 0 <= k < |items| => Upsert(table, IdParam(items[k]), JObj(items[k])))
  }

  /** `{id: 'global_config', ...companyConfig}`. */
  function ConfigRow(c: CompanyConfig): Row
  {
    map["id" := JStr("global_config"), "title" := JStr(c.title), "subtitle" := JStr(c.subtitle)]
  }

  /** The config row carries the fixed id and exactly the company config's two fields. */
  lemma ConfigRowHolds(c: CompanyConfig)
    ensures var r := ConfigRow(c);
      && r.Keys == {"id", "title", "subtitle"}
      && IdOf(r) == Some(JStr("global_config")) && IdParam(r) == JStr("global_config")
      && r["title"] == JStr(c.title) && r["subtitle"] == JStr(c.subtitle)
  {
  }

  function ConfigCommand(c: CompanyConfig): Sql
  {
    Upsert(AppConfig, JStr("global_config"), JObj(ConfigRow(c)))
  }

  /** migrateLocalToCloud's upserts: users, projects, gems, tools, used ids, modules, config. */
  function MigrationCommands(st: State): (cmds: seq<Sql>)
    ensures |cmds| == |st.users| + |st.projects| + |st.gems| + |st.tools| + |st.usedIds| + |st.modules| + 1
  {
    UpsertCommands(AppUsers, st.users) +
    (UpsertCommands(AppProjects, st.projects) +
    (UpsertCommands(AppGems, st.gems) +
    (UpsertCommands(AppTools, st.tools) +
    (UpsertCommands(AppUsedIds, st.usedIds) +
    (UpsertCommands(AppTrainingModules, st.modules) +
     UpsertCommands(AppConfig, [ConfigRow(st.company)]))))))
  }

  /** The position of a table in the migration order. */
  function Rank(t: Table): nat
  {
    match t
    case AppUsers => 0
    case AppProjects => 1
    case AppGems => 2
    case AppTools => 3
    case AppUsedIds => 4
    case AppTrainingModules => 5
    case AppConfig => 6
  }

  predicate UpsertsIn(cmds: seq<Sql>, t: Table)
  {
    forall k :: 0 <= k < |cmds| ==> cmds[k].Upsert? && cmds[k].table == t
  }

  lemma UpsertCommandsIn(t: Table, items: seq<Row>)
    ensures UpsertsIn(UpsertCommands(t, items), t)
  {
  }

  /** Upserts into tables of non-decreasing rank. */
  predicate RankOrdered(cmds: seq<Sql>)
  {
    (forall k :: 0 <= k < |cmds| ==> cmds[k].Upsert?) &&
    forall i, j :: 0 <= i < j < |cmds| ==> Rank(cmds[i].table) <= Rank(cmds[j].table)
  }

  lemma PrependRanked(a: seq<Sql>, t: Table, b: seq<Sql>)
    requires UpsertsIn(a, t) && RankOrdered(b)
    requires forall k :: 0 <= k < |b| ==> Rank(t) <= Rank(b[k].table)
    ensures RankOrdered(a + b)
  {
    var c := a + b;
    forall i, j | 0 <= i < j < |c| ensures Rank(c[i].table) <= Rank(c[j].table) {
      if j < |a| {
        assert c[i] == a[i] && c[j] == a[j];
      } else if i < |a| {
        assert c[i] == a[i] && c[j] == b[j - |a|];
      } else {
        assert c[i] == b[i - |a|] && c[j] == b[j - |a|];
      }
    }
  }

  /** From position `off` on, `cmds` holds one upsert per item of `items`, in order. */
  predicate UpsertsAt(cmds: seq<Sql>, off: nat, t: Table, items: seq<Row>)
  {
    && off + |items| <= |cmds|
    && forall k :: 0 <= k < |items| ==> cmds[off + k] == Upsert(t, IdParam(items[k]), JObj(items[k]))
  }

  /**
   * Putting the upserts of `items` in front of `c`: they come first, and
   * every block of `c` moves back by their number.
   */
  lemma UpsertsPrepend(t: Table, items: seq<Row>, c: seq<Sql>)
    ensures UpsertsAt(UpsertCommands(t, items) + c, 0, t, items)
    ensures forall off: nat, t', items' :: UpsertsAt(c, off, t', items') ==>
      UpsertsAt(UpsertCommands(t, items) + c, |items| + off, t', items')
  {
    var u := UpsertCommands(t, items);
    forall off: nat, t', items' | UpsertsAt(c, off, t', items')
      ensures UpsertsAt(u + c, |items| + off, t', items')
    {
      forall k | 0 <= k < |items'|
        ensures (u + c)[|items| + off + k] == Upsert(t', IdParam(items'[k]), JObj(items'[k]))
      {
        assert (u + c)[|items| + off + k] == c[off + k];
      }
    }
  }

  /**
   * The migration upserts every user, then every project, gem, tool, used
   * id and module, each collection in its own order, and ends with the one
   * company-config row; nothing else is sent.
   */
  lemma MigrationBlocks(st: State)
    ensures var cmds := MigrationCommands(st);
      var o1 := |st.users|;
      var o2 := o1 + |st.projects|;
      var o3 := o2 + |st.gems|;
      var o4 := o3 + |st.tools|;
      var o5 := o4 + |st.usedIds|;
      var o6 := o5 + |st.modules|;
      && |cmds| == o6 + 1
      && UpsertsAt(cmds, 0, AppUsers, st.users)
      && UpsertsAt(cmds, o1, AppProjects, st.projects)
      && UpsertsAt(cmds, o2, AppGems, st.gems)
      && UpsertsAt(cmds, o3, AppTools, st.tools)
      && UpsertsAt(cmds, o4, AppUsedIds, st.usedIds)
      && UpsertsAt(cmds, o5, AppTrainingModules, st.modules)
      && cmds[o6] == ConfigCommand(st.company)
  {
    var c6 := UpsertCommands(AppConfig, [ConfigRow(st.company)]);
    var c5 := UpsertCommands(AppTrainingModules, st.modules) + c6;
    var c4 := UpsertCommands(AppUsedIds, st.usedIds) + c5;
    var c3 := UpsertCommands(AppTools, st.tools) + c4;
    var c2 := UpsertCommands(AppGems, st.gems) + c3;
    var c1 := UpsertCommands(AppProjects, st.projects) + c2;
    UpsertsPrepend(AppTrainingModules, st.modules, c6);
    UpsertsPrepend(AppUsedIds, st.usedIds, c5);
    UpsertsPrepend(AppTools, st.tools, c4);
    UpsertsPrepend(AppGems, st.gems, c3);
    UpsertsPrepend(AppProjects, st.projects, c2);
    UpsertsPrepend(AppUsers, st.users, c1);
    UpsertsPrepend(AppConfig, [ConfigRow(st.company)], []);
    var o6 := |st.users| + |st.projects| + |st.gems| + |st.tools| + |st.usedIds| + |st.modules|;
    assert UpsertsAt(MigrationCommands(st), o6, AppConfig, [ConfigRow(st.company)]);
  }

  /** The migration's upserts go to the tables in the fixed order. */
  lemma MigrationOrder(st: State)
    ensures RankOrdered(MigrationCommands(st))
  {
    var c6 := UpsertCommands(AppConfig, [ConfigRow(st.company)]);
    var c5 := UpsertCommands(AppTrainingModules, st.modules) + c6;
    var c4 := UpsertCommands(AppUsedIds, st.usedIds) + c5;
    var c3 := UpsertCommands(AppTools, st.tools) + c4;
    var c2 := UpsertCommands(AppGems, st.gems) + c3;
    var c1 := UpsertCommands(AppProjects, st.projects) + c2;
    assert RankOrdered(c6);
    PrependRanked(UpsertCommands(AppTrainingModules, st.modules), AppTrainingModules, c6);
    PrependRanked(UpsertCommands(AppUsedIds, st.usedIds), AppUsedIds, c5);
    PrependRanked(UpsertCommands(AppTools, st.tools), AppTools, c4);
    PrependRanked(UpsertCommands(AppGems, st.gems), AppGems, c3);
    PrependRanked(UpsertCommands(AppProjects, st.projects), AppProjects, c2);
    PrependRanked(UpsertCommands(AppUsers, st.users), AppUsers, c1);
  }

  /** Continuing a passed batch with `b + c` is continuing with `b`, then with `c`. */
  lemma ThenAppend(x: Batch, b: seq<Sql>, c: seq<Sql>, cfg: CloudSqlConfig)
    ensures Then(x, b + c, cfg) == Then(Then(x, b, cfg), c, cfg)
  {
    if x.outcome.Pass? {
      BatchAppend(b, c, cfg, x.rest);
      var y := RunBatch(b, cfg, x.rest);
      if y.outcome.Pass? {
        var z := RunBatch(c, cfg, y.rest);
        assert x.events + (y.events + z.events) == (x.events + y.events) + z.events;
      }
    }
  }

  /**
   * migrateLocalToCloud step by step: one `upsert` per collection, each
   * continuing the batch so far.
   */
  function MigrationRun(st: State, cfg: CloudSqlConfig, replies: seq<Reply>): Batch
  {
    var b0 := Then(Batch([], replies, Pass), UpsertCommands(AppUsers, st.users), cfg);
    var b1 := Then(b0, UpsertCommands(AppProjects, st.projects), cfg);
    var b2 := Then(b1, UpsertCommands(AppGems, st.gems), cfg);
    var b3 := Then(b2, UpsertCommands(AppTools, st.tools), cfg);
    var b4 := Then(b3, UpsertCommands(AppUsedIds, st.usedIds), cfg);
    var b5 := Then(b4, UpsertCommands(AppTrainingModules, st.modules), cfg);
    Then(b5, UpsertCommands(AppConfig, [ConfigRow(st.company)]), cfg)
  }

  /** The seven upserts together are one batch of all the migration commands. */
  lemma MigrationRunIsBatch(st: State, cfg: CloudSqlConfig, replies: seq<Reply>)
    ensures MigrationRun(st, cfg, replies) == RunBatch(MigrationCommands(st), cfg, replies)
  {
    var u0 := UpsertCommands(AppUsers, st.users);
    var u1 := UpsertCommands(AppProjects, st.projects);
    var u2 := UpsertCommands(AppGems, st.gems);
    var u3 := UpsertCommands(AppTools, st.tools);
    var u4 := UpsertCommands(AppUsedIds, st.usedIds);
    var u5 := UpsertCommands(AppTrainingModules, st.modules);
    var u6 := UpsertCommands(AppConfig, [ConfigRow(st.company)]);
    var start := Batch([], replies, Pass);
    assert Then(start, MigrationCommands(st), cfg) == RunBatch(MigrationCommands(st), cfg, replies);
    var b0 := Then(start, u0, cfg);
    var b1 := Then(b0, u1, cfg);
    var b2 := Then(b1, u2, cfg);
    var b3 := Then(b2, u3, cfg);
    var b4 := Then(b3, u4, cfg);
    var b5 := Then(b4, u5, cfg);
    ThenAppend(start, u0, u1 + (u2 + (u3 + (u4 + (u5 + u6)))), cfg);
    ThenAppend(b0, u1, u2 + (u3 + (u4 + (u5 + u6))), cfg);
    ThenAppend(b1, u2, u3 + (u4 + (u5 + u6)), cfg);
    ThenAppend(b2, u3, u4 + (u5 + u6), cfg);
    ThenAppend(b3, u4, u5 + u6, cfg);
    ThenAppend(b4, u5, u6, cfg);
  }

  // ---------------------------------------------------------------------
  // Reset and the raw table view

  /** resetToDefaults: the five seeded collections; used ids and configs are kept. */
  function Reset(st: State, seeds: SeedSet): (r: State)
    ensures r.users == seeds.users && r.projects == seeds.projects && r.gems == seeds.gems
    ensures r.tools == seeds.tools && r.modules == seeds.modules
    ensures r.usedIds == st.usedIds && r.company == st.company && r.cloud == st.cloud
  {
    st.(users := seeds.users, projects := seeds.projects, gems := seeds.gems, tools := seeds.tools,
        modules := seeds.modules)
  }

  /** Resetting restores the seeds, keeps the used ids and both configs, and a second reset changes nothing. */
  lemma ResetKeeps(st: State, seeds: SeedSet)
    ensures var r := Reset(st, seeds);
      && r.users == seeds.users && r.projects == seeds.projects && r.gems == seeds.gems
      && r.tools == seeds.tools && r.modules == seeds.modules
      && r.usedIds == st.usedIds && r.company == st.company && r.cloud == st.cloud
      && Reset(r, seeds) == r
  {
  }

  /** getTableData: the four browsable collections by admin-view name, else nothing. */
  function TableData(st: State, name: string): (rows: seq<Row>)
    ensures !MapsToTable(name) ==> rows == []
    ensures name == "USERS" ==> rows == Collection(st, AppUsers)
    ensures name == "PROJECTS" ==> rows == Collection(st, AppProjects)
    ensures name == "GEMS" ==> rows == Collection(st, AppGems)
    ensures name == "TOOLS" ==> rows == Collection(st, AppTools)
  {
    if name == "USERS" then st.users
    else if name == "PROJECTS" then st.projects
    else if name == "GEMS" then st.gems
    else if name == "TOOLS" then st.tools
    else []
  }

  // ---------------------------------------------------------------------
  // Column changes of alterTable

  datatype ColumnAction = AddColumn | DropColumn

  /** `{...row, [field]: ''}` or the row without `field`. */
  function AlterRow(row: Row, action: ColumnAction, field: string): (r: Row)
    ensures action == AddColumn ==> r.Keys == row.Keys + {field} && r[field] == JStr("")
    ensures action == DropColumn ==> r.Keys == row.Keys - {field}
    ensures forall k :: k in r && k != field ==> r[k] == row[k]
  {
    if action == AddColumn then row[field := JStr("")] else row - {field}
  }

  function AlterRows(rows: seq<Row>, action: ColumnAction, field: string): (r: seq<Row>)
    ensures |r| == |rows|
    ensures forall i :: 0 <= i < |r| ==> r[i] == AlterRow(rows[i], action, field)
  {
    seq(|rows|, i requires 0 <= i < |rows| => AlterRow(rows[i], action, field))
  }

  /** The names alterTable's lookup object maps to a remote table. */
  predicate MapsToTable(name: string)
  {
    name == "USERS" || name == "PROJECTS" || name == "GEMS" || name == "TOOLS"
  }

  /**
   * The properties every plain object inherits from Object.prototype; each
   * of them reads as a truthy value from alterTable's lookup object.
   */
  const PrototypeKeys: set<string> := {
    "constructor", "hasOwnProperty", "isPrototypeOf", "propertyIsEnumerable",
    "toLocaleString", "toString", "valueOf", "__proto__",
    "__defineGetter__", "__defineSetter__", "__lookupGetter__", "__lookupSetter__"}

  /** `map[tableName]` is truthy: a mapped name or an inherited property. */
  predicate HasInternalName(name: string)
    ensures MapsToTable(name) ==> HasInternalName(name)
    ensures HasInternalName(name) && !MapsToTable(name) ==> name in PrototypeKeys
  {
    MapsToTable(name) || name in PrototypeKeys
  }

  /** The local effect of alterTable: only USERS and PROJECTS are stored back. */
  function Altered(st: State, name: string, action: ColumnAction, field: string): (r: State)
    ensures name == "USERS" ==> r.users == AlterRows(st.users, action, field) && r == st.(users := r.users)
    ensures name == "PROJECTS" ==> r.projects == AlterRows(st.projects, action, field) && r == st.(projects := r.projects)
    ensures name != "USERS" && name != "PROJECTS" ==> r == st
  {
    var updated := AlterRows(TableData(st, name), action, field);
    if name == "USERS" then st.(users := updated)
    else if name == "PROJECTS" then st.(projects := updated)
    else st
  }

  /**
   * ADD_COLUMN gives every row the field with value '' (overwriting a value
   * it had) and leaves its other fields as they were.
   */
  lemma AddColumnSetsEmpty(rows: seq<Row>, field: string)
    ensures var r := AlterRows(rows, AddColumn, field);
      |r| == |rows| &&
      forall i :: 0 <= i < |r| ==>
        && field in r[i] && r[i][field] == JStr("")
        && (forall k :: k != field ==> (k in r[i] <==> k in rows[i]))
        && (forall k :: k in rows[i] && k != field ==> r[i][k] == rows[i][k])
  {
  }

  /** DROP_COLUMN removes the field from every row and keeps the others. */
  lemma DropColumnRemoves(rows: seq<Row>, field: string)
    ensures var r := AlterRows(rows, DropColumn, field);
      |r| == |rows| &&
      forall i :: 0 <= i < |r| ==>
        && field !in r[i]
        && (forall k :: k != field ==> (k in r[i] <==> k in rows[i]))
        && (forall k :: k in r[i] ==> r[i][k] == rows[i][k])
  {
  }

  /** Dropping then adding a column is the same as adding it. */
  lemma DropThenAdd(rows: seq<Row>, field: string)
    ensures AlterRows(AlterRows(rows, DropColumn, field), AddColumn, field) == AlterRows(rows, AddColumn, field)
  {
    var a := AlterRows(AlterRows(rows, DropColumn, field), AddColumn, field);
    var b := AlterRows(rows, AddColumn, field);
    forall i | 0 <= i < |rows| ensures a[i] == b[i] {
      assert a[i] == (rows[i] - {field})[field := JStr("")];
    }
  }

  /** Adding a column twice is adding it once. */
  lemma AddTwice(rows: seq<Row>, field: string)
    ensures AlterRows(AlterRows(rows, AddColumn, field), AddColumn, field) == AlterRows(rows, AddColumn, field)
  {
    var a := AlterRows(AlterRows(rows, AddColumn, field), AddColumn, field);
    var b := AlterRows(rows, AddColumn, field);
    forall i | 0 <= i < |rows| ensures a[i] == b[i] {
      assert a[i] == rows[i][field := JStr("")][field := JStr("")];
    }
  }

  /**
   * Names other than USERS and PROJECTS leave the state as it was: GEMS and
   * TOOLS are mapped to remote tables but their altered rows are dropped.
   */
  lemma AlterOnlyUsersAndProjects(st: State, name: string, action: ColumnAction, field: string)
    ensures name != "USERS" && name != "PROJECTS" ==> Altered(st, name, action, field) == st
    ensures var r := Altered(st, name, action, field);
      r.gems == st.gems && r.tools == st.tools && r.usedIds == st.usedIds && r.modules == st.modules &&
      r.company == st.company && r.cloud == st.cloud
  {
  }

  /**
   * A name outside the four of the lookup has no rows; only the inherited
   * property names among them still pass alterTable's guard, and for those
   * the local state is left as it was.
   */
  lemma UnmappedNames(st: State, name: string, action: ColumnAction, field: string)
    requires !MapsToTable(name)
    ensures TableData(st, name) == []
    ensures HasInternalName(name) <==> name in PrototypeKeys
    ensures Altered(st, name, action, field) == st
  {
  }

  /** `alterTable('constructor', ...)` passes the guard although no table has that name. */
  lemma ConstructorPassesGuard()
    ensures HasInternalName("constructor") && !MapsToTable("constructor")
  {
  }

  // ---------------------------------------------------------------------
  // Persistence round trip

  /** Loading from a store just written by a save gives back the saved state. */
  lemma ReloadAfterSave(store: map<string, Stored>, st: State, seeds: SeedSet, company: CompanyConfig, cloud: CloudSqlConfig)
    ensures WellKinded(store + Snapshot(st))
    ensures Loaded(store + Snapshot(st), seeds, company, cloud) == st
  {
    var m := store + Snapshot(st);
    assert m[UsersKey] == StoredRows(st.users);
    assert m[ProjectsKey] == StoredRows(st.projects);
    assert m[GemsKey] == StoredRows(st.gems);
    assert m[ToolsKey] == StoredRows(st.tools);
    assert m[UsedIdsKey] == StoredRows(st.usedIds);
    assert m[ModulesKey] == StoredRows(st.modules);
    assert m[CompanyConfigKey] == StoredCompany(st.company);
    assert m[CloudSqlConfigKey] == StoredCloud(st.cloud);
  }

  /** A save writes exactly the eight keys, each with what the service reads back from it. */
  lemma SnapshotKeys(st: State)
    ensures var m := Snapshot(st);
      && m.Keys == {UsersKey, ProjectsKey, GemsKey, ToolsKey, UsedIdsKey, ModulesKey, CompanyConfigKey, CloudSqlConfigKey}
      && WellKinded(m)
  {
  }

  /** A second save overwrites every key the first one wrote. */
  lemma SnapshotOverwrites(store: map<string, Stored>, first: State, second: State)
    ensures store + Snapshot(first) + Snapshot(second) == store + Snapshot(second)
  {
  }

  /**
   * The application's first launch: with nothing stored, the service holds
   * the application's seed users, one row per seed user in order, no used
   * ids and the default configurations.
   */
  lemma FirstLaunch()
    ensures var st := Loaded(map[], InitialSeeds, DefaultCompanyConfig, DefaultCloudSqlConfig);
      && |st.users| == |InitialUsers|
      && (forall k :: 0 <= k < |InitialUsers| ==> st.users[k] == UserRow(InitialUsers[k]))
      && st.usedIds == [] && st.company == DefaultCompanyConfig && !Mirrors(st.cloud)
  {
    LoadEmpty(InitialSeeds, DefaultCompanyConfig, DefaultCloudSqlConfig);
  }

  /** An empty store loads the seeds, no used ids and the given configs. */
  lemma LoadEmpty(seeds: SeedSet, company: CompanyConfig, cloud: CloudSqlConfig)
    ensures WellKinded(map[])
    ensures Loaded(map[], seeds, company, cloud) ==
            State(seeds.users, seeds.projects, seeds.gems, seeds.tools, [], seeds.modules, company, cloud)
  {
  }
}
