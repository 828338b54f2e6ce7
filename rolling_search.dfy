/**
 * `RollingMixing.search`: the four queries of the mixin strategies and the join of what
 * they return. Tasks are fetched first; databases are fetched with the strategy's
 * database domain narrowed by the parent and contract flags; subscriptions only when
 * they are shown and upgrade requests only when upgrades are enabled, each for the set
 * ids of the fetched databases in database order; then the records are merged.
 */
module RollingSearch {
  import opened Python
  import opened Utils
  import opened ApiDtos
  import opened Rpc
  import D = Dtos
  import T = TitleStrategy
  import M = Mixins
  import U = UpgradeRequestService
  import ByTitle
  import ByBs4
  import Bs4Strategy

  const TaskModel := "project.task"
  const DatabaseModel := "openerp.enterprise.database"
  const SubModel := "sale.order"
  const UpgradeModel := "upgrade.request"

  /**
   * What the servers are taken to answer: task names are strings, and upgrade requests
   * carry a string `db_uuid` and an integer `id`.
   */
  ghost predicate Decodable(searchRead: SearchRead) {
    (forall q: Query, i | q.model == TaskModel && 0 <= i < |searchRead(q)| ::
      "name" in searchRead(q)[i] ==> searchRead(q)[i]["name"].PStr?) &&
    (forall q: Query | q.model == UpgradeModel :: U.AllUpgradeRows(searchRead(q)))
  }

  /** Rows every one of which `Task(**row)` accepts. */
  predicate TaskRows(rows: seq<Row>) {
    forall i | 0 <= i < |rows| :: "id" in rows[i] && "name" in rows[i] && rows[i]["name"].PStr?
  }

  /** The display names of the tasks these rows make, in order. */
  function TaskNames(rows: seq<Row>): (r: seq<string>)
    requires TaskRows(rows)
    ensures |r| == |rows| && forall i | 0 <= i < |rows| :: r[i] == DisplayNameOf(rows[i]["name"].s)
  {
    if |rows| == 0 then [] else TaskNames(rows[..|rows| - 1]) + [DisplayNameOf(rows[|rows| - 1]["name"].s)]
  }

  /** The database URLs of the tasks these rows make, in order. */
  function TaskUrls(rows: seq<Row>, href: HrefOf): (r: seq<string>)
    ensures |r| == |rows| && forall i | 0 <= i < |rows| :: r[i] == DatabaseUrlOf(Arg(rows[i], "description", PNone), href)
  {
    if |rows| == 0 then []
    else TaskUrls(rows[..|rows| - 1], href) + [DatabaseUrlOf(Arg(rows[|rows| - 1], "description", PNone), href)]
  }

  /** `row.get(key, default)` down a list of rows. */
  function Column(rows: seq<Row>, key: string, default: PyVal): (r: seq<PyVal>)
    ensures |r| == |rows| && forall i | 0 <= i < |rows| :: r[i] == Arg(rows[i], key, default)
  {
    if |rows| == 0 then [] else Column(rows[..|rows| - 1], key, default) + [Arg(rows[|rows| - 1], key, default)]
  }

  /** `self._get_tasks_fields()`, by strategy. */
  function TasksFields(kind: M.MixinKind): (r: seq<string>)
    ensures kind == M.ByTitle ==> r == ["id", "name"]
    ensures kind == M.ByBs4 ==> r == ["id", "name", "description"]
  {
    if kind == M.ByBs4 then ByBs4.TasksFields() else ByTitle.TasksFields
  }

  /**
   * `self._get_databases_domain(tasks)` for the tasks these rows make: the by-description
   * strategy overrides the hook the mixin calls, so its URL domain is the one used.
   */
  function DatabasesDomainFor(kind: M.MixinKind, taskRows: seq<Row>, cutoff: string, href: HrefOf): seq<PyVal>
    requires TaskRows(taskRows)
  {
    if kind == M.ByBs4 then Bs4Strategy.UrlDomain(TaskUrls(taskRows, href), cutoff)
    else T.DbNameDomain(TaskNames(taskRows), cutoff)
  }

  /** The two strategies send different database domains: names against URLs. */
  lemma {:induction false} DatabasesDomainByKind(taskRows: seq<Row>, cutoff: string, href: HrefOf)
    requires TaskRows(taskRows)
    ensures DatabasesDomainFor(M.ByTitle, taskRows, cutoff, href)[1].items[0] == PStr("db_name")
    ensures DatabasesDomainFor(M.ByBs4, taskRows, cutoff, href)[1].items[0] == PStr("url")
    ensures DatabasesDomainFor(M.ByTitle, taskRows, cutoff, href) != DatabasesDomainFor(M.ByBs4, taskRows, cutoff, href)
  {
    assert "db_name"[0] != "url"[0];
  }

  /** `tasks` are `[Task(**row) for row in rows]`: one per row, in order, with the row's fields. */
  predicate TasksFrom(tasks: seq<D.Task>, rows: seq<Row>) {
    TaskRows(rows) && |tasks| == |rows| && forall i | 0 <= i < |rows| ::
      tasks[i].id == rows[i]["id"] && tasks[i].name == rows[i]["name"].s &&
      tasks[i].description == Arg(rows[i], "description", PNone)
  }

  /** `dbs` are `[Database(**row) for row in rows]`: one per row, in order, with the row's fields or their defaults. */
  predicate DatabasesFrom(dbs: seq<D.Database>, rows: seq<Row>) {
    |dbs| == |rows| && forall i | 0 <= i < |rows| ::
      dbs[i].id == Arg(rows[i], "id", PNone) && dbs[i].version == Arg(rows[i], "version", PStr("NO VERSION")) &&
      dbs[i].dbName == Arg(rows[i], "db_name", PStr("NO NAME")) && dbs[i].dbUuid == Arg(rows[i], "db_uuid", PStr("")) &&
      dbs[i].parentId.value == Arg(rows[i], "parent_id", PBool(false)) &&
      dbs[i].subscriptionId == Arg(rows[i], "subscription_id", PNone)
  }

  /** `subs` are `[Subscription(**row) for row in rows]`: one per row, in order, with the row's fields or their defaults. */
  predicate SubsFrom(subs: seq<Subscription>, rows: seq<Row>) {
    |subs| == |rows| && forall i | 0 <= i < |rows| ::
      subs[i].id == Arg(rows[i], "id", PNone) && subs[i].clientOrderRef.value == Arg(rows[i], "client_order_ref", PNone)
  }

  /** `[Task(**row) for row in response]`: the first row lacking `id` or `name` fails. */
  method TasksFromRows(rows: seq<Row>, sharedDatabase: D.Database) returns (r: Result<seq<D.Task>>)
    requires forall i | 0 <= i < |rows| :: "name" in rows[i] ==> rows[i]["name"].PStr?
    ensures r.Ok? <==> TaskRows(rows)
    ensures r.Ok? ==> TasksFrom(r.value, rows)
    ensures r.Ok? ==> |r.value| == |rows| && forall i | 0 <= i < |rows| ::
      fresh(r.value[i]) && r.value[i].id == rows[i]["id"] && r.value[i].name == rows[i]["name"].s &&
      r.value[i].description == Arg(rows[i], "description", PNone) && r.value[i].database == sharedDatabase
  {
    var tasks: seq<D.Task> := [];
    for i := 0 to |rows|
      invariant TaskRows(rows[..i])
      invariant |tasks| == i && forall j | 0 <= j < i ::
        fresh(tasks[j]) && tasks[j].id == rows[j]["id"] && tasks[j].name == rows[j]["name"].s &&
        tasks[j].description == Arg(rows[j], "description", PNone) && tasks[j].database == sharedDatabase
    {
      var t := D.Task.FromRow(rows[i], sharedDatabase);
      if t.Err? {
        assert !TaskRows(rows);
        return Err(t.error);
      }
      tasks := tasks + [t.value];
    }
    assert rows[..|rows|] == rows;
    r := Ok(tasks);
  }

  /** `[Database(**row) for row in response]`. */
  method DatabasesFromRows(rows: seq<Row>, classSubscription: Subscription) returns (dbs: seq<D.Database>)
    ensures DatabasesFrom(dbs, rows)
    ensures forall d | d in dbs ::
      fresh(d) && fresh(d.parentId) && d.parentId.valueIfTrue == PBool(false) &&
      d.subscription == classSubscription && d.upgradeRequest == None
  {
    dbs := [];
    for i := 0 to |rows|
      invariant DatabasesFrom(dbs, rows[..i])
      invariant forall d | d in dbs ::
        fresh(d) && fresh(d.parentId) && d.parentId.valueIfTrue == PBool(false) &&
        d.subscription == classSubscription && d.upgradeRequest == None
    {
      var d := D.Database.FromRow(rows[i], classSubscription);
      dbs := dbs + [d];
    }
    assert rows[..|rows|] == rows;
  }

  /** `[Subscription(**row) for row in response]`. */
  method SubsFromRows(rows: seq<Row>) returns (subs: seq<Subscription>)
    ensures SubsFrom(subs, rows)
    ensures forall s | s in subs :: fresh(s) && fresh(s.clientOrderRef) && s.clientOrderRef.valueIfTrue == PBool(false)
  {
    subs := [];
    for i := 0 to |rows|
      invariant SubsFrom(subs, rows[..i])
      invariant forall s | s in subs :: fresh(s) && fresh(s.clientOrderRef) && s.clientOrderRef.valueIfTrue == PBool(false)
    {
      var s := Subscription.FromRow(rows[i]);
      subs := subs + [s];
    }
    assert rows[..|rows|] == rows;
  }

  /** The subscription ids and `db_uuid`s of the databases, in order. */
  function SubscriptionIds(dbs: seq<D.Database>): (r: seq<PyVal>)
    ensures |r| == |dbs| && forall i | 0 <= i < |dbs| :: r[i] == dbs[i].subscriptionId
  {
    if |dbs| == 0 then [] else SubscriptionIds(dbs[..|dbs| - 1]) + [dbs[|dbs| - 1].subscriptionId]
  }

  function DbUuids(dbs: seq<D.Database>): (r: seq<PyVal>)
    ensures |r| == |dbs| && forall i | 0 <= i < |dbs| :: r[i] == dbs[i].dbUuid
  {
    if |dbs| == 0 then [] else DbUuids(dbs[..|dbs| - 1]) + [dbs[|dbs| - 1].dbUuid]
  }

  /** The query of `_get_subs(sub_ids)`. */
  function SubsQuery(st: M.MixinState, dbRows: seq<Row>): Query {
    Query(st.odooRpc, SubModel, ByTitle.SubsDomain(TruthyOnly(Column(dbRows, "subscription_id", PNone))),
      ByTitle.SubsFields, st.limit)
  }

  /** The query of `_get_upgrade_request(db_uuids)`, on the upgrade server. */
  function UpgradeQuery(st: M.MixinState, dbRows: seq<Row>): Query
    requires st.upgradeRpc.Some?
  {
    Query(st.upgradeRpc.value, UpgradeModel, T.UpgradeRequestDomainFor(TruthyOnly(Column(dbRows, "db_uuid", PStr("")))),
      ByTitle.UpgradeRequestFields, st.limit)
  }

  /**
   * The optional part of `search()`: subscriptions exactly when they are shown and the
   * latest upgrade request per database exactly when upgrades are enabled, each fetched
   * for the set ids of the databases, in database order.
   */
  method FetchExtras(st: M.MixinState, searchRead: SearchRead, databases: seq<D.Database>, dbRows: seq<Row>)
    returns (subs: Option<seq<Subscription>>, requests: Option<seq<UpgradeRequest>>, extra: seq<Query>)
    requires Decodable(searchRead)
    requires st.upgradeEnabled ==> st.upgradeRpc.Some?
    requires SubscriptionIds(databases) == Column(dbRows, "subscription_id", PNone)
    requires DbUuids(databases) == Column(dbRows, "db_uuid", PStr(""))
    ensures subs.Some? <==> st.showSub
    ensures requests.Some? <==> st.upgradeEnabled
    ensures extra == ExtraQueries(st, dbRows)
    ensures subs.Some? ==> SubsFrom(subs.value, searchRead(SubsQuery(st, dbRows)))
    ensures subs.Some? ==> forall s | s in subs.value ::
      fresh(s) && fresh(s.clientOrderRef) && s.clientOrderRef.valueIfTrue == PBool(false)
    ensures requests.Some? ==> requests.value == M.LatestRequests(searchRead(UpgradeQuery(st, dbRows)))
  {
    subs := None;
    extra := [];
    if st.showSub {
      var fetched, subsQuery := FetchSubs(st, searchRead, databases, dbRows);
      extra := [subsQuery];
      subs := Some(fetched);
    }
    requests := None;
    if st.upgradeEnabled {
      var latest, upgradeQuery := FetchRequests(st, searchRead, databases, dbRows);
      extra := extra + [upgradeQuery];
      requests := Some(latest);
    }
  }

  /** `_get_subs(sub_ids)`: the subscriptions of the databases' set subscription ids. */
  method FetchSubs(st: M.MixinState, searchRead: SearchRead, databases: seq<D.Database>, dbRows: seq<Row>)
    returns (subs: seq<Subscription>, subsQuery: Query)
    requires SubscriptionIds(databases) == Column(dbRows, "subscription_id", PNone)
    ensures subsQuery == SubsQuery(st, dbRows)
    ensures SubsFrom(subs, searchRead(subsQuery))
    ensures forall s | s in subs :: fresh(s) && fresh(s.clientOrderRef) && s.clientOrderRef.valueIfTrue == PBool(false)
  {
    subsQuery := Query(st.odooRpc, SubModel, ByTitle.SubsDomain(TruthyOnly(SubscriptionIds(databases))),
      ByTitle.SubsFields, st.limit);
    subs := SubsFromRows(searchRead(subsQuery));
  }

  /** `_get_upgrade_request(db_uuids)` on the upgrade server: the latest request per database. */
  method FetchRequests(st: M.MixinState, searchRead: SearchRead, databases: seq<D.Database>, dbRows: seq<Row>)
    returns (requests: seq<UpgradeRequest>, upgradeQuery: Query)
    requires Decodable(searchRead)
    requires st.upgradeRpc.Some?
    requires DbUuids(databases) == Column(dbRows, "db_uuid", PStr(""))
    ensures upgradeQuery == UpgradeQuery(st, dbRows)
    ensures requests == M.LatestRequests(searchRead(upgradeQuery))
  {
    var uuids := TruthyOnly(DbUuids(databases));
    var requestDomain := ByTitle.GetUpgradeRequestDomain(uuids);
    upgradeQuery := Query(st.upgradeRpc.value, UpgradeModel, requestDomain, ByTitle.UpgradeRequestFields, st.limit);
    requests := LatestOf(searchRead(upgradeQuery));
  }

  /** The rest of `_get_upgrade_request`, on a fresh list holding the answered rows. */
  method LatestOf(response: seq<Row>) returns (requests: seq<UpgradeRequest>)
    requires U.AllUpgradeRows(response)
    ensures requests == M.LatestRequests(response)
  {
    var a := new Row[|response|](i requires 0 <= i < |response| => response[i]);
    assert a[..] == response;
    requests := M.KeepLatestRequests(a);
  }

  /** The optional queries of `search()`, after the databases came back as `dbRows`. */
  function ExtraQueries(st: M.MixinState, dbRows: seq<Row>): seq<Query>
    requires st.upgradeEnabled ==> st.upgradeRpc.Some?
  {
    (if st.showSub then [SubsQuery(st, dbRows)] else []) + (if st.upgradeEnabled then [UpgradeQuery(st, dbRows)] else [])
  }

  /** The strategy's database domain for the tasks these rows make, narrowed by the flags. */
  function DatabaseDomain(st: M.MixinState, kind: M.MixinKind, taskRows: seq<Row>, cutoff: string,
                          href: HrefOf): Result<seq<PyVal>>
    requires TaskRows(taskRows)
  {
    T.ExtraConfigured(DatabasesDomainFor(kind, taskRows, cutoff, href), st.withParent, st.withContract)
  }

  /** The database query sent after the task query. */
  ghost predicate DatabaseQueryAfter(st: M.MixinState, kind: M.MixinKind, searchRead: SearchRead, cutoff: string,
                                     href: HrefOf, taskQuery: Query, dbQuery: Query)
  {
    TaskRows(searchRead(taskQuery)) &&
    var dbDomain := DatabaseDomain(st, kind, searchRead(taskQuery), cutoff, href);
    dbDomain.Ok? && dbQuery == Query(st.odooRpc, DatabaseModel, dbDomain.value, ByTitle.DatabasesFields, st.limit)
  }

  /**
   * The queries `search()` sends, in order, for a mixin in state `st`, and whether it
   * gets to the merge (`ok`). The task domain, a task row without `id` or `name`, or a
   * database domain that does not normalise stop it. Otherwise it sends the task query,
   * the database query with the strategy's domain narrowed by the flags, the
   * subscription query exactly when subscriptions are shown and the upgrade-request
   * query exactly when upgrades are enabled.
   */
  ghost predicate SearchQueries(st: M.MixinState, kind: M.MixinKind, searchRead: SearchRead, cutoff: string,
                                href: HrefOf, ok: bool, queries: seq<Query>)
    requires st.upgradeEnabled ==> st.upgradeRpc.Some?
  {
    var taskDomain := T.NameFiltered(st.taskDomain, st.taskName);
    (taskDomain.Err? ==> !ok && queries == []) &&
    (taskDomain.Ok? ==>
      |queries| >= 1 && queries[0] == Query(st.odooRpc, TaskModel, taskDomain.value, TasksFields(kind), st.limit) &&
      (!TaskRows(searchRead(queries[0])) ==> !ok && |queries| == 1)) &&
    (ok ==>
      |queries| >= 2 && DatabaseQueryAfter(st, kind, searchRead, cutoff, href, queries[0], queries[1]) &&
      queries[2..] == ExtraQueries(st, searchRead(queries[1])))
  }

  /** The records `search()` fetches before merging them. */
  datatype Fetched = Fetched(tasks: seq<D.Task>, databases: seq<D.Database>, subs: Option<seq<Subscription>>,
                             requests: Option<seq<UpgradeRequest>>)

  /**
   * The fetching part of `search()` for a mixin in state `st`, with the queries it sends
   * in order.
   */
  method Fetch(st: M.MixinState, kind: M.MixinKind, searchRead: SearchRead, cutoff: string, href: HrefOf,
               sharedDatabase: D.Database, classSubscription: Subscription)
    returns (r: Result<Fetched>, queries: seq<Query>)
    requires Decodable(searchRead)
    requires st.upgradeEnabled ==> st.upgradeRpc.Some?
    ensures T.NameFiltered(st.taskDomain, st.taskName).Err? ==> r == Err(T.NameFiltered(st.taskDomain, st.taskName).error)
    ensures SearchQueries(st, kind, searchRead, cutoff, href, r.Ok?, queries)
    ensures r.Ok? ==> (r.value.subs.Some? <==> st.showSub) && (r.value.requests.Some? <==> st.upgradeEnabled)
    ensures r.Ok? ==> (forall t | t in r.value.tasks :: fresh(t)) && (forall d | d in r.value.databases :: fresh(d))
    ensures r.Ok? ==>
      TasksFrom(r.value.tasks, searchRead(queries[0])) &&
      (forall t | t in r.value.tasks :: t.database == sharedDatabase) &&
      FetchedFrom(st, searchRead, r.value, queries[1])
    ensures r.Ok? ==> forall d | d in r.value.databases ::
      d.parentId.valueIfTrue == PBool(false) && d.subscription == classSubscription && d.upgradeRequest == None
    ensures r.Ok? && r.value.subs.Some? ==> forall s | s in r.value.subs.value :: s.clientOrderRef.valueIfTrue == PBool(false)
  {
    queries := [];
    var taskDomain := T.NameFiltered(st.taskDomain, st.taskName);
    if taskDomain.Err? {
      return Err(taskDomain.error), queries;
    }
    var taskQuery := Query(st.odooRpc, TaskModel, taskDomain.value, TasksFields(kind), st.limit);
    queries := [taskQuery];
    var tasks, taskRows := FetchTasks(kind, searchRead, href, taskQuery, sharedDatabase);
    if tasks.Err? {
      return Err(tasks.error), queries;
    }
    var rest;
    r, rest := FetchDatabases(st, kind, searchRead, cutoff, href, taskRows, tasks.value, classSubscription);
    queries := queries + rest;
    assert queries[0] == taskQuery && queries[1..] == rest;
  }

  /** The answer to the task query, and `Task(**row)` for each of its rows. */
  method FetchTasks(kind: M.MixinKind, searchRead: SearchRead, href: HrefOf, taskQuery: Query,
                    sharedDatabase: D.Database)
    returns (tasks: Result<seq<D.Task>>, taskRows: seq<Row>)
    requires Decodable(searchRead)
    requires taskQuery.model == TaskModel
    ensures taskRows == searchRead(taskQuery)
    ensures tasks.Ok? <==> TaskRows(taskRows)
    ensures tasks.Ok? ==> TasksFrom(tasks.value, taskRows)
    ensures tasks.Ok? ==> forall t | t in tasks.value :: fresh(t) && t.database == sharedDatabase
    ensures tasks.Ok? && kind == M.ByBs4 ==> ByBs4.DatabaseUrls(tasks.value, href) == TaskUrls(taskRows, href)
    ensures tasks.Ok? && kind == M.ByTitle ==> ByTitle.DisplayNames(tasks.value) == TaskNames(taskRows)
  {
    taskRows := searchRead(taskQuery);
    tasks := TasksFromRows(taskRows, sharedDatabase);
    if tasks.Ok? {
      if kind == M.ByBs4 {
        assert ByBs4.DatabaseUrls(tasks.value, href) == TaskUrls(taskRows, href);
      } else {
        assert ByTitle.DisplayNames(tasks.value) == TaskNames(taskRows);
      }
    }
  }

  /**
   * The part of `search()` after the tasks came back as `taskRows`: the database query,
   * then the optional ones, with the queries sent in order.
   */
  method FetchDatabases(st: M.MixinState, kind: M.MixinKind, searchRead: SearchRead, cutoff: string, href: HrefOf,
                        taskRows: seq<Row>, tasks: seq<D.Task>, classSubscription: Subscription)
    returns (r: Result<Fetched>, queries: seq<Query>)
    requires Decodable(searchRead)
    requires st.upgradeEnabled ==> st.upgradeRpc.Some?
    requires TaskRows(taskRows)
    requires kind == M.ByBs4 ==> ByBs4.DatabaseUrls(tasks, href) == TaskUrls(taskRows, href)
    requires kind == M.ByTitle ==> ByTitle.DisplayNames(tasks) == TaskNames(taskRows)
    ensures r.Ok? <==> DatabaseDomain(st, kind, taskRows, cutoff, href).Ok?
    ensures r.Err? ==> queries == []
    ensures r.Ok? ==>
      |queries| >= 1 &&
      queries[0] == Query(st.odooRpc, DatabaseModel, DatabaseDomain(st, kind, taskRows, cutoff, href).value,
        ByTitle.DatabasesFields, st.limit) &&
      queries[1..] == ExtraQueries(st, searchRead(queries[0]))
    ensures r.Ok? ==> r.value.tasks == tasks && (r.value.subs.Some? <==> st.showSub)
    ensures r.Ok? ==> (r.value.requests.Some? <==> st.upgradeEnabled) && forall d | d in r.value.databases :: fresh(d)
    ensures r.Ok? ==> FetchedFrom(st, searchRead, r.value, queries[0])
    ensures r.Ok? ==> forall d | d in r.value.databases ::
      d.parentId.valueIfTrue == PBool(false) && d.subscription == classSubscription && d.upgradeRequest == None
    ensures r.Ok? && r.value.subs.Some? ==> forall s | s in r.value.subs.value :: s.clientOrderRef.valueIfTrue == PBool(false)
  {
    var domain: seq<PyVal>;
    if kind == M.ByBs4 {
      domain := ByBs4.GetDatabasesDomain(tasks, cutoff, href);
    } else {
      domain := ByTitle.GetDatabasesDomain(tasks, cutoff);
    }
    var dbDomain := T.ApplyExtraDomains(domain, st.withParent, st.withContract);
    if dbDomain.Err? {
      return Err(dbDomain.error), [];
    }
    var dbQuery := Query(st.odooRpc, DatabaseModel, dbDomain.value, ByTitle.DatabasesFields, st.limit);
    var dbRows := searchRead(dbQuery);
    var databases := DatabasesFromRows(dbRows, classSubscription);
    assert SubscriptionIds(databases) == Column(dbRows, "subscription_id", PNone);
    assert DbUuids(databases) == Column(dbRows, "db_uuid", PStr(""));
    var subs, requests, extra := FetchExtras(st, searchRead, databases, dbRows);
    queries := [dbQuery] + extra;
    assert queries[1..] == extra;
    r := Ok(Fetched(tasks, databases, subs, requests));
  }

  /**
   * The databases, subscriptions and requests of `f` are those built from the answers to
   * the database query `dbQuery` and to the optional queries sent after it.
   */
  ghost predicate FetchedFrom(st: M.MixinState, searchRead: SearchRead, f: Fetched, dbQuery: Query)
    requires Decodable(searchRead)
    requires st.upgradeEnabled ==> st.upgradeRpc.Some?
  {
    var dbRows := searchRead(dbQuery);
    DatabasesFrom(f.databases, dbRows) &&
    (f.subs.Some? ==> SubsFrom(f.subs.value, searchRead(SubsQuery(st, dbRows)))) &&
    (f.requests.Some? ==>
      st.upgradeEnabled && f.requests.value == M.LatestRequests(searchRead(UpgradeQuery(st, dbRows))))
  }

  /**
   * `search()` up to the merged tasks: what `Fetch` returns, joined by
   * `ByTitle.MergeRecords`, with the queries sent as `SearchQueries` describes. The cutoff
   * date, the link extraction and the class-level defaults are parameters.
   */
  method Search(m: M.RollingMixing, searchRead: SearchRead, cutoff: string, href: HrefOf,
                sharedDatabase: D.Database, classSubscription: Subscription)
    returns (r: Result<seq<D.Task>>, queries: seq<Query>)
    requires Decodable(searchRead)
    requires m.upgradeEnabled ==> m.upgradeRpc.Some?
    ensures T.NameFiltered(m.taskDomain, m.taskName).Err? ==> r == Err(T.NameFiltered(m.taskDomain, m.taskName).error)
    ensures SearchQueries(m.State(), m.kind, searchRead, cutoff, href, r.Ok?, queries)
  {
    var fetched;
    fetched, queries := Fetch(m.State(), m.kind, searchRead, cutoff, href, sharedDatabase, classSubscription);
    if fetched.Err? {
      return Err(fetched.error), queries;
    }
    var st := m.State();
    var f := fetched.value;
    var merged := ByTitle.MergeRecords(m, f.tasks, f.databases, f.subs, f.requests, classSubscription);
    assert m.State() == st;
    r := Ok(merged);
  }
}
