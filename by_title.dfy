/**
 * `RollingByTitleStrategy`: the mixin strategy that matches databases to tasks by task
 * title. It supplies the domains and fields of the four queries, joins the fetched
 * records, renders one row per task and lays out the tables.
 */
module ByTitle {
  import opened Python
  import opened Osv
  import opened DomainEval
  import opened Utils
  import opened ApiDtos
  import opened StrategyAbstract
  import D = Dtos
  import T = TitleStrategy
  import M = Mixins

  // ---------------------------------------------------------------------------
  // Domains and fields
  // ---------------------------------------------------------------------------

  /** `_get_tasks_fields()`. */
  const TasksFields: seq<string> := ["id", "name"]

  /** `_get_databases_fields()`. */
  const DatabasesFields: seq<string> :=
    ["id", "subscription_id", "version", "url", "extra_apps", "db_name", "db_uuid", "parent_id"]

  /** `_get_subs_fields()`. */
  const SubsFields: seq<string> := ["id", "client_order_ref"]

  /** `_get_upgrade_request_fields()`. */
  const UpgradeRequestFields: seq<string> := ["id", "db_uuid", "last_traceback"]

  /**
   * `_get_tasks_domain()`: the configured task domain, narrowed by the name leaf when a
   * non-empty task name is set, as in the title strategy.
   */
  method GetTasksDomain(m: M.RollingMixing) returns (r: Result<seq<PyVal>>)
    ensures r == T.NameFiltered(m.taskDomain, m.taskName)
  {
    var domain: Result<seq<PyVal>> := Ok(m.taskDomain);
    if m.taskName.Some? && m.taskName.value != "" {
      domain := And([m.taskDomain, [T.NameLeaf(m.taskName.value)]]);
    }
    r := domain;
  }

  /** The display names of the tasks, one per task, in order. */
  function DisplayNames(tasks: seq<D.Task>): (r: seq<string>)
    ensures |r| == |tasks| && forall i | 0 <= i < |tasks| :: r[i] == DisplayNameOf(tasks[i].name)
  {
    if |tasks| == 0 then [] else DisplayNames(tasks[..|tasks| - 1]) + [DisplayNameOf(tasks[|tasks| - 1].name)]
  }

  /**
   * `_get_databases_domain(tasks)`: databases named like one of the tasks and pinged
   * after the cutoff, with no narrowing by the flags (the mixin adds that when it
   * fetches). The cutoff, today minus 30 days in the source, is a parameter.
   */
  method GetDatabasesDomain(tasks: seq<D.Task>, cutoff: string) returns (r: seq<PyVal>)
    ensures r == T.DbNameDomain(DisplayNames(tasks), cutoff)
  {
    r := [AndOperator, T.Leaf("db_name", "in", PList(T.Strs(DisplayNames(tasks)))),
      T.Leaf("last_ping", ">", PStr(cutoff))];
  }

  /**
   * A `&` of two leaves normalises to itself and holds exactly when both leaves hold:
   * the by-title and by-description database domains are of this shape.
   */
  lemma {:induction false} TwoLeafDomainMeaning(fa: string, oa: string, va: PyVal, fb: string, ob: string, vb: PyVal,
                                                leaf: PyVal -> bool)
    requires oa != "any" && oa != "not any" && ob != "any" && ob != "not any"
    ensures var a, b := T.Leaf(fa, oa, va), T.Leaf(fb, ob, vb);
      Normalized([AndOperator, a, b]) == Ok([AndOperator, T.Normal(a), T.Normal(b)]) &&
      (Holds([AndOperator, a, b], leaf) <==> leaf(T.Normal(a)) && leaf(T.Normal(b)))
  {
    var a, b := T.Leaf(fa, oa, va), T.Leaf(fb, ob, vb);
    assert IsSequence(a) && !IsAnyTerm(a) && IsSequence(b) && !IsAnyTerm(b);
    T.TwoLeafDomainNormalized(a, b);
    T.TwoLeafDomainHolds(a, b, leaf);
  }

  /**
   * A database matches the by-title domain exactly when its name is one of the display
   * names and its last ping is after the cutoff.
   */
  lemma {:induction false} DatabasesDomainMeaning(tasks: seq<D.Task>, cutoff: string, leaf: PyVal -> bool)
    ensures Normalized(T.DbNameDomain(DisplayNames(tasks), cutoff)).Ok?
    ensures Holds(T.DbNameDomain(DisplayNames(tasks), cutoff), leaf) <==>
      leaf(PTuple([PStr("db_name"), PStr("in"), PList(T.Strs(DisplayNames(tasks)))])) &&
      leaf(PTuple([PStr("last_ping"), PStr(">"), PStr(cutoff)]))
  {
    TwoLeafDomainMeaning("db_name", "in", PList(T.Strs(DisplayNames(tasks))), "last_ping", ">", PStr(cutoff), leaf);
  }

  /** `_get_subs_domain(sub_ids)`: the subscriptions whose id is one of `sub_ids`. */
  function SubsDomain(subIds: seq<PyVal>): (r: seq<PyVal>)
    ensures Normalized(r) == Ok([PTuple([PStr("id"), PStr("in"), PList(subIds)])])
  {
    T.LeafDomainNormalized(T.Leaf("id", "in", PList(subIds)));
    [T.Leaf("id", "in", PList(subIds))]
  }

  /** A subscription matches the domain exactly when it matches its one leaf. */
  lemma {:induction false} SubsDomainMeaning(subIds: seq<PyVal>, leaf: PyVal -> bool)
    ensures Holds(SubsDomain(subIds), leaf) <==> leaf(PTuple([PStr("id"), PStr("in"), PList(subIds)]))
  {
    T.LeafDomainHolds(T.Leaf("id", "in", PList(subIds)), leaf);
  }

  /**
   * `_get_upgrade_request_domain(db_uuid_list)`: the title strategy's three-leaf domain
   * over the given `db_uuid`s.
   */
  method GetUpgradeRequestDomain(uuids: seq<PyVal>) returns (r: seq<PyVal>)
    ensures r == T.UpgradeRequestDomainFor(uuids)
  {
    r := [T.Leaf("db_uuid", "in", PList(uuids)), T.Leaf("state", "not in", PList(T.ExcludedStates)),
      T.Leaf("active", "in", PList([PBool(true), PBool(false)]))];
  }

  // ---------------------------------------------------------------------------
  // Merging
  // ---------------------------------------------------------------------------

  /** The keys `_merge_records` files tasks and databases under. */
  function TaskKey(t: D.Task): string {
    t.DisplayName()
  }

  function DbKey(d: D.Database): PyVal {
    d.dbName
  }

  /**
   * What the merge leaves in a database: with subscriptions shown, the subscription of
   * its `subscription_id` when there is one and a default `Subscription()` otherwise;
   * with upgrades enabled, the request of its
   * `db_uuid`, or the default request when there is none.
   */
  predicate Attached(db: D.Database, subs: Option<map<PyVal, Subscription>>,
                     requests: Option<OrderedDict<PyVal, UpgradeRequest>>)
    reads db
  {
    (subs.Some? && db.subscriptionId in subs.value ==> db.subscription == subs.value[db.subscriptionId]) &&
    (subs.Some? && db.subscriptionId !in subs.value ==>
      db.subscription.id == PNone && db.subscription.clientOrderRef.value == PNone) &&
    (requests.Some? ==> db.upgradeRequest == Some(requests.value.Get(db.dbUuid, DefaultUpgradeRequest)))
  }

  /**
   * The `j`-th kept task `t`, under display name `key`, holding the database `db`: the
   * database of that name, or a new default one, which keeps `Database()`'s class-level
   * subscription `cls` unless subscriptions are shown and has no request unless upgrades
   * are enabled.
   */
  predicate MergedWith(t: D.Task, db: D.Database, key: string, td: map<string, D.Task>, dbs: map<PyVal, D.Database>,
                       subs: Option<map<PyVal, Subscription>>, requests: Option<OrderedDict<PyVal, UpgradeRequest>>,
                       databases: seq<D.Database>, cls: Subscription)
    reads t, db
  {
    key in td && t == td[key] && t.database == db &&
    (PStr(key) in dbs ==> db == dbs[PStr(key)]) &&
    (PStr(key) !in dbs ==>
      db !in databases && db.IsDefault() && (requests.None? ==> db.upgradeRequest == None) &&
      (subs.None? ==> db.subscription == cls)) &&
    Attached(db, subs, requests)
  }

  /** The body of the loop of `_merge_records` for one kept task. */
  method AttachDatabase(task: D.Task, found: Option<D.Database>, subs: Option<OrderedDict<PyVal, Subscription>>,
                        requests: Option<OrderedDict<PyVal, UpgradeRequest>>, classSubscription: Subscription)
    modifies task, if found.Some? then {found.value} else {}
    ensures found.Some? ==> task.database == found.value
    ensures found.None? ==> fresh(task.database) && task.database.IsDefault() && fresh(task.database.parentId)
    ensures found.None? && requests.None? ==> task.database.upgradeRequest == None
    ensures found.None? && subs.None? ==> task.database.subscription == classSubscription
    ensures found.Some? && requests.None? ==> found.value.upgradeRequest == old(found.value.upgradeRequest)
    ensures found.Some? && subs.None? ==> found.value.subscription == old(found.value.subscription)
    ensures Attached(task.database, if subs.Some? then Some(subs.value.entries) else None, requests)
    ensures subs.Some? && task.database.subscriptionId !in subs.value.entries ==>
      fresh(task.database.subscription) && task.database.subscription.id == PNone &&
      task.database.subscription.clientOrderRef.value == PNone
  {
    var db: D.Database;
    if found.Some? {
      db := found.value;
    } else {
      db := new D.Database(PNone, PStr("NO VERSION"), PStr("NO NAME"), PStr(""), PBool(false), PNone,
        classSubscription);
    }
    task.database := db;
    if subs.Some? {
      if db.subscriptionId in subs.value.entries {
        db.subscription := subs.value.entries[db.subscriptionId];
      } else {
        db.subscription := new Subscription(PNone, PNone);
      }
    }
    if requests.Some? {
      db.upgradeRequest := Some(requests.value.Get(db.dbUuid, DefaultUpgradeRequest));
    }
  }

  /** One kept task of the loop: it is given its database, which joins the merged prefix. */
  method MergeStep(task: D.Task, found: Option<D.Database>, key: string, td: map<string, D.Task>,
                   dbs: map<PyVal, D.Database>, sd: Option<OrderedDict<PyVal, Subscription>>,
                   requests: Option<OrderedDict<PyVal, UpgradeRequest>>, classSubscription: Subscription,
                   databases: seq<D.Database>, ghost ts: seq<D.Task>, ghost ds: seq<D.Database>,
                   ghost ks: seq<string>)
    requires |ts| == |ds| == |ks|
    requires forall k | k in td :: TaskKey(td[k]) == k
    requires forall k | k in dbs :: dbs[k] in databases && dbs[k].dbName == k
    requires key in td && task == td[key] && key !in ks
    requires found.Some? <==> PStr(key) in dbs
    requires found.Some? ==> found.value == dbs[PStr(key)]
    requires forall j | 0 <= j < |ts| :: MergedWith(ts[j], ds[j], ks[j], td, dbs, SubsOf(sd), requests, databases, classSubscription)
    modifies task, if found.Some? then {found.value} else {}
    ensures found.Some? ==> task.database == found.value
    ensures forall j | 0 <= j < |ts| + 1 ::
      MergedWith((ts + [task])[j], (ds + [task.database])[j], (ks + [key])[j], td, dbs, SubsOf(sd), requests,
        databases, classSubscription)
    ensures sd.None? ==> forall d | d in databases :: d.subscription == old(d.subscription)
    ensures requests.None? ==> forall d | d in databases :: d.upgradeRequest == old(d.upgradeRequest)
  {
    assert task !in ts by {
      forall j | 0 <= j < |ts| ensures ts[j] != task {
        assert TaskKey(ts[j]) == ks[j];
      }
    }
    assert found.Some? ==> found.value !in ds by {
      if found.Some? {
        forall j | 0 <= j < |ds| ensures ds[j] != found.value {
          if PStr(ks[j]) in dbs {
            assert ds[j].dbName == PStr(ks[j]);
          }
        }
      }
    }
    AttachDatabase(task, found, sd, requests, classSubscription);
  }

  /** The subscription map of an optional subscription dictionary. */
  function SubsOf(sd: Option<OrderedDict<PyVal, Subscription>>): Option<map<PyVal, Subscription>> {
    if sd.Some? then Some(sd.value.entries) else None
  }

  /** The loop of `_merge_records` over the task dictionary, with the kept keys and the databases given. */
  method MergeLoop(databases: seq<D.Database>, td: OrderedDict<string, D.Task>,
                   dd: OrderedDict<PyVal, D.Database>, sd: Option<OrderedDict<PyVal, Subscription>>,
                   requests: Option<OrderedDict<PyVal, UpgradeRequest>>, hideNotFound: bool,
                   classSubscription: Subscription, ghost touchedTasks: set<D.Task>,
                   ghost touchedDatabases: set<D.Database>)
    returns (newTasks: seq<D.Task>, ghost kept: seq<string>, ghost dbObjs: seq<D.Database>)
    requires td.Valid()
    requires forall k | k in td.entries :: TaskKey(td.entries[k]) == k
    requires forall k | k in dd.entries :: dd.entries[k] in databases && dd.entries[k].dbName == k
    requires forall k | k in td.entries && (PStr(k) in dd.entries || !hideNotFound) :: td.entries[k] in touchedTasks
    requires forall k | k in td.entries && PStr(k) in dd.entries :: dd.entries[PStr(k)] in touchedDatabases
    modifies touchedTasks, touchedDatabases
    ensures kept == T.Kept(td.keys, dd.entries, hideNotFound)
    ensures |newTasks| == |kept| == |dbObjs|
    ensures forall j | 0 <= j < |kept| ::
      MergedWith(newTasks[j], dbObjs[j], kept[j], td.entries, dd.entries, SubsOf(sd), requests, databases, classSubscription)
    ensures sd.None? ==> forall d | d in databases :: d.subscription == old(d.subscription)
    ensures requests.None? ==> forall d | d in databases :: d.upgradeRequest == old(d.upgradeRequest)
  {
    var keys := td.keys;
    newTasks := [];
    kept := [];
    dbObjs := [];
    for i := 0 to |keys|
      invariant kept == T.Kept(keys[..i], dd.entries, hideNotFound)
      invariant |newTasks| == |kept| == |dbObjs|
      invariant forall j | 0 <= j < |kept| ::
        MergedWith(newTasks[j], dbObjs[j], kept[j], td.entries, dd.entries, SubsOf(sd), requests, databases, classSubscription)
      invariant sd.None? ==> forall d | d in databases :: d.subscription == old(d.subscription)
      invariant requests.None? ==> forall d | d in databases :: d.upgradeRequest == old(d.upgradeRequest)
    {
      newTasks, kept, dbObjs := MergeKey(databases, td, dd, sd, requests, hideNotFound, classSubscription,
        touchedTasks, touchedDatabases, i, newTasks, kept, dbObjs);
    }
    assert keys[..|keys|] == keys;
  }

  /** One turn of the loop of `_merge_records`: the key `td.keys[i]` is merged and kept, or skipped. */
  method MergeKey(databases: seq<D.Database>, td: OrderedDict<string, D.Task>,
                  dd: OrderedDict<PyVal, D.Database>, sd: Option<OrderedDict<PyVal, Subscription>>,
                  requests: Option<OrderedDict<PyVal, UpgradeRequest>>, hideNotFound: bool,
                  classSubscription: Subscription, ghost touchedTasks: set<D.Task>,
                  ghost touchedDatabases: set<D.Database>, i: nat, newTasks: seq<D.Task>,
                  ghost kept: seq<string>, ghost dbObjs: seq<D.Database>)
    returns (newTasks': seq<D.Task>, ghost kept': seq<string>, ghost dbObjs': seq<D.Database>)
    requires td.Valid() && i < |td.keys|
    requires forall k | k in td.entries :: TaskKey(td.entries[k]) == k
    requires forall k | k in dd.entries :: dd.entries[k] in databases && dd.entries[k].dbName == k
    requires forall k | k in td.entries && (PStr(k) in dd.entries || !hideNotFound) :: td.entries[k] in touchedTasks
    requires forall k | k in td.entries && PStr(k) in dd.entries :: dd.entries[PStr(k)] in touchedDatabases
    requires kept == T.Kept(td.keys[..i], dd.entries, hideNotFound)
    requires |newTasks| == |kept| == |dbObjs|
    requires forall j | 0 <= j < |kept| ::
      MergedWith(newTasks[j], dbObjs[j], kept[j], td.entries, dd.entries, SubsOf(sd), requests, databases, classSubscription)
    modifies touchedTasks, touchedDatabases
    ensures kept' == T.Kept(td.keys[..i + 1], dd.entries, hideNotFound)
    ensures |newTasks'| == |kept'| == |dbObjs'|
    ensures forall j | 0 <= j < |kept'| ::
      MergedWith(newTasks'[j], dbObjs'[j], kept'[j], td.entries, dd.entries, SubsOf(sd), requests, databases, classSubscription)
    ensures sd.None? ==> forall d | d in databases :: d.subscription == old(d.subscription)
    ensures requests.None? ==> forall d | d in databases :: d.upgradeRequest == old(d.upgradeRequest)
  {
    var key := td.keys[i];
    T.KeptStep(td.keys, i, dd.entries, hideNotFound);
    newTasks', kept', dbObjs' := newTasks, kept, dbObjs;
    var found: Option<D.Database> := None;
    if PStr(key) in dd.entries {
      found := Some(dd.entries[PStr(key)]);
    }
    if found.Some? || !hideNotFound {
      var task := td.entries[key];
      MergeStep(task, found, key, td.entries, dd.entries, sd, requests, classSubscription, databases,
        newTasks, dbObjs, kept);
      newTasks' := newTasks + [task];
      kept' := kept + [key];
      dbObjs' := dbObjs + [task.database];
    }
  }

  /** Every task and database the loop may change is one it returns or attaches. */
  lemma {:induction false} MergeCovers(td: OrderedDict<string, D.Task>, dd: OrderedDict<PyVal, D.Database>,
                    subs: Option<map<PyVal, Subscription>>, requests: Option<OrderedDict<PyVal, UpgradeRequest>>,
                    hideNotFound: bool, databases: seq<D.Database>, newTasks: seq<D.Task>, kept: seq<string>,
                    dbObjs: seq<D.Database>, touchedTasks: set<D.Task>, touchedDatabases: set<D.Database>,
                    cls: Subscription)
    requires td.Valid()
    requires kept == T.Kept(td.keys, dd.entries, hideNotFound) && |newTasks| == |kept| == |dbObjs|
    requires forall j | 0 <= j < |kept| ::
      MergedWith(newTasks[j], dbObjs[j], kept[j], td.entries, dd.entries, subs, requests, databases, cls)
    requires touchedTasks == set k | k in td.entries && (PStr(k) in dd.entries || !hideNotFound) :: td.entries[k]
    requires touchedDatabases == set k | k in td.entries && PStr(k) in dd.entries :: dd.entries[PStr(k)]
    ensures forall t | t in touchedTasks :: t in newTasks
    ensures forall d | d in touchedDatabases :: exists j | 0 <= j < |newTasks| :: newTasks[j].database == d
  {
    T.KeptMembers(td.keys, dd.entries, hideNotFound);
    forall t | t in touchedTasks
      ensures t in newTasks
    {
      var k :| k in td.entries && (PStr(k) in dd.entries || !hideNotFound) && td.entries[k] == t;
      var j :| 0 <= j < |kept| && kept[j] == k;
      assert newTasks[j] == t;
    }
    forall d | d in touchedDatabases
      ensures exists j | 0 <= j < |newTasks| :: newTasks[j].database == d
    {
      var k :| k in td.entries && PStr(k) in dd.entries && dd.entries[PStr(k)] == d;
      var j :| 0 <= j < |kept| && kept[j] == k;
      assert newTasks[j].database == d;
    }
  }

  /** The loop run over the touched tasks and databases only, and nothing else changed. */
  method MergeTasks(tasks: seq<D.Task>, databases: seq<D.Database>, td: OrderedDict<string, D.Task>,
                    dd: OrderedDict<PyVal, D.Database>, sd: Option<OrderedDict<PyVal, Subscription>>,
                    requests: Option<OrderedDict<PyVal, UpgradeRequest>>, hideNotFound: bool,
                    classSubscription: Subscription)
    returns (newTasks: seq<D.Task>)
    requires td.Valid()
    requires forall k | k in td.entries :: td.entries[k] in tasks && TaskKey(td.entries[k]) == k
    requires forall k | k in dd.entries :: dd.entries[k] in databases && dd.entries[k].dbName == k
    modifies set t | t in tasks, set d | d in databases
    ensures var kept := T.Kept(td.keys, dd.entries, hideNotFound);
      |newTasks| == |kept| &&
      forall j | 0 <= j < |kept| ::
        Merged(newTasks[j], kept[j], td.entries, dd.entries, SubsOf(sd), requests, databases, classSubscription)
    ensures forall t | t in tasks && t !in newTasks :: t.database == old(t.database)
    ensures forall d | d in databases && (forall j | 0 <= j < |newTasks| :: newTasks[j].database != d) ::
      d.subscription == old(d.subscription) && d.upgradeRequest == old(d.upgradeRequest)
    ensures sd.None? ==> forall d | d in databases :: d.subscription == old(d.subscription)
    ensures requests.None? ==> forall d | d in databases :: d.upgradeRequest == old(d.upgradeRequest)
  {
    ghost var touchedTasks := set k | k in td.entries && (PStr(k) in dd.entries || !hideNotFound) :: td.entries[k];
    ghost var touchedDatabases := set k | k in td.entries && PStr(k) in dd.entries :: dd.entries[PStr(k)];
    ghost var kept, dbObjs;
    newTasks, kept, dbObjs := MergeLoop(databases, td, dd, sd, requests, hideNotFound, classSubscription,
      touchedTasks, touchedDatabases);
    MergeCovers(td, dd, SubsOf(sd), requests, hideNotFound, databases, newTasks, kept, dbObjs, touchedTasks,
      touchedDatabases, classSubscription);
  }

  /**
   * A kept task after the merge, under display name `key`: it holds the database of that
   * name, or a new default database when there is none, with what `Attached` says.
   */
  predicate Merged(t: D.Task, key: string, td: map<string, D.Task>, dbs: map<PyVal, D.Database>,
                   subs: Option<map<PyVal, Subscription>>, requests: Option<OrderedDict<PyVal, UpgradeRequest>>,
                   databases: seq<D.Database>, cls: Subscription)
    reads t, t.database
  {
    MergedWith(t, t.database, key, td, dbs, subs, requests, databases, cls)
  }

  /** The subscription dictionary the merge uses: only with subscriptions shown. */
  function SubsDict(showSub: bool, subs: Option<seq<Subscription>>): Option<OrderedDict<PyVal, Subscription>> {
    if showSub then Some(BuildDict(if subs.Some? then subs.value else [], T.SubKey)) else None
  }

  /** The request dictionary the merge uses: only with upgrades enabled. */
  function RequestsDict(upgradeEnabled: bool, requests: Option<seq<UpgradeRequest>>)
    : Option<OrderedDict<PyVal, UpgradeRequest>>
  {
    if upgradeEnabled then Some(BuildDict(if requests.Some? then requests.value else [], T.RequestKey)) else None
  }

  /**
   * `_merge_records(tasks, databases, subs, upgrade_request)`: the tasks keyed by display
   * name (the last of a name wins, in order of first appearance), each kept one given the
   * database of that name; subscriptions are attached only when shown and upgrade
   * requests whenever upgrades are enabled, even when none were fetched. The mixin passes
   * the lists exactly in those cases; `Database()`'s class-level subscription is a parameter.
   */
  method MergeRecords(m: M.RollingMixing, tasks: seq<D.Task>, databases: seq<D.Database>,
                      subs: Option<seq<Subscription>>, upgradeRequest: Option<seq<UpgradeRequest>>,
                      classSubscription: Subscription)
    returns (newTasks: seq<D.Task>)
    requires m.showSub ==> subs.Some?
    requires m.upgradeEnabled ==> upgradeRequest.Some?
    modifies set t | t in tasks, set d | d in databases
    ensures var td := BuildDict(tasks, TaskKey);
      var dbs := BuildDict(databases, DbKey).entries;
      var kept := T.Kept(td.keys, dbs, m.hideNotFound);
      |newTasks| == |kept| &&
      forall j | 0 <= j < |kept| ::
        Merged(newTasks[j], kept[j], td.entries, dbs, SubsOf(SubsDict(m.showSub, subs)),
          RequestsDict(m.upgradeEnabled, upgradeRequest), databases, classSubscription)
    ensures forall t | t in tasks && t !in newTasks :: t.database == old(t.database)
    ensures forall d | d in databases && (forall j | 0 <= j < |newTasks| :: newTasks[j].database != d) ::
      d.subscription == old(d.subscription) && d.upgradeRequest == old(d.upgradeRequest)
    ensures !m.showSub ==> forall d | d in databases :: d.subscription == old(d.subscription)
    ensures !m.upgradeEnabled ==> forall d | d in databases :: d.upgradeRequest == old(d.upgradeRequest)
  {
    var transformedTasks := ListToDict(tasks, TaskKey);
    var transformedDatabases := ListToDict(databases, DbKey);
    var transformedSubs: Option<OrderedDict<PyVal, Subscription>> := None;
    if m.showSub {
      var d := ListToDict(subs.value, T.SubKey);
      transformedSubs := Some(d);
    }
    var requests: Option<OrderedDict<PyVal, UpgradeRequest>> := None;
    if m.upgradeEnabled {
      var d := ListToDict(upgradeRequest.value, T.RequestKey);
      requests := Some(d);
    }
    BuildDictKeys(tasks, TaskKey);
    forall k | k in transformedTasks.entries
      ensures transformedTasks.entries[k] in tasks && TaskKey(transformedTasks.entries[k]) == k
    {
      BuildDictValues(tasks, TaskKey, k);
    }
    forall k | k in transformedDatabases.entries
      ensures transformedDatabases.entries[k] in databases && transformedDatabases.entries[k].dbName == k
    {
      BuildDictValues(databases, DbKey, k);
    }
    newTasks := MergeTasks(tasks, databases, transformedTasks, transformedDatabases, transformedSubs, requests,
      m.hideNotFound, classSubscription);
  }

  /** With upgrades enabled every merged task's database holds a request, so its row can show a traceback. */
  lemma {:induction false} MergedHaveRequests(t: D.Task, key: string, td: map<string, D.Task>,
                                              dbs: map<PyVal, D.Database>, subs: Option<map<PyVal, Subscription>>,
                                              upgradeRequest: Option<seq<UpgradeRequest>>, databases: seq<D.Database>,
                                              cls: Subscription)
    requires Merged(t, key, td, dbs, subs, RequestsDict(true, upgradeRequest), databases, cls)
    ensures t.database.upgradeRequest.Some?
    ensures upgradeRequest.Some? && (forall u | u in upgradeRequest.value :: u.dbUuid != t.database.dbUuid) ==>
      t.database.upgradeRequest == Some(DefaultUpgradeRequest)
  {
    if upgradeRequest.Some? {
      BuildDictHasKey(upgradeRequest.value, T.RequestKey, t.database.dbUuid);
    } else {
      BuildDictHasKey([], T.RequestKey, t.database.dbUuid);
    }
  }

  // ---------------------------------------------------------------------------
  // Rows
  // ---------------------------------------------------------------------------

  /**
   * The row `get_clean_row(odoo_url, show_sub, upgrade_enabled)` renders for a task in
   * its current state, once its parent flag renders as YES/NO.
   */
  function CleanRow(t: D.Task, odooUrl: string, showSub: bool, upgradeEnabled: bool): Result<seq<PyVal>>
    reads t, t.database
  {
    RowOf(t.name, t.database.version, SubValue(t.database.subscription.clientOrderRef.value, PBool(showSub)),
      YesOrNoValue(t.database.parentId.value), None, t.TaskLink(odooUrl), upgradeEnabled,
      t.database.upgradeRequest)
  }

  /**
   * Tasks whose rows can be rendered one after the other: every parent flag renders as
   * YES/NO and none of them is the customer-reference wrapper that rendering updates.
   */
  predicate RowsReady(tasks: seq<D.Task>)
    reads set t | t in tasks, set t | t in tasks :: t.database, set t | t in tasks :: t.database.parentId
  {
    (forall j | 0 <= j < |tasks| :: tasks[j].database.parentId.valueIfTrue == PBool(false)) &&
    forall j, k | 0 <= j < |tasks| && 0 <= k < |tasks| ::
      tasks[j].database.parentId != tasks[k].database.subscription.clientOrderRef
  }

  /** The customer-reference wrapper of each task's subscription, in task order. */
  function Wrappers(tasks: seq<D.Task>): (ws: seq<BoolStr>)
    reads set t | t in tasks, set t | t in tasks :: t.database
    ensures |ws| == |tasks| && forall j | 0 <= j < |tasks| :: ws[j] == tasks[j].database.subscription.clientOrderRef
  {
    seq(|tasks|, j requires 0 <= j < |tasks| reads set t | t in tasks, set t | t in tasks :: t.database =>
      tasks[j].database.subscription.clientOrderRef)
  }

  /** What rendering each task's row gives, in task order. */
  function RowOutcomes(tasks: seq<D.Task>, odooUrl: string, showSub: bool, upgradeEnabled: bool)
    : (r: seq<Result<seq<PyVal>>>)
    reads set t | t in tasks, set t | t in tasks :: t.database
    ensures |r| == |tasks| && forall i | 0 <= i < |tasks| :: r[i] == CleanRow(tasks[i], odooUrl, showSub, upgradeEnabled)
  {
    seq(|tasks|, i requires 0 <= i < |tasks| reads set t | t in tasks, set t | t in tasks :: t.database =>
      CleanRow(tasks[i], odooUrl, showSub, upgradeEnabled))
  }

  /** The rows of all tasks in task order, or the failure of the first task whose row fails. */
  function CleanRows(tasks: seq<D.Task>, odooUrl: string, showSub: bool, upgradeEnabled: bool)
    : Result<seq<seq<PyVal>>>
    reads set t | t in tasks, set t | t in tasks :: t.database
  {
    Collect(RowOutcomes(tasks, odooUrl, showSub, upgradeEnabled))
  }

  /**
   * `_transform_to_rows(tasks)`: every task's row, or in lucky mode the row at the
   * position `random.choice` draws, `pick` modulo the number of rows; drawing from no
   * rows fails.
   */
  method TransformToRows(m: M.RollingMixing, tasks: seq<D.Task>, pick: nat) returns (r: Result<seq<seq<PyVal>>>)
    requires RowsReady(tasks)
    modifies set t | t in tasks :: t.database.subscription.clientOrderRef
    ensures var rows := old(CleanRows(tasks, m.odooUrl, m.showSub, m.upgradeEnabled));
      (rows.Err? || !m.lucky ==> r == rows) &&
      (rows.Ok? && m.lucky && rows.value == [] ==> r == Err(ChoiceFromEmpty)) &&
      (rows.Ok? && m.lucky && rows.value != [] ==> r == Ok([rows.value[pick % |rows.value|]]))
    ensures old(CleanRows(tasks, m.odooUrl, m.showSub, m.upgradeEnabled)).Ok? ==>
      forall j | 0 <= j < |tasks| :: tasks[j].database.subscription.clientOrderRef.valueIfTrue == PBool(m.showSub)
  {
    var rows := RenderRows(tasks, m.odooUrl, m.showSub, m.upgradeEnabled,
      set t | t in tasks :: t.database.subscription.clientOrderRef);
    if rows.Err? || !m.lucky {
      return rows;
    }
    if |rows.value| == 0 {
      return Err(ChoiceFromEmpty);
    }
    r := Ok([rows.value[pick % |rows.value|]]);
  }

  /**
   * `tasks[i].get_clean_row(odoo_url, show_sub, upgrade_enabled)`: the row `CleanRow`
   * describes; it sets the task's customer-reference wrapper to `show_sub`, so every
   * wrapper of `tasks[..i + 1]` then holds it.
   */
  method RenderRow(tasks: seq<D.Task>, i: nat, odooUrl: string, showSub: bool, upgradeEnabled: bool,
                   ghost ws: seq<BoolStr>, ghost outcomes: seq<Result<seq<PyVal>>>)
    returns (row: Result<seq<PyVal>>)
    requires i < |tasks| && Wrappers(tasks) == ws && RowOutcomes(tasks, odooUrl, showSub, upgradeEnabled) == outcomes
    requires tasks[i].database.parentId.valueIfTrue == PBool(false) && tasks[i].database.parentId != ws[i]
    requires forall j | 0 <= j < i :: ws[j].valueIfTrue == PBool(showSub)
    modifies ws[i]
    ensures row == outcomes[i]
    ensures Wrappers(tasks) == ws && RowOutcomes(tasks, odooUrl, showSub, upgradeEnabled) == outcomes
    ensures forall j | 0 <= j < i + 1 :: ws[j].valueIfTrue == PBool(showSub)
  {
    row := tasks[i].GetCleanRow(odooUrl, PBool(showSub), PBool(upgradeEnabled));
    forall j | 0 <= j < i + 1
      ensures ws[j].valueIfTrue == PBool(showSub)
    {
      if j < i && ws[j] != ws[i] {
        assert ws[j].valueIfTrue == old(ws[j].valueIfTrue);
      }
    }
  }

  /**
   * `[task.get_clean_row(odoo_url, show_sub, upgrade_enabled) for task in tasks]`, where
   * rendering changes only the customer-reference wrappers `refs`, none of which is a
   * parent flag.
   */
  method RenderRows(tasks: seq<D.Task>, odooUrl: string, showSub: bool, upgradeEnabled: bool, ghost refs: set<BoolStr>)
    returns (r: Result<seq<seq<PyVal>>>)
    requires forall j | 0 <= j < |tasks| ::
      tasks[j].database.parentId.valueIfTrue == PBool(false) && tasks[j].database.parentId !in refs &&
      tasks[j].database.subscription.clientOrderRef in refs
    modifies refs
    ensures r == old(CleanRows(tasks, odooUrl, showSub, upgradeEnabled))
    ensures r.Ok? ==> forall j | 0 <= j < |tasks| :: tasks[j].database.subscription.clientOrderRef.valueIfTrue == PBool(showSub)
  {
    ghost var outcomes := RowOutcomes(tasks, odooUrl, showSub, upgradeEnabled);
    ghost var ws := Wrappers(tasks);
    var rows: seq<seq<PyVal>> := [];
    for i := 0 to |tasks|
      invariant Collect(outcomes[..i]) == Ok(rows)
      invariant Wrappers(tasks) == ws && RowOutcomes(tasks, odooUrl, showSub, upgradeEnabled) == outcomes
      invariant forall j | 0 <= j < i :: ws[j].valueIfTrue == PBool(showSub)
    {
      var row := RenderRow(tasks, i, odooUrl, showSub, upgradeEnabled, ws, outcomes);
      CollectNext(outcomes, i, rows);
      if row.Err? {
        return Err(row.error);
      }
      rows := rows + [row.value];
    }
    assert outcomes[..|tasks|] == outcomes;
    r := Ok(rows);
  }

  /**
   * Each rendered row has five cells, six with the traceback, and ends with the task
   * link, so the table can be sized.
   */
  lemma {:induction false} CleanRowsShape(tasks: seq<D.Task>, odooUrl: string, showSub: bool, upgradeEnabled: bool)
    requires CleanRows(tasks, odooUrl, showSub, upgradeEnabled).Ok?
    ensures var rows := CleanRows(tasks, odooUrl, showSub, upgradeEnabled).value;
      |rows| == |tasks| &&
      forall i | 0 <= i < |rows| ::
        |rows[i]| == (if upgradeEnabled then 6 else 5) &&
        T.HasLink(rows[i]) && rows[i][|rows[i]| - 1] == PStr(tasks[i].TaskLink(odooUrl))
  {
    var outcomes := RowOutcomes(tasks, odooUrl, showSub, upgradeEnabled);
    var rows := CleanRows(tasks, odooUrl, showSub, upgradeEnabled).value;
    CollectMeaning(outcomes);
    forall i | 0 <= i < |rows|
      ensures |rows[i]| == (if upgradeEnabled then 6 else 5) &&
        T.HasLink(rows[i]) && rows[i][|rows[i]| - 1] == PStr(tasks[i].TaskLink(odooUrl))
    {
      assert CleanRow(tasks[i], odooUrl, showSub, upgradeEnabled) == Ok(rows[i]);
    }
  }

  // ---------------------------------------------------------------------------
  // Tables
  // ---------------------------------------------------------------------------

  /** The task table's headers: 5 columns, with "Traceback" at index 4 when upgrades are enabled. */
  function TaskHeaders(upgrade: bool, linkWidth: nat): (hs: seq<T.Header>)
    ensures |hs| == if upgrade then 6 else 5
    ensures hs[|hs| - 1] == T.Header("Link", Some(linkWidth))
    ensures hs[..4] == [T.Header("Task Name", None), T.Header("Version", None), T.Header("Sub", None),
      T.Header("Parent", None)]
    ensures upgrade ==> hs[4] == T.Header("Traceback", None)
  {
    var titles := [T.Header("Task Name", None), T.Header("Version", None), T.Header("Sub", None),
      T.Header("Parent", None), T.Header("Link", Some(linkWidth))];
    if upgrade then InsertAt(titles, 4, T.Header("Traceback", None)) else titles
  }

  /**
   * `_display_task_list(rows)`: the headers, sized to the longest link, and the rows as
   * given. The width is a `max` with no default, so no rows at all fail.
   */
  function DisplayTaskList(m: M.RollingMixing, rows: seq<seq<PyVal>>): (r: Result<(seq<T.Header>, seq<seq<PyVal>>)>)
    reads m
    requires forall i | 0 <= i < |rows| :: T.HasLink(rows[i])
    ensures r.Err? <==> |rows| == 0
    ensures r.Err? ==> r.error == MaxOfEmpty
    ensures r.Ok? ==> r.value.1 == rows && r.value.0 == TaskHeaders(m.upgradeEnabled, T.LinkWidth(rows))
    ensures r.Ok? ==> exists i | 0 <= i < |rows| :: r.value.0[|r.value.0| - 1].minWidth == Some(T.LinkLength(rows[i]))
  {
    if |rows| == 0 then Err(MaxOfEmpty) else Ok((TaskHeaders(m.upgradeEnabled, T.LinkWidth(rows)), rows))
  }
}
