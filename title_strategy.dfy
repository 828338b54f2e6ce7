/**
 * `TitleStrategy`: tasks are matched to databases by title. This module holds the
 * domains it sends to the server, the join of tasks with databases, subscriptions and
 * upgrade requests, the ordering by expiry date and the tables it renders.
 */
module TitleStrategy {
  import opened Python
  import opened Osv
  import opened DomainEval
  import opened Utils
  import opened ApiDtos
  import opened StrategyAbstract
  import opened Rpc

  // ---------------------------------------------------------------------------
  // Leaves
  // ---------------------------------------------------------------------------

  /** A leaf `[field, op, value]` as the strategies write it. */
  function Leaf(field: string, op: string, value: PyVal): PyVal {
    PList([PStr(field), PStr(op), value])
  }

  /** The tuple normalisation turns a list leaf into. */
  function Normal(t: PyVal): PyVal
    requires t.PList?
  {
    PTuple(t.items)
  }

  /** A one-leaf domain normalises to the leaf as a tuple. */
  lemma {:induction false} LeafDomainNormalized(t: PyVal)
    requires IsSequence(t) && !IsAnyTerm(t)
    ensures Normalized([t]) == Ok([PTuple(t.items)])
  {
    PlainLeavesNormalized([t]);
    assert Tupled([t]) == [PTuple(t.items)];
  }

  /** A one-leaf domain holds exactly when its leaf does. */
  lemma {:induction false} LeafDomainHolds(t: PyVal, leaf: PyVal -> bool)
    requires IsSequence(t) && !IsAnyTerm(t)
    ensures Holds([t], leaf) <==> leaf(PTuple(t.items))
  {
    PlainLeavesHold([t], leaf);
  }

  /** `AND([a, b])` holds exactly when both `a` and `b` hold. */
  lemma {:induction false} AndOfPairHolds(a: seq<PyVal>, b: seq<PyVal>, leaf: PyVal -> bool)
    requires Sound(leaf) && And([a, b]).Ok?
    ensures Holds(And([a, b]).value, leaf) <==> Holds(a, leaf) && Holds(b, leaf)
  {
    AndHolds([a, b], leaf);
    assert [a, b][0] == a && [a, b][1] == b;
    if Holds(a, leaf) && Holds(b, leaf) {
      forall i | 0 <= i < 2
        ensures Holds([a, b][i], leaf)
      {
      }
    }
  }

  /** `AND` of domains that all normalise does not fail. */
  lemma {:induction false} AndOfNormalOk(a: seq<PyVal>, b: seq<PyVal>)
    requires Normalized(a).Ok? && Normalized(b).Ok?
    ensures And([a, b]).Ok?
    ensures Normalized(And([a, b]).value) == And([a, b])
  {
    var ds := [a, b];
    assert forall j | 0 <= j < 2 :: ds[j] == TrueDomain || ds[j] == FalseDomain || Normalized(ds[j]).Ok?;
    GatherNoFailure(TrueDomain, FalseDomain, ds, 2);
    assert ds[..2] == ds;
    AndIsNormalized(ds);
    NormalizedFixpoint(And(ds).value);
  }

  // ---------------------------------------------------------------------------
  // The task domain
  // ---------------------------------------------------------------------------

  /** `_task_fields()`. */
  function TaskFields(): (r: seq<string>)
    ensures r == ["name"]
  {
    ["name"]
  }

  /** The leaf `["name", "ilike", "%name%"]`. */
  function NameLeaf(name: string): PyVal {
    Leaf("name", "ilike", PStr("%" + name + "%"))
  }

  /**
   * `_get_tasks_domain()` of a configured task domain and task name: the domain, narrowed
   * by the name leaf when a non-empty name is set.
   */
  function NameFiltered(domain: seq<PyVal>, taskName: Option<string>): (r: Result<seq<PyVal>>)
    ensures TaskNameFilter(taskName).None? ==> r == Ok(domain)
    ensures TaskNameFilter(taskName).Some? ==> r == And([domain, [NameLeaf(taskName.value)]])
  {
    if TaskNameFilter(taskName).Some? then And([domain, [NameLeaf(taskName.value)]])
    else Ok(domain)
  }

  /** `_get_tasks_domain()` of the strategy. */
  function TasksDomain(s: Strategy): Result<seq<PyVal>>
    reads s
  {
    NameFiltered(s.taskDomain, s.taskName)
  }

  /**
   * The task domain selects the tasks the configured domain selects, and, with a task
   * name, only those whose name matches it; it fails only when the configured domain
   * does not normalise.
   */
  lemma {:induction false} NameFilteredMeaning(domain: seq<PyVal>, taskName: Option<string>, leaf: PyVal -> bool)
    requires Sound(leaf)
    ensures Normalized(domain).Ok? ==> NameFiltered(domain, taskName).Ok?
    ensures NameFiltered(domain, taskName).Ok? ==>
      (Holds(NameFiltered(domain, taskName).value, leaf) <==>
        Holds(domain, leaf) &&
        (TaskNameFilter(taskName).Some? ==> leaf(Normal(NameLeaf(taskName.value)))))
  {
    if TaskNameFilter(taskName).Some? {
      var l := NameLeaf(taskName.value);
      LeafDomainNormalized(l);
      if Normalized(domain).Ok? {
        AndOfNormalOk(domain, [l]);
      }
      if NameFiltered(domain, taskName).Ok? {
        AndOfPairHolds(domain, [l], leaf);
        LeafDomainHolds(l, leaf);
      }
    }
  }

  /**
   * With a task name and a configured domain that is neither empty nor a constant, the
   * task domain is one `&` in front of the normalised configured domain and the name leaf.
   */
  lemma {:induction false} NameFilteredShape(domain: seq<PyVal>, taskName: Option<string>)
    requires TaskNameFilter(taskName).Some?
    requires domain != [] && domain != TrueDomain && domain != FalseDomain
    requires Normalized(domain).Ok?
    ensures NameFiltered(domain, taskName) ==
      Ok([AndOperator] + Normalized(domain).value + [Normal(NameLeaf(taskName.value))])
  {
    var l := NameLeaf(taskName.value);
    LeafDomainNormalized(l);
    AndOfTwo(domain, [l]);
  }

  // ---------------------------------------------------------------------------
  // Extra configuration: parent and contract
  // ---------------------------------------------------------------------------

  /** `[field, "!=", False]` for YES, `[field, "=", False]` for NO. */
  function ConfigLeaf(field: string, flag: TripleFlag): PyVal {
    Leaf(field, if flag == Yes then "!=" else "=", PBool(false))
  }

  /** The pairs `(field, flag)` in the order they are applied: parent first, then contract. */
  function ExtraDomains(parent: TripleFlag, contract: TripleFlag): seq<(string, TripleFlag)> {
    [("parent_id", parent), ("subscription_id", contract)]
  }

  /** One iteration of the loop: BOTH adds nothing, otherwise AND the leaf in. */
  function Narrowed(d: Result<seq<PyVal>>, extra: (string, TripleFlag)): Result<seq<PyVal>> {
    if d.Err? || extra.1 == Both then d else And([d.value, [ConfigLeaf(extra.0, extra.1)]])
  }

  function NarrowedBy(d: Result<seq<PyVal>>, extras: seq<(string, TripleFlag)>): Result<seq<PyVal>> {
    if |extras| == 0 then d else Narrowed(NarrowedBy(d, extras[..|extras| - 1]), extras[|extras| - 1])
  }

  lemma {:induction false} NarrowedByTwo(d: Result<seq<PyVal>>, e: seq<(string, TripleFlag)>)
    requires |e| == 2
    ensures NarrowedBy(d, e[..1]) == Narrowed(d, e[0])
    ensures NarrowedBy(d, e) == Narrowed(Narrowed(d, e[0]), e[1])
  {
    assert e[..1][..0] == [] && e[..2][..1] == e[..1] && e[..2] == e;
    assert NarrowedBy(d, []) == d;
  }

  /** What `_add_database_extra_config_domains(domain)` returns. */
  function ExtraConfigured(d: seq<PyVal>, parent: TripleFlag, contract: TripleFlag): Result<seq<PyVal>> {
    NarrowedBy(Ok(d), ExtraDomains(parent, contract))
  }

  /** The condition a flag puts on a record: none for BOTH, else its leaf. */
  ghost predicate FlagHolds(field: string, flag: TripleFlag, leaf: PyVal -> bool) {
    flag == Both || leaf(Normal(ConfigLeaf(field, flag)))
  }

  /** `_add_database_extra_config_domains(domain)` of the strategy. */
  method AddDatabaseExtraConfigDomains(s: Strategy, domain: seq<PyVal>) returns (r: Result<seq<PyVal>>)
    ensures r == ExtraConfigured(domain, s.parent, s.contract)
  {
    r := ApplyExtraDomains(domain, s.parent, s.contract);
  }

  /** The loop over the parent and contract flags, shared by both strategy families. */
  method ApplyExtraDomains(domain: seq<PyVal>, parent: TripleFlag, contract: TripleFlag) returns (r: Result<seq<PyVal>>)
    ensures r == ExtraConfigured(domain, parent, contract)
  {
    var extraDomains := ExtraDomains(parent, contract);
    var d := domain;
    for i := 0 to |extraDomains|
      invariant NarrowedBy(Ok(domain), extraDomains[..i]) == Ok(d)
    {
      assert extraDomains[..i + 1][..i] == extraDomains[..i];
      var (domainName, value) := extraDomains[i];
      if value != Both {
        var newDomain := [ConfigLeaf(domainName, value)];
        var combined := Combine(AndOperator, TrueDomain, FalseDomain, [d, newDomain]);
        if combined.Err? {
          assert extraDomains[..i + 1] == extraDomains[..|extraDomains|] || i + 1 < |extraDomains|;
          NarrowedByStaysFailed(Ok(domain), extraDomains, i + 1);
          assert extraDomains[..|extraDomains|] == extraDomains;
          return combined;
        }
        d := combined.value;
      }
    }
    assert extraDomains[..|extraDomains|] == extraDomains;
    r := Ok(d);
  }

  /** Once a step fails, the later steps keep its error. */
  lemma {:induction false} NarrowedByStaysFailed(d: Result<seq<PyVal>>, extras: seq<(string, TripleFlag)>, i: nat)
    requires i <= |extras| && NarrowedBy(d, extras[..i]).Err?
    ensures NarrowedBy(d, extras) == NarrowedBy(d, extras[..i])
    decreases |extras| - i
  {
    if i < |extras| {
      assert extras[..i + 1][..i] == extras[..i];
      NarrowedByStaysFailed(d, extras, i + 1);
    } else {
      assert extras[..i] == extras;
    }
  }

  /** One step of the loop on a domain that normalises: it succeeds and means a conjunction. */
  lemma {:induction false} NarrowedMeaning(d: seq<PyVal>, extra: (string, TripleFlag), leaf: PyVal -> bool)
    requires Sound(leaf) && Normalized(d).Ok?
    ensures Narrowed(Ok(d), extra).Ok?
    ensures Normalized(Narrowed(Ok(d), extra).value).Ok?
    ensures Holds(Narrowed(Ok(d), extra).value, leaf) <==> Holds(d, leaf) && FlagHolds(extra.0, extra.1, leaf)
  {
    if extra.1 != Both {
      var l := ConfigLeaf(extra.0, extra.1);
      LeafDomainNormalized(l);
      AndOfNormalOk(d, [l]);
      AndOfPairHolds(d, [l], leaf);
      LeafDomainHolds(l, leaf);
    }
  }

  /**
   * The extra configuration narrows a domain that normalises: it never fails on it, and a
   * record matches the result exactly when it matches the domain, has a parent (YES) or
   * none (NO) as asked, and has a contract (YES) or none (NO) as asked.
   */
  lemma {:induction false} ExtraConfiguredMeaning(d: seq<PyVal>, parent: TripleFlag, contract: TripleFlag, leaf: PyVal -> bool)
    requires Sound(leaf) && Normalized(d).Ok?
    ensures ExtraConfigured(d, parent, contract).Ok?
    ensures Holds(ExtraConfigured(d, parent, contract).value, leaf) <==>
      Holds(d, leaf) && FlagHolds("parent_id", parent, leaf) && FlagHolds("subscription_id", contract, leaf)
  {
    var e := ExtraDomains(parent, contract);
    NarrowedByTwo(Ok(d), e);
    NarrowedMeaning(d, e[0], leaf);
    NarrowedMeaning(Narrowed(Ok(d), e[0]).value, e[1], leaf);
  }

  /** With both flags at BOTH the domain is returned as it is, even one that does not normalise. */
  lemma {:induction false} ExtraConfiguredBoth(d: seq<PyVal>)
    ensures ExtraConfigured(d, Both, Both) == Ok(d)
  {
    NarrowedByTwo(Ok(d), ExtraDomains(Both, Both));
  }

  /** One narrowing step on an ordinary normalisable domain: one `&` in front, the leaf at the end. */
  lemma {:induction false} NarrowedStep(d: seq<PyVal>, extra: (string, TripleFlag))
    requires extra.1 != Both
    requires d != [] && d != TrueDomain && d != FalseDomain && Normalized(d).Ok?
    ensures Narrowed(Ok(d), extra) == Ok([AndOperator] + Normalized(d).value + [Normal(ConfigLeaf(extra.0, extra.1))])
    ensures var r := Narrowed(Ok(d), extra).value;
      r != [] && r != TrueDomain && r != FalseDomain && Normalized(r) == Ok(r)
  {
    var l := ConfigLeaf(extra.0, extra.1);
    LeafDomainNormalized(l);
    AndOfTwo(d, [l]);
    AndOfNormalOk(d, [l]);
    NormalizedIsNormalized(d);
  }

  /** The two narrowing steps of the extra configuration, parent first. */
  lemma {:induction false} ExtraConfiguredSteps(d: seq<PyVal>, parent: TripleFlag, contract: TripleFlag)
    ensures ExtraConfigured(d, parent, contract) ==
      Narrowed(Narrowed(Ok(d), ("parent_id", parent)), ("subscription_id", contract))
  {
    NarrowedByTwo(Ok(d), ExtraDomains(parent, contract));
  }

  /**
   * With both flags set, the parent leaf is joined first and the contract leaf second:
   * two `&` in front of the normalised domain, then the parent leaf, then the contract leaf.
   */
  lemma {:induction false} ExtraConfiguredOrder(d: seq<PyVal>, parent: TripleFlag, contract: TripleFlag)
    requires parent != Both && contract != Both
    requires d != [] && d != TrueDomain && d != FalseDomain && Normalized(d).Ok?
    ensures ExtraConfigured(d, parent, contract) ==
      Ok([AndOperator, AndOperator] + Normalized(d).value +
        [Normal(ConfigLeaf("parent_id", parent)), Normal(ConfigLeaf("subscription_id", contract))])
  {
    ExtraConfiguredSteps(d, parent, contract);
    NarrowedStep(d, ("parent_id", parent));
    var d1 := Narrowed(Ok(d), ("parent_id", parent)).value;
    NarrowedStep(d1, ("subscription_id", contract));
    TwoInFront(AndOperator, Normalized(d).value, Normal(ConfigLeaf("parent_id", parent)),
      Normal(ConfigLeaf("subscription_id", contract)));
  }

  lemma {:induction false} TwoInFront<T>(a: T, n: seq<T>, x: T, y: T)
    ensures [a] + ([a] + n + [x]) + [y] == [a, a] + n + [x, y]
  {
  }

  // ---------------------------------------------------------------------------
  // The database, subscription and upgrade request domains
  // ---------------------------------------------------------------------------

  /** The display names of the tasks, one per task, in order. */
  function DisplayNames(tasks: seq<Task>): (r: seq<string>)
    ensures |r| == |tasks| && forall i | 0 <= i < |tasks| :: r[i] == DisplayNameOf(tasks[i].name)
  {
    if |tasks| == 0 then [] else DisplayNames(tasks[..|tasks| - 1]) + [DisplayNameOf(tasks[|tasks| - 1].name)]
  }

  function Strs(ss: seq<string>): (r: seq<PyVal>)
    ensures |r| == |ss| && forall i | 0 <= i < |ss| :: r[i] == PStr(ss[i])
  {
    if |ss| == 0 then [] else Strs(ss[..|ss| - 1]) + [PStr(ss[|ss| - 1])]
  }

  /** `["&", ["db_name", "in", names], ["last_ping", ">", cutoff]]`. */
  function DbNameDomain(names: seq<string>, cutoff: string): seq<PyVal> {
    [AndOperator, Leaf("db_name", "in", PList(Strs(names))), Leaf("last_ping", ">", PStr(cutoff))]
  }

  /** A `&` of two leaves is already one expression: it normalises to itself with tuple leaves. */
  lemma {:induction false} TwoLeafDomainNormalized(a: PyVal, b: PyVal)
    requires IsSequence(a) && !IsAnyTerm(a) && IsSequence(b) && !IsAnyTerm(b)
    ensures Normalized([AndOperator, a, b]) == Ok([AndOperator, PTuple(a.items), PTuple(b.items)])
  {
    var d := [AndOperator, a, b];
    assert d[..0] == [] && d[..3] == d;
    assert NormTokens(d[..0]) == Ok([]);
    assert ScanFrom(Start, d[..0]) == Start;
    ScanNext(d, 0);
    ScanNext(d, 1);
    ScanNext(d, 2);
    assert NormToken(a) == Ok(PTuple(a.items)) && NormToken(b) == Ok(PTuple(b.items));
    NormTokensNext(d, 0, [], AndOperator);
    assert [] + [AndOperator] == [AndOperator];
    NormTokensNext(d, 1, [AndOperator], PTuple(a.items));
    assert [AndOperator] + [PTuple(a.items)] == [AndOperator, PTuple(a.items)];
    NormTokensNext(d, 2, [AndOperator, PTuple(a.items)], PTuple(b.items));
    assert ScanFrom(Start, d) == Scan(0, 0);
    assert [AndOperator, PTuple(a.items)] + [PTuple(b.items)] == [AndOperator, PTuple(a.items), PTuple(b.items)];
    assert NormTokens(d) == Ok([AndOperator, PTuple(a.items), PTuple(b.items)]);
    assert Repeat(AndOperator, 0) == [];
    assert Normalized(d) == Ok(Repeat(AndOperator, 0) + [AndOperator, PTuple(a.items), PTuple(b.items)]);
    assert [] + [AndOperator, PTuple(a.items), PTuple(b.items)] == [AndOperator, PTuple(a.items), PTuple(b.items)];
  }

  /** A `&` of two leaves holds exactly when both leaves do. */
  lemma {:induction false} TwoLeafDomainHolds(a: PyVal, b: PyVal, leaf: PyVal -> bool)
    requires IsSequence(a) && !IsAnyTerm(a) && IsSequence(b) && !IsAnyTerm(b)
    ensures Holds([AndOperator, a, b], leaf) <==> leaf(PTuple(a.items)) && leaf(PTuple(b.items))
  {
    TwoLeafDomainNormalized(a, b);
    var ta, tb := PTuple(a.items), PTuple(b.items);
    LeafHolds(ta, leaf);
    LeafHolds(tb, leaf);
    EvalBinary(AndOperator, [ta], [tb], leaf);
    assert [AndOperator] + [ta] + [tb] == [AndOperator, ta, tb];
  }

  /**
   * `_get_databases_domain(tasks)`: databases named like one of the tasks and pinged
   * after the cutoff date, narrowed by the parent and contract flags. The cutoff, which
   * the source computes as today minus 30 days, is a parameter.
   */
  method GetDatabasesDomain(s: Strategy, tasks: seq<Task>, cutoff: string) returns (r: Result<seq<PyVal>>)
    ensures r == ExtraConfigured(DbNameDomain(DisplayNames(tasks), cutoff), s.parent, s.contract)
  {
    var domain := DbNameDomain(DisplayNames(tasks), cutoff);
    r := AddDatabaseExtraConfigDomains(s, domain);
  }

  /**
   * The database domain never fails, and a database matches it exactly when its name is
   * one of the tasks' display names, its last ping is after the cutoff, and the parent
   * and contract flags accept it.
   */
  lemma {:induction false} DatabasesDomainMeaning(names: seq<string>, cutoff: string, parent: TripleFlag, contract: TripleFlag,
                               leaf: PyVal -> bool)
    requires Sound(leaf)
    ensures ExtraConfigured(DbNameDomain(names, cutoff), parent, contract).Ok?
    ensures Holds(ExtraConfigured(DbNameDomain(names, cutoff), parent, contract).value, leaf) <==>
      leaf(Normal(Leaf("db_name", "in", PList(Strs(names))))) &&
      leaf(Normal(Leaf("last_ping", ">", PStr(cutoff)))) &&
      FlagHolds("parent_id", parent, leaf) && FlagHolds("subscription_id", contract, leaf)
  {
    var a, b := Leaf("db_name", "in", PList(Strs(names))), Leaf("last_ping", ">", PStr(cutoff));
    TwoLeafDomainNormalized(a, b);
    TwoLeafDomainHolds(a, b, leaf);
    ExtraConfiguredMeaning(DbNameDomain(names, cutoff), parent, contract, leaf);
  }

  /** The subscription ids of the databases, in order. */
  function SubscriptionIds(dbs: seq<Database>): (r: seq<PyVal>)
    ensures |r| == |dbs| && forall i | 0 <= i < |dbs| :: r[i] == dbs[i].subscriptionId
  {
    if |dbs| == 0 then [] else SubscriptionIds(dbs[..|dbs| - 1]) + [dbs[|dbs| - 1].subscriptionId]
  }

  /** The `db_uuid`s of the databases, in order. */
  function DbUuids(dbs: seq<Database>): (r: seq<PyVal>)
    ensures |r| == |dbs| && forall i | 0 <= i < |dbs| :: r[i] == dbs[i].dbUuid
  {
    if |dbs| == 0 then [] else DbUuids(dbs[..|dbs| - 1]) + [dbs[|dbs| - 1].dbUuid]
  }

  /**
   * `_get_subscription_domain(databases)`: `[["id", "in", ids]]` where the ids are the
   * set subscription ids of the databases, in database order.
   */
  function SubscriptionDomain(dbs: seq<Database>): (r: seq<PyVal>)
    ensures |r| == 1 && r[0].PList? && |r[0].items| == 3
    ensures r[0].items[0] == PStr("id") && r[0].items[1] == PStr("in")
    ensures r[0].items[2] == PList(TruthyOnly(SubscriptionIds(dbs)))
    ensures forall v | v in r[0].items[2].items ::
      Truthy(v) && exists i | 0 <= i < |dbs| :: dbs[i].subscriptionId == v
    ensures forall i | 0 <= i < |dbs| && Truthy(dbs[i].subscriptionId) :: dbs[i].subscriptionId in r[0].items[2].items
  {
    var ids := TruthyOnly(SubscriptionIds(dbs));
    assert forall v | v in ids :: v in SubscriptionIds(dbs);
    [Leaf("id", "in", PList(ids))]
  }

  /** The request states an upgrade request is excluded in. */
  const ExcludedStates: seq<PyVal> := [PStr("new"), PStr("pending"), PStr("progress"), PStr("cancelled")]

  /** `_get_upgrade_request_domain` for a list of `db_uuid`s. */
  function UpgradeRequestDomainFor(uuids: seq<PyVal>): seq<PyVal> {
    [Leaf("db_uuid", "in", PList(uuids)), Leaf("state", "not in", PList(ExcludedStates)),
     Leaf("active", "in", PList([PBool(true), PBool(false)]))]
  }

  /**
   * `_get_upgrade_request_domain(databases)`: requests of the databases' set `db_uuid`s,
   * in database order, that are not new, pending, in progress or cancelled, archived or not.
   */
  function UpgradeRequestDomain(dbs: seq<Database>): (r: seq<PyVal>)
    ensures r == UpgradeRequestDomainFor(TruthyOnly(DbUuids(dbs)))
    ensures forall v | v in r[0].items[2].items :: Truthy(v) && exists i | 0 <= i < |dbs| :: dbs[i].dbUuid == v
    ensures forall i | 0 <= i < |dbs| && Truthy(dbs[i].dbUuid) :: dbs[i].dbUuid in r[0].items[2].items
  {
    var uuids := TruthyOnly(DbUuids(dbs));
    assert forall v | v in uuids :: v in DbUuids(dbs);
    UpgradeRequestDomainFor(uuids)
  }

  /**
   * The three leaves of the upgrade request domain are joined by the implicit `&`:
   * normalisation puts two `&` in front, and the domain holds exactly when all three
   * leaves do.
   */
  lemma {:induction false} UpgradeRequestDomainIsConjunction(uuids: seq<PyVal>, leaf: PyVal -> bool)
    ensures var d := UpgradeRequestDomainFor(uuids);
      Normalized(d) == Ok([AndOperator, AndOperator, Normal(d[0]), Normal(d[1]), Normal(d[2])])
    ensures var d := UpgradeRequestDomainFor(uuids);
      Holds(d, leaf) <==> leaf(Normal(d[0])) && leaf(Normal(d[1])) && leaf(Normal(d[2]))
  {
    var d := UpgradeRequestDomainFor(uuids);
    assert PlainLeaves(d);
    PlainLeavesNormalized(d);
    PlainLeavesHold(d, leaf);
    assert Repeat(AndOperator, 2) == [AndOperator, AndOperator];
    assert Tupled(d) == [Normal(d[0]), Normal(d[1]), Normal(d[2])];
    assert |d| - 1 == 2;
    assert Repeat(AndOperator, |d| - 1) + Tupled(d) == [AndOperator, AndOperator, Normal(d[0]), Normal(d[1]), Normal(d[2])];
    assert Normalized(d) == Ok([AndOperator, AndOperator, Normal(d[0]), Normal(d[1]), Normal(d[2])]);
    assert (forall i | 0 <= i < 3 :: leaf(PTuple(d[i].items))) <==>
      leaf(Normal(d[0])) && leaf(Normal(d[1])) && leaf(Normal(d[2]));
  }

  // ---------------------------------------------------------------------------
  // Merging tasks with their databases, subscriptions and upgrade requests
  // ---------------------------------------------------------------------------

  /** The keys `_merge_records` files each kind of record under. */
  function TaskKey(t: Task): string {
    t.DisplayName()
  }

  function DbKey(d: Database): PyVal {
    d.dbName
  }

  function SubKey(s: Subscription): PyVal {
    s.id
  }

  function RequestKey(u: UpgradeRequest): PyVal {
    u.dbUuid
  }

  /** `self.upgrade_rpc and upgrade_request`: requests are attached only when some were fetched. */
  predicate AttachesRequests(upgradeRpc: Option<Connection>, requests: Option<seq<UpgradeRequest>>) {
    upgradeRpc.Some? && requests.Some? && |requests.value| > 0
  }

  /** The request dictionary when requests are attached. */
  function RequestsOf(upgradeRpc: Option<Connection>, requests: Option<seq<UpgradeRequest>>): Option<OrderedDict<PyVal, UpgradeRequest>> {
    if AttachesRequests(upgradeRpc, requests) then Some(BuildDict(requests.value, RequestKey)) else None
  }

  /** The task keys the merge keeps, in order: those with a database, or all when not-found ones are shown. */
  function Kept<D>(keys: seq<string>, dbs: map<PyVal, D>, hideNotFound: bool): seq<string> {
    if |keys| == 0 then []
    else
      var k := keys[|keys| - 1];
      var init := Kept(keys[..|keys| - 1], dbs, hideNotFound);
      if PStr(k) in dbs || !hideNotFound then init + [k] else init
  }

  /** A key is kept exactly when it is a task key with a database, or when not-found ones are shown. */
  lemma {:induction false} KeptMembers<D>(keys: seq<string>, dbs: map<PyVal, D>, hideNotFound: bool)
    ensures forall k :: k in Kept(keys, dbs, hideNotFound) <==> k in keys && (PStr(k) in dbs || !hideNotFound)
    decreases |keys|
  {
    if |keys| > 0 {
      var n := |keys| - 1;
      KeptMembers(keys[..n], dbs, hideNotFound);
      assert keys == keys[..n] + [keys[n]];
    }
  }

  /** Distinct task keys stay distinct, and showing not-found ones keeps them all. */
  lemma {:induction false} KeptDistinct<D>(keys: seq<string>, dbs: map<PyVal, D>, hideNotFound: bool)
    ensures Distinct(keys) ==> Distinct(Kept(keys, dbs, hideNotFound))
    ensures !hideNotFound ==> Kept(keys, dbs, hideNotFound) == keys
    decreases |keys|
  {
    if |keys| > 0 {
      var n := |keys| - 1;
      KeptDistinct(keys[..n], dbs, hideNotFound);
      KeptMembers(keys[..n], dbs, hideNotFound);
      assert keys == keys[..n] + [keys[n]];
    }
  }

  /** One step of the merge loop over distinct keys: the key is new, and kept as `Kept` says. */
  lemma {:induction false} KeptStep<D>(keys: seq<string>, i: nat, dbs: map<PyVal, D>, hideNotFound: bool)
    requires Distinct(keys) && i < |keys|
    ensures keys[i] !in Kept(keys[..i], dbs, hideNotFound)
    ensures Kept(keys[..i + 1], dbs, hideNotFound) ==
      if PStr(keys[i]) in dbs || !hideNotFound then Kept(keys[..i], dbs, hideNotFound) + [keys[i]]
      else Kept(keys[..i], dbs, hideNotFound)
    ensures PStr(keys[i]) in dbs || !hideNotFound ==> keys[i] in Kept(keys, dbs, hideNotFound)
  {
    assert keys[..i + 1][..i] == keys[..i];
    KeptMembers(keys[..i], dbs, hideNotFound);
    KeptMembers(keys, dbs, hideNotFound);
  }

  /**
   * What the merge leaves in a database: the subscription of its `subscription_id`, or a
   * default `Subscription()` when none was fetched, and, when requests are attached, its request.
   */
  predicate Attached(db: Database, subs: map<PyVal, Subscription>, requests: Option<OrderedDict<PyVal, UpgradeRequest>>)
    reads db
  {
    (db.subscriptionId in subs ==> db.subscription == subs[db.subscriptionId]) &&
    (db.subscriptionId !in subs ==> db.subscription.id == PNone && db.subscription.clientOrderRef.value == PNone) &&
    (requests.Some? ==> db.upgradeRequest == Some(requests.value.Get(db.dbUuid, DefaultUpgradeRequest)))
  }

  /**
   * A kept task after the merge, under display name `key`: it has the database of that
   * name, or a new default database (with no upgrade request unless requests are attached)
   * when there is none; either way that database carries its subscription and request.
   */
  predicate Merged(t: Task, key: string, td: map<string, Task>, dbs: map<PyVal, Database>,
                   subs: map<PyVal, Subscription>, requests: Option<OrderedDict<PyVal, UpgradeRequest>>,
                   databases: seq<Database>)
    reads t, t.database
  {
    MergedWith(t, t.database, key, td, dbs, subs, requests, databases)
  }

  /** The body of the loop of `_merge_records` for one kept task. */
  method AttachDatabase(task: Task, found: Option<Database>, subs: OrderedDict<PyVal, Subscription>,
                        requests: Option<OrderedDict<PyVal, UpgradeRequest>>, classSubscription: Subscription)
    modifies task, if found.Some? then {found.value} else {}
    ensures found.Some? ==> task.database == found.value
    ensures found.None? ==> fresh(task.database) && task.database.IsDefault()
    ensures found.None? && requests.None? ==> task.database.upgradeRequest == None
    ensures found.Some? && requests.None? ==> found.value.upgradeRequest == old(found.value.upgradeRequest)
    ensures Attached(task.database, subs.entries, requests)
    ensures task.database.subscriptionId !in subs.entries ==>
      fresh(task.database.subscription) && task.database.subscription.id == PNone &&
      task.database.subscription.clientOrderRef.value == PNone
  {
    var db: Database;
    if found.Some? {
      db := found.value;
    } else {
      db := new Database(PNone, PStr("NO VERSION"), PStr("NO NAME"), PStr(""), PBool(false), PNone, None,
        classSubscription);
    }
    task.database := db;
    if db.subscriptionId in subs.entries {
      db.subscription := subs.entries[db.subscriptionId];
    } else {
      db.subscription := new Subscription(PNone, PNone);
    }
    if requests.Some? {
      db.upgradeRequest := Some(requests.value.Get(db.dbUuid, DefaultUpgradeRequest));
    }
  }

  /**
   * `_merge_records(tasks, databases, subs, upgrade_request)`: the tasks keyed by display
   * name (the last of a name wins, in order of first appearance), each kept one given the
   * database of that name, that database's subscription and, when requests were fetched,
   * the request of its `db_uuid`. `Database()`'s class-level subscription is a parameter.
   */
  method MergeRecords(s: Strategy, tasks: seq<Task>, databases: seq<Database>, subs: seq<Subscription>,
                      upgradeRequest: Option<seq<UpgradeRequest>>, classSubscription: Subscription)
    returns (newTasks: seq<Task>)
    modifies set t | t in tasks, set d | d in databases
    ensures var td := BuildDict(tasks, TaskKey);
      var kept := Kept(td.keys, BuildDict(databases, DbKey).entries, s.hideNotFound);
      |newTasks| == |kept| &&
      forall j | 0 <= j < |kept| ::
        Merged(newTasks[j], kept[j], td.entries, BuildDict(databases, DbKey).entries, BuildDict(subs, SubKey).entries,
          RequestsOf(s.upgradeRpc, upgradeRequest), databases)
    ensures forall t | t in tasks && t !in newTasks :: t.database == old(t.database)
    ensures forall d | d in databases && (forall j | 0 <= j < |newTasks| :: newTasks[j].database != d) ::
      d.subscription == old(d.subscription) && d.upgradeRequest == old(d.upgradeRequest)
    ensures !AttachesRequests(s.upgradeRpc, upgradeRequest) ==>
      forall d | d in databases :: d.upgradeRequest == old(d.upgradeRequest)
  {
    var transformedTasks := ListToDict(tasks, TaskKey);
    var transformedDatabases := ListToDict(databases, DbKey);
    var transformedSubs := ListToDict(subs, SubKey);
    var requests: Option<OrderedDict<PyVal, UpgradeRequest>> := None;
    if AttachesRequests(s.upgradeRpc, upgradeRequest) {
      var transformedUpgradeRequest := ListToDict(upgradeRequest.value, RequestKey);
      requests := Some(transformedUpgradeRequest);
    }
    BuildDictKeys(tasks, TaskKey);
    forall k | k in transformedTasks.entries
      ensures transformedTasks.entries[k] in tasks && TaskKey(transformedTasks.entries[k]) == k
    {
      BuildDictValues(tasks, TaskKey, k);
    }
    forall k | k in transformedDatabases.entries
      ensures transformedDatabases.entries[k] in databases && transformedDatabases.entries[k].dbName == k
    {
      BuildDictValues(databases, DbKey, k);
    }
    newTasks := MergeTasks(tasks, databases, transformedTasks, transformedDatabases, transformedSubs, requests,
      s.hideNotFound, classSubscription);
  }

  /**
   * The `j`-th kept task `t` of the loop, under display name `key`, holding the database
   * `db`: the database of that name, or a new default one.
   */
  predicate MergedWith(t: Task, db: Database, key: string, td: map<string, Task>, dbs: map<PyVal, Database>,
                       subs: map<PyVal, Subscription>, requests: Option<OrderedDict<PyVal, UpgradeRequest>>,
                       databases: seq<Database>)
    reads t, db
  {
    key in td && t == td[key] && t.database == db &&
    (PStr(key) in dbs ==> db == dbs[PStr(key)]) &&
    (PStr(key) !in dbs ==> db !in databases && db.IsDefault() && (requests.None? ==> db.upgradeRequest == None)) &&
    Attached(db, subs, requests)
  }

  /** One kept task of the loop of `_merge_records`: it is given its database, which joins the merged prefix. */
  method MergeStep(task: Task, found: Option<Database>, key: string, td: map<string, Task>,
                   dbs: map<PyVal, Database>, sd: OrderedDict<PyVal, Subscription>,
                   requests: Option<OrderedDict<PyVal, UpgradeRequest>>, classSubscription: Subscription,
                   databases: seq<Database>, ts: seq<Task>, ghost ds: seq<Database>, ghost ks: seq<string>)
    returns (ts': seq<Task>, ghost ds': seq<Database>, ghost ks': seq<string>)
    requires |ts| == |ds| == |ks|
    requires forall k | k in td :: TaskKey(td[k]) == k
    requires forall k | k in dbs :: dbs[k] in databases && dbs[k].dbName == k
    requires key in td && task == td[key] && key !in ks
    requires found.Some? <==> PStr(key) in dbs
    requires found.Some? ==> found.value == dbs[PStr(key)]
    requires forall j | 0 <= j < |ts| :: MergedWith(ts[j], ds[j], ks[j], td, dbs, sd.entries, requests, databases)
    modifies task, if found.Some? then {found.value} else {}
    ensures found.Some? ==> task.database == found.value
    ensures ts' == ts + [task] && ds' == ds + [task.database] && ks' == ks + [key]
    ensures forall j | 0 <= j < |ts'| :: MergedWith(ts'[j], ds'[j], ks'[j], td, dbs, sd.entries, requests, databases)
    ensures requests.None? ==> forall d | d in databases :: d.upgradeRequest == old(d.upgradeRequest)
  {
    assert task !in ts by {
      forall j | 0 <= j < |ts| ensures ts[j] != task {
        assert TaskKey(ts[j]) == ks[j];
      }
    }
    assert found.Some? ==> found.value !in ds by {
      if found.Some? {
        forall j | 0 <= j < |ds| ensures ds[j] != found.value {
          if PStr(ks[j]) in dbs {
            assert ds[j].dbName == PStr(ks[j]);
          }
        }
      }
    }
    AttachDatabase(task, found, sd, requests, classSubscription);
    ts', ds', ks' := ts + [task], ds + [task.database], ks + [key];
  }

  /**
   * The loop of `_merge_records` over the task dictionary, with what it builds: the kept
   * keys in order, and the database each kept task is given.
   */
  method MergeLoop(databases: seq<Database>, td: OrderedDict<string, Task>,
                   dd: OrderedDict<PyVal, Database>, sd: OrderedDict<PyVal, Subscription>,
                   requests: Option<OrderedDict<PyVal, UpgradeRequest>>, hideNotFound: bool,
                   classSubscription: Subscription, ghost touchedTasks: set<Task>,
                   ghost touchedDatabases: set<Database>)
    returns (newTasks: seq<Task>, ghost kept: seq<string>, ghost dbObjs: seq<Database>)
    requires td.Valid()
    requires forall k | k in td.entries :: TaskKey(td.entries[k]) == k
    requires forall k | k in dd.entries :: dd.entries[k] in databases && dd.entries[k].dbName == k
    requires forall k | k in td.entries && (PStr(k) in dd.entries || !hideNotFound) :: td.entries[k] in touchedTasks
    requires forall k | k in td.entries && PStr(k) in dd.entries :: dd.entries[PStr(k)] in touchedDatabases
    modifies touchedTasks, touchedDatabases
    ensures kept == Kept(td.keys, dd.entries, hideNotFound)
    ensures |newTasks| == |kept| == |dbObjs|
    ensures forall j | 0 <= j < |kept| ::
      MergedWith(newTasks[j], dbObjs[j], kept[j], td.entries, dd.entries, sd.entries, requests, databases)
    ensures requests.None? ==> forall d | d in databases :: d.upgradeRequest == old(d.upgradeRequest)
  {
    var keys := td.keys;
    newTasks := [];
    kept := [];
    dbObjs := [];
    for i := 0 to |keys|
      invariant kept == Kept(keys[..i], dd.entries, hideNotFound)
      invariant |newTasks| == |kept| == |dbObjs|
      invariant forall j | 0 <= j < |kept| ::
        MergedWith(newTasks[j], dbObjs[j], kept[j], td.entries, dd.entries, sd.entries, requests, databases)
      invariant requests.None? ==> forall d | d in databases :: d.upgradeRequest == old(d.upgradeRequest)
    {
      newTasks, kept, dbObjs := MergeKey(databases, td, dd, sd, requests, hideNotFound, classSubscription,
        touchedTasks, touchedDatabases, i, newTasks, kept, dbObjs);
    }
    assert keys[..|keys|] == keys;
  }

  /** One turn of the loop of `_merge_records`: the key `td.keys[i]` is merged and kept, or skipped. */
  method MergeKey(databases: seq<Database>, td: OrderedDict<string, Task>,
                  dd: OrderedDict<PyVal, Database>, sd: OrderedDict<PyVal, Subscription>,
                  requests: Option<OrderedDict<PyVal, UpgradeRequest>>, hideNotFound: bool,
                  classSubscription: Subscription, ghost touchedTasks: set<Task>,
                  ghost touchedDatabases: set<Database>, i: nat, newTasks: seq<Task>,
                  ghost kept: seq<string>, ghost dbObjs: seq<Database>)
    returns (newTasks': seq<Task>, ghost kept': seq<string>, ghost dbObjs': seq<Database>)
    requires td.Valid() && i < |td.keys|
    requires forall k | k in td.entries :: TaskKey(td.entries[k]) == k
    requires forall k | k in dd.entries :: dd.entries[k] in databases && dd.entries[k].dbName == k
    requires forall k | k in td.entries && (PStr(k) in dd.entries || !hideNotFound) :: td.entries[k] in touchedTasks
    requires forall k | k in td.entries && PStr(k) in dd.entries :: dd.entries[PStr(k)] in touchedDatabases
    requires kept == Kept(td.keys[..i], dd.entries, hideNotFound)
    requires |newTasks| == |kept| == |dbObjs|
    requires forall j | 0 <= j < |kept| ::
      MergedWith(newTasks[j], dbObjs[j], kept[j], td.entries, dd.entries, sd.entries, requests, databases)
    modifies touchedTasks, touchedDatabases
    ensures kept' == Kept(td.keys[..i + 1], dd.entries, hideNotFound)
    ensures |newTasks'| == |kept'| == |dbObjs'|
    ensures forall j | 0 <= j < |kept'| ::
      MergedWith(newTasks'[j], dbObjs'[j], kept'[j], td.entries, dd.entries, sd.entries, requests, databases)
    ensures requests.None? ==> forall d | d in databases :: d.upgradeRequest == old(d.upgradeRequest)
  {
    var key := td.keys[i];
    KeptStep(td.keys, i, dd.entries, hideNotFound);
    newTasks', kept', dbObjs' := newTasks, kept, dbObjs;
    var found: Option<Database> := None;
    if PStr(key) in dd.entries {
      found := Some(dd.entries[PStr(key)]);
    }
    if found.Some? || !hideNotFound {
      newTasks', dbObjs', kept' := MergeStep(td.entries[key], found, key, td.entries, dd.entries, sd, requests,
        classSubscription, databases, newTasks, dbObjs, kept);
    }
  }

  /** Every task and database the loop may change is one it returns or attaches. */
  lemma {:induction false} MergeCovers(td: OrderedDict<string, Task>, dd: OrderedDict<PyVal, Database>,
                    sd: OrderedDict<PyVal, Subscription>, requests: Option<OrderedDict<PyVal, UpgradeRequest>>,
                    hideNotFound: bool, databases: seq<Database>, newTasks: seq<Task>, kept: seq<string>,
                    dbObjs: seq<Database>, touchedTasks: set<Task>, touchedDatabases: set<Database>)
    requires td.Valid()
    requires kept == Kept(td.keys, dd.entries, hideNotFound) && |newTasks| == |kept| == |dbObjs|
    requires forall j | 0 <= j < |kept| ::
      MergedWith(newTasks[j], dbObjs[j], kept[j], td.entries, dd.entries, sd.entries, requests, databases)
    requires touchedTasks == set k | k in td.entries && (PStr(k) in dd.entries || !hideNotFound) :: td.entries[k]
    requires touchedDatabases == set k | k in td.entries && PStr(k) in dd.entries :: dd.entries[PStr(k)]
    ensures forall t | t in touchedTasks :: t in newTasks
    ensures forall d | d in touchedDatabases :: exists j | 0 <= j < |newTasks| :: newTasks[j].database == d
  {
    KeptMembers(td.keys, dd.entries, hideNotFound);
    forall t | t in touchedTasks
      ensures t in newTasks
    {
      var k :| k in td.entries && (PStr(k) in dd.entries || !hideNotFound) && td.entries[k] == t;
      var j :| 0 <= j < |kept| && kept[j] == k;
      assert newTasks[j] == t;
    }
    forall d | d in touchedDatabases
      ensures exists j | 0 <= j < |newTasks| :: newTasks[j].database == d
    {
      var k :| k in td.entries && PStr(k) in dd.entries && dd.entries[PStr(k)] == d;
      var j :| 0 <= j < |kept| && kept[j] == k;
      assert newTasks[j].database == d;
    }
  }

  /** `_merge_records` past building the dictionaries: the kept tasks, merged, and nothing else changed. */
  method MergeTasks(tasks: seq<Task>, databases: seq<Database>, td: OrderedDict<string, Task>,
                    dd: OrderedDict<PyVal, Database>, sd: OrderedDict<PyVal, Subscription>,
                    requests: Option<OrderedDict<PyVal, UpgradeRequest>>, hideNotFound: bool,
                    classSubscription: Subscription)
    returns (newTasks: seq<Task>)
    requires td.Valid()
    requires forall k | k in td.entries :: td.entries[k] in tasks && TaskKey(td.entries[k]) == k
    requires forall k | k in dd.entries :: dd.entries[k] in databases && dd.entries[k].dbName == k
    modifies set t | t in tasks, set d | d in databases
    ensures var kept := Kept(td.keys, dd.entries, hideNotFound);
      |newTasks| == |kept| &&
      forall j | 0 <= j < |kept| :: Merged(newTasks[j], kept[j], td.entries, dd.entries, sd.entries, requests, databases)
    ensures forall t | t in tasks && t !in newTasks :: t.database == old(t.database)
    ensures forall d | d in databases && (forall j | 0 <= j < |newTasks| :: newTasks[j].database != d) ::
      d.subscription == old(d.subscription) && d.upgradeRequest == old(d.upgradeRequest)
    ensures requests.None? ==> forall d | d in databases :: d.upgradeRequest == old(d.upgradeRequest)
  {
    ghost var touchedTasks := set k | k in td.entries && (PStr(k) in dd.entries || !hideNotFound) :: td.entries[k];
    ghost var touchedDatabases := set k | k in td.entries && PStr(k) in dd.entries :: dd.entries[PStr(k)];
    ghost var kept, dbObjs;
    newTasks, kept, dbObjs := MergeLoop(databases, td, dd, sd, requests, hideNotFound, classSubscription,
      touchedTasks, touchedDatabases);
    MergeCovers(td, dd, sd, requests, hideNotFound, databases, newTasks, kept, dbObjs, touchedTasks,
      touchedDatabases);
  }

  // ---------------------------------------------------------------------------
  // Rows
  // ---------------------------------------------------------------------------

  /**
   * The row `get_clean_row(odoo_url)` renders for a task in its current state, once its
   * parent flag renders as YES/NO.
   */
  function CleanRow(t: Task, odooUrl: string): Result<seq<PyVal>>
    reads t, t.database
  {
    RowOf(t.name, t.database.version, SubValue(t.database.subscription.clientOrderRef.value, t.showSub),
      YesOrNoValue(t.database.parentId.value), Some(t.database.GetDateValid()), t.TaskLink(odooUrl),
      Truthy(t.upgradeMode), t.database.upgradeRequest)
  }

  /**
   * Tasks whose rows can be rendered one after the other: every parent flag renders as
   * YES/NO and none of them is the customer-reference wrapper that rendering updates.
   */
  predicate RowsReady(tasks: seq<Task>)
    reads set t | t in tasks, set t | t in tasks :: t.database, set t | t in tasks :: t.database.parentId
  {
    (forall t | t in tasks :: t.database.parentId.valueIfTrue == PBool(false)) &&
    forall t, u | t in tasks && u in tasks :: t.database.parentId != u.database.subscription.clientOrderRef
  }

  /** The customer-reference wrapper of each task's subscription, in task order. */
  function Wrappers(tasks: seq<Task>): (ws: seq<BoolStr>)
    reads set t | t in tasks, set t | t in tasks :: t.database
    ensures |ws| == |tasks| && forall j | 0 <= j < |tasks| :: ws[j] == tasks[j].database.subscription.clientOrderRef
  {
    seq(|tasks|, j requires 0 <= j < |tasks| reads set t | t in tasks, set t | t in tasks :: t.database =>
      tasks[j].database.subscription.clientOrderRef)
  }

  /** What rendering each task's row gives, in task order. */
  function RowOutcomes(tasks: seq<Task>, odooUrl: string): (r: seq<Result<seq<PyVal>>>)
    reads set t | t in tasks, set t | t in tasks :: t.database
    ensures |r| == |tasks| && forall i | 0 <= i < |tasks| :: r[i] == CleanRow(tasks[i], odooUrl)
  {
    seq(|tasks|, i requires 0 <= i < |tasks| reads set t | t in tasks, set t | t in tasks :: t.database => CleanRow(tasks[i], odooUrl))
  }

  /**
   * `[task.get_clean_row(odoo_url) for task in tasks]`: the rows in task order, or the
   * failure of the first task whose row fails.
   */
  function CleanRows(tasks: seq<Task>, odooUrl: string): Result<seq<seq<PyVal>>>
    reads set t | t in tasks, set t | t in tasks :: t.database
  {
    Collect(RowOutcomes(tasks, odooUrl))
  }

  /**
   * `_transform_to_rows(tasks)`: every task's row, or in lucky mode the row at the
   * position `random.choice` draws, `pick` modulo the number of rows; drawing from no
   * rows fails.
   */
  method TransformToRows(s: Strategy, tasks: seq<Task>, pick: nat) returns (r: Result<seq<seq<PyVal>>>)
    requires RowsReady(tasks)
    modifies set t | t in tasks :: t.database.subscription.clientOrderRef
    ensures var rows := old(CleanRows(tasks, StrOf(s.odooUrl)));
      (rows.Err? || !s.lucky ==> r == rows) &&
      (rows.Ok? && s.lucky && rows.value == [] ==> r == Err(ChoiceFromEmpty)) &&
      (rows.Ok? && s.lucky && rows.value != [] ==> r == Ok([rows.value[pick % |rows.value|]]))
    ensures old(CleanRows(tasks, StrOf(s.odooUrl))).Ok? ==> forall j | 0 <= j < |tasks| &&
      (forall k | j < k < |tasks| :: tasks[k].database.subscription.clientOrderRef != tasks[j].database.subscription.clientOrderRef) ::
      tasks[j].database.subscription.clientOrderRef.valueIfTrue == tasks[j].showSub
  {
    var rows := RenderRows(tasks, StrOf(s.odooUrl), set t | t in tasks :: t.database.subscription.clientOrderRef);
    if rows.Err? || !s.lucky {
      return rows;
    }
    if |rows.value| == 0 {
      return Err(ChoiceFromEmpty);
    }
    r := Ok([rows.value[pick % |rows.value|]]);
  }

  /**
   * `tasks[i].get_clean_row(odoo_url)`: the row `CleanRow` describes; it sets the task's
   * customer-reference wrapper to the task's `show_sub`, so every wrapper of `tasks[..i + 1]`
   * holds the `show_sub` of the last of those tasks that uses it.
   */
  method RenderRow(tasks: seq<Task>, i: nat, odooUrl: string, ghost ws: seq<BoolStr>,
                   ghost outcomes: seq<Result<seq<PyVal>>>)
    returns (row: Result<seq<PyVal>>)
    requires i < |tasks| && Wrappers(tasks) == ws && RowOutcomes(tasks, odooUrl) == outcomes
    requires tasks[i].database.parentId.valueIfTrue == PBool(false) && tasks[i].database.parentId != ws[i]
    requires forall j | 0 <= j < i && LastUser(ws, j, i) :: ws[j].valueIfTrue == tasks[j].showSub
    modifies ws[i]
    ensures row == outcomes[i]
    ensures Wrappers(tasks) == ws && RowOutcomes(tasks, odooUrl) == outcomes
    ensures forall j | 0 <= j < i + 1 && LastUser(ws, j, i + 1) :: ws[j].valueIfTrue == tasks[j].showSub
  {
    ghost var before := ValuesOf(ws);
    row := tasks[i].GetCleanRow(odooUrl);
    LastWriteWins(tasks, ws, before, i);
  }

  /** No task after task `j` and before task `n` uses the wrapper `ws[j]`. */
  predicate LastUser(ws: seq<BoolStr>, j: int, n: int)
    requires 0 <= j < |ws| && n <= |ws|
  {
    forall k | j < k < n :: ws[k] != ws[j]
  }

  /** The current `value_if_true` of each wrapper. */
  ghost function ValuesOf(ws: seq<BoolStr>): (vs: seq<PyVal>)
    reads set w | w in ws
    ensures |vs| == |ws| && forall j | 0 <= j < |ws| :: vs[j] == ws[j].valueIfTrue
  {
    seq(|ws|, j requires 0 <= j < |ws| reads set w | w in ws => ws[j].valueIfTrue)
  }

  /**
   * Once wrapper `ws[i]` holds `tasks[i]`'s `show_sub` and every other wrapper still holds
   * its value `before`, every wrapper of `tasks[..i + 1]` holds the `show_sub` of the last
   * task using it.
   */
  lemma {:induction false} LastWriteWins(tasks: seq<Task>, ws: seq<BoolStr>, before: seq<PyVal>, i: nat)
    requires i < |tasks| == |ws| == |before|
    requires forall j | 0 <= j < i && LastUser(ws, j, i) :: before[j] == tasks[j].showSub
    requires ws[i].valueIfTrue == tasks[i].showSub
    requires forall j | 0 <= j < i && ws[j] != ws[i] :: ws[j].valueIfTrue == before[j]
    ensures forall j | 0 <= j < i + 1 && LastUser(ws, j, i + 1) :: ws[j].valueIfTrue == tasks[j].showSub
  {
    forall j | 0 <= j < i + 1 && LastUser(ws, j, i + 1)
      ensures ws[j].valueIfTrue == tasks[j].showSub
    {
      if j < i {
        assert ws[i] != ws[j] && LastUser(ws, j, i);
      }
    }
  }

  /**
   * `[task.get_clean_row(odoo_url) for task in tasks]`, where rendering changes only the
   * customer-reference wrappers `refs`, none of which is a parent flag.
   */
  method RenderRows(tasks: seq<Task>, odooUrl: string, ghost refs: set<BoolStr>) returns (r: Result<seq<seq<PyVal>>>)
    requires forall j | 0 <= j < |tasks| ::
      tasks[j].database.parentId.valueIfTrue == PBool(false) && tasks[j].database.parentId !in refs &&
      tasks[j].database.subscription.clientOrderRef in refs
    modifies refs
    ensures r == old(CleanRows(tasks, odooUrl))
    ensures r.Ok? ==> forall j | 0 <= j < |tasks| &&
      (forall k | j < k < |tasks| :: tasks[k].database.subscription.clientOrderRef != tasks[j].database.subscription.clientOrderRef) ::
      tasks[j].database.subscription.clientOrderRef.valueIfTrue == tasks[j].showSub
  {
    ghost var ws := Wrappers(tasks);
    r := RenderLoop(tasks, odooUrl, ws);
    assert Wrappers(tasks) == ws;
  }

  /**
   * The loop of `RenderRows` over the tasks' customer-reference wrappers `ws`, none of
   * which is a parent flag.
   */
  method RenderLoop(tasks: seq<Task>, odooUrl: string, ghost ws: seq<BoolStr>) returns (r: Result<seq<seq<PyVal>>>)
    requires Wrappers(tasks) == ws
    requires forall j | 0 <= j < |tasks| ::
      tasks[j].database.parentId.valueIfTrue == PBool(false) && tasks[j].database.parentId !in ws
    modifies set w | w in ws
    ensures r == old(CleanRows(tasks, odooUrl))
    ensures r.Ok? ==> forall j | 0 <= j < |tasks| && LastUser(ws, j, |tasks|) :: ws[j].valueIfTrue == tasks[j].showSub
  {
    ghost var outcomes := RowOutcomes(tasks, odooUrl);
    var rows: seq<seq<PyVal>> := [];
    for i := 0 to |tasks|
      invariant Collect(outcomes[..i]) == Ok(rows)
      invariant Wrappers(tasks) == ws && RowOutcomes(tasks, odooUrl) == outcomes
      invariant forall j | 0 <= j < i && LastUser(ws, j, i) :: ws[j].valueIfTrue == tasks[j].showSub
    {
      var row := RenderRow(tasks, i, odooUrl, ws, outcomes);
      CollectNext(outcomes, i, rows);
      if row.Err? {
        return Err(row.error);
      }
      rows := rows + [row.value];
    }
    assert outcomes[..|tasks|] == outcomes;
    r := Ok(rows);
  }

  // ---------------------------------------------------------------------------
  // The task table
  // ---------------------------------------------------------------------------

  /** A column header: its title and the minimum width it asks for, if any. */
  datatype Header = Header(title: string, minWidth: Option<nat>)

  /** The row's last cell, the task link. */
  predicate HasLink(row: seq<PyVal>) {
    |row| > 0 && row[|row| - 1].PStr?
  }

  /** `len(row[-1])`. */
  function LinkLength(row: seq<PyVal>): nat
    requires HasLink(row)
  {
    |row[|row| - 1].s|
  }

  /** `max(len(row[-1]) for row in rows) if len(rows) else 0`. */
  function LinkWidth(rows: seq<seq<PyVal>>): (w: nat)
    requires forall i | 0 <= i < |rows| :: HasLink(rows[i])
    ensures forall i | 0 <= i < |rows| :: LinkLength(rows[i]) <= w
    ensures |rows| == 0 ==> w == 0
    ensures |rows| > 0 ==> exists i | 0 <= i < |rows| :: LinkLength(rows[i]) == w
  {
    if |rows| == 0 then 0
    else
      var n := |rows| - 1;
      assert forall i | 0 <= i < n :: rows[..n][i] == rows[i];
      var prev := LinkWidth(rows[..n]);
      var last := LinkLength(rows[n]);
      if n > 0 && prev >= last then prev else last
  }

  /** The task table's headers: 6 columns, with "Traceback" at index 4 when upgrades are shown. */
  function TaskHeaders(upgrade: bool, linkWidth: nat): (hs: seq<Header>)
    ensures |hs| == if upgrade then 7 else 6
    ensures hs[|hs| - 1] == Header("Link", Some(linkWidth))
    ensures hs[..4] == [Header("Task Name", None), Header("Version", None), Header("Sub", None), Header("Parent", None)]
    ensures upgrade ==> hs[4] == Header("Traceback", None)
    ensures hs[|hs| - 2] == Header("Exp Date", None)
  {
    var titles := [Header("Task Name", None), Header("Version", None), Header("Sub", None), Header("Parent", None),
      Header("Exp Date", None), Header("Link", Some(linkWidth))];
    if upgrade then InsertAt(titles, 4, Header("Traceback", None)) else titles
  }

  /** `_display_task_list(rows)`: the headers, sized to the longest link, and the rows as given. */
  function DisplayTaskList(s: Strategy, rows: seq<seq<PyVal>>): (r: (seq<Header>, seq<seq<PyVal>>))
    reads s
    requires forall i | 0 <= i < |rows| :: HasLink(rows[i])
    ensures r.1 == rows
    ensures r.0 == TaskHeaders(s.upgradeRpc.Some?, LinkWidth(rows))
  {
    (TaskHeaders(s.upgradeRpc.Some?, LinkWidth(rows)), rows)
  }

  /** Every rendered row ends with its task link, so the table can be sized. */
  lemma {:induction false} CleanRowsHaveLinks(tasks: seq<Task>, odooUrl: string)
    requires CleanRows(tasks, odooUrl).Ok?
    ensures var rows := CleanRows(tasks, odooUrl).value;
      |rows| == |tasks| &&
      forall i | 0 <= i < |rows| :: HasLink(rows[i]) && rows[i][|rows[i]| - 1] == PStr(tasks[i].TaskLink(odooUrl))
  {
    var outcomes := RowOutcomes(tasks, odooUrl);
    var rows := CleanRows(tasks, odooUrl).value;
    CollectMeaning(outcomes);
    forall i | 0 <= i < |rows|
      ensures HasLink(rows[i]) && rows[i][|rows[i]| - 1] == PStr(tasks[i].TaskLink(odooUrl))
    {
      assert CleanRow(tasks[i], odooUrl) == Ok(rows[i]);
    }
  }

  // ---------------------------------------------------------------------------
  // Ordering by expiry date
  // ---------------------------------------------------------------------------

  /** `a.timestamp() < b.timestamp()`: the earlier of two dates, field by field. */
  predicate Earlier(a: DateTime, b: DateTime) {
    a.year < b.year || (a.year == b.year && (a.month < b.month || (a.month == b.month &&
    (a.day < b.day || (a.day == b.day && (a.hour < b.hour || (a.hour == b.hour &&
    (a.minute < b.minute || (a.minute == b.minute && a.second < b.second)))))))))
  }

  /** Tasks none of which has a later date than one after it. */
  predicate Ascending(ts: seq<Task>, dates: map<Task, DateTime>) {
    (forall t | t in ts :: t in dates) &&
    forall i, j | 0 <= i < j < |ts| :: !Earlier(dates[ts[j]], dates[ts[i]])
  }

  /** Places `t` after every task whose date is not later than its own. */
  function InsertByDate(t: Task, ts: seq<Task>, dates: map<Task, DateTime>): (r: seq<Task>)
    requires t in dates && forall u | u in ts :: u in dates
    ensures multiset(r) == multiset(ts) + multiset{t}
    ensures forall u | u in r :: u == t || u in ts
  {
    if |ts| == 0 then [t]
    else if Earlier(dates[t], dates[ts[0]]) then [t] + ts
    else
      assert ts == [ts[0]] + ts[1..];
      [ts[0]] + InsertByDate(t, ts[1..], dates)
  }

  /** `sorted(ts, key=date)`: each task inserted, in turn, after the ones not later than it. */
  function SortByDate(ts: seq<Task>, dates: map<Task, DateTime>): (r: seq<Task>)
    requires forall u | u in ts :: u in dates
    ensures multiset(r) == multiset(ts)
  {
    if |ts| == 0 then []
    else
      var n := |ts| - 1;
      assert ts == ts[..n] + [ts[n]];
      var sorted := SortByDate(ts[..n], dates);
      assert forall u | u in sorted :: u in multiset(ts[..n]);
      InsertByDate(ts[n], sorted, dates)
  }

  /** A date earlier than one that is not later than a third is not later than the third. */
  lemma {:induction false} EarlierThenNotLater(a: DateTime, b: DateTime, c: DateTime)
    requires Earlier(a, b) && !Earlier(c, b)
    ensures !Earlier(c, a)
  {
  }

  /** A task placed first, before every task of an ascending list, leaves it ascending. */
  lemma {:induction false} PrependAscending(t: Task, ts: seq<Task>, dates: map<Task, DateTime>)
    requires t in dates && Ascending(ts, dates) && |ts| > 0 && Earlier(dates[t], dates[ts[0]])
    ensures Ascending([t] + ts, dates)
  {
    var r := [t] + ts;
    forall j | 0 < j < |r|
      ensures !Earlier(dates[r[j]], dates[t])
    {
      assert r[j] == ts[j - 1];
      if j > 1 {
        EarlierThenNotLater(dates[t], dates[ts[0]], dates[ts[j - 1]]);
      }
    }
    assert forall i, j | 0 < i < j < |r| :: r[i] == ts[i - 1] && r[j] == ts[j - 1];
  }

  /** A task no earlier than every task of an ascending list may go first. */
  lemma {:induction false} ConsAscending(x: Task, ts: seq<Task>, dates: map<Task, DateTime>)
    requires x in dates && Ascending(ts, dates)
    requires forall u | u in ts :: !Earlier(dates[u], dates[x])
    ensures Ascending([x] + ts, dates)
  {
    var r := [x] + ts;
    assert forall j | 0 < j < |r| :: r[j] == ts[j - 1] && r[j] in ts;
    assert forall i, j | 0 < i < j < |r| :: r[i] == ts[i - 1] && r[j] == ts[j - 1];
  }

  /** Inserting into an ascending list keeps it ascending. */
  lemma {:induction false} InsertByDateAscending(t: Task, ts: seq<Task>, dates: map<Task, DateTime>)
    requires t in dates && Ascending(ts, dates)
    ensures Ascending(InsertByDate(t, ts, dates), dates)
  {
    if |ts| == 0 {
    } else if Earlier(dates[t], dates[ts[0]]) {
      PrependAscending(t, ts, dates);
    } else {
      var rest := ts[1..];
      assert forall i | 0 <= i < |rest| :: rest[i] == ts[i + 1];
      InsertByDateAscending(t, rest, dates);
      var tail := InsertByDate(t, rest, dates);
      forall u | u in tail
        ensures !Earlier(dates[u], dates[ts[0]])
      {
        if u != t {
          assert u in rest;
          var m :| 0 <= m < |rest| && rest[m] == u;
          assert ts[m + 1] == u;
        }
      }
      ConsAscending(ts[0], tail, dates);
    }
  }

  /** The sorted tasks are in ascending date order. */
  lemma {:induction false} SortByDateAscending(ts: seq<Task>, dates: map<Task, DateTime>)
    requires forall u | u in ts :: u in dates
    ensures Ascending(SortByDate(ts, dates), dates)
    decreases |ts|
  {
    if |ts| > 0 {
      var n := |ts| - 1;
      SortByDateAscending(ts[..n], dates);
      InsertByDateAscending(ts[n], SortByDate(ts[..n], dates), dates);
    }
  }

  /** The date a task is ordered by: its database's `date_valid`, if it has one. */
  function DateKey(t: Task): Option<DateTime>
    reads t
  {
    t.database.dateValid
  }

  /** The dates of tasks that all have one. */
  function Dates(tasks: seq<Task>): (m: map<Task, DateTime>)
    reads set t | t in tasks
    requires forall t | t in tasks :: DateKey(t).Some?
    ensures forall t | t in tasks :: t in m && m[t] == DateKey(t).value
  {
    map t | t in tasks :: DateKey(t).value
  }

  /**
   * `_get_ordered_tasks(tasks)`: the tasks sorted by the date of their database. With two
   * or more tasks, one without a date cannot be compared and the sort fails.
   */
  function GetOrderedTasks(tasks: seq<Task>): (r: Result<seq<Task>>)
    reads set t | t in tasks
    ensures r.Err? <==> |tasks| >= 2 && exists t | t in tasks :: DateKey(t).None?
    ensures r.Err? ==> r.error == NoneNotOrderable
    ensures r.Ok? ==> multiset(r.value) == multiset(tasks)
    ensures r.Ok? && |tasks| >= 2 ==> Ascending(r.value, Dates(tasks))
    ensures r.Ok? && |tasks| < 2 ==> r.value == tasks
  {
    if |tasks| < 2 then Ok(tasks)
    else if exists t | t in tasks :: DateKey(t).None? then Err(NoneNotOrderable)
    else
      SortByDateAscending(tasks, Dates(tasks));
      Ok(SortByDate(tasks, Dates(tasks)))
  }

  // ---------------------------------------------------------------------------
  // The stats table
  // ---------------------------------------------------------------------------

  /** `str(row.get(key, ""))`. */
  function CellOf(row: map<string, PyVal>, key: string): (c: string)
    ensures key !in row ==> c == ""
    ensures key in row && row[key].PStr? ==> c == row[key].s
    ensures key in row && row[key].PInt? ==> c == IntToStr(row[key].i)
  {
    StrOf(if key in row then row[key] else PStr(""))
  }

  /**
   * `_display_stats_list(rows, group_title)`: the group and "Count" headers and, per row
   * in order, its group value and its count as text.
   */
  function DisplayStatsList(rows: seq<Dict>, groupTitle: string): (r: (seq<Header>, seq<seq<string>>))
    reads set i | 0 <= i < |rows| :: rows[i]
    ensures r.0 == [Header(groupTitle, None), Header("Count", None)]
    ensures |r.1| == |rows|
    ensures forall i | 0 <= i < |rows| :: r.1[i] == [CellOf(rows[i].entries, groupTitle), CellOf(rows[i].entries, CountKey)]
  {
    ([Header(groupTitle, None), Header("Count", None)], StatsCells(rows, groupTitle))
  }

  function StatsCells(rows: seq<Dict>, groupTitle: string): (cs: seq<seq<string>>)
    reads set i | 0 <= i < |rows| :: rows[i]
    ensures |cs| == |rows|
    ensures forall i | 0 <= i < |rows| :: cs[i] == [CellOf(rows[i].entries, groupTitle), CellOf(rows[i].entries, CountKey)]
  {
    if |rows| == 0 then []
    else
      var n := |rows| - 1;
      StatsCells(rows[..n], groupTitle) + [[CellOf(rows[n].entries, groupTitle), CellOf(rows[n].entries, CountKey)]]
  }

  /** A count cell reads back as the count it shows. */
  lemma {:induction false} CountCellRoundTrip(row: map<string, PyVal>)
    requires CountKey in row && row[CountKey].PInt? && row[CountKey].i >= 0
    ensures var c := CellOf(row, CountKey);
      (forall k | 0 <= k < |c| :: IsDigit(c[k])) && ParseNat(c) == row[CountKey].i
  {
    NatToStrRoundTrip(row[CountKey].i);
  }
}
