/**
 * The services: a builder per server model that accumulates a domain, a field list and a
 * limit, then asks the server for records (`fetch`) or grouped counts (`fetch_group`).
 * `Service` is the generic class; the model it queries and the hooks the subclasses
 * override (`TaskService._add_response`, `UpgradeRequestService.clean_for_model`) are
 * chosen by its `kind`.
 */
module Services {
  import opened Python
  import opened Osv
  import opened DomainEval
  import opened Utils
  import opened Rpc
  import UpgradeRequestService

  type Row = map<string, PyVal>

  /** The generic service and its subclasses. */
  datatype Kind = Abstract | Tasks | Databases | SaleOrders | UpgradeRequests

  /** The class attribute `model_name`, unset on the generic service. */
  function ModelName(k: Kind): (r: Option<string>)
    ensures r.None? <==> k == Abstract
    ensures k == UpgradeRequests ==> r == Some(UpgradeRequestService.ModelName)
  {
    match k
    case Abstract => None
    case Tasks => Some("project.task")
    case Databases => Some("openerp.enterprise.database")
    case SaleOrders => Some("sale.order")
    case UpgradeRequests => Some(UpgradeRequestService.ModelName)
  }

  /** The domain after `with_domain(d)` on current domain `a`. */
  function NextDomain(a: seq<PyVal>, d: seq<PyVal>): Result<seq<PyVal>> {
    if |a| > 0 then And([a, d]) else Ok(d)
  }

  /**
   * `with_domain` narrows: under any reading of the leaves that treats TRUE and FALSE
   * leaves as such, the new domain holds exactly when the old one and the added one do.
   */
  lemma {:induction false} NextDomainConjoins(a: seq<PyVal>, d: seq<PyVal>, leaf: PyVal -> bool)
    requires Sound(leaf) && NextDomain(a, d).Ok?
    ensures Holds(NextDomain(a, d).value, leaf) <==> Holds(a, leaf) && Holds(d, leaf)
  {
    if |a| > 0 {
      AndHolds([a, d], leaf);
      assert [a, d][0] == a && [a, d][1] == d;
      if Holds(a, leaf) && Holds(d, leaf) {
        forall i | 0 <= i < 2
          ensures Holds([a, d][i], leaf)
        {
        }
      }
    } else {
      ConstantDomains(leaf);
    }
  }

  /** The flags `TaskService._add_response` writes into a record. */
  function WithFlags(row: Row, showSub: bool, upgradeMode: bool): (r: Row)
    ensures "show_sub" in r && r["show_sub"] == PBool(showSub)
    ensures "upgrade_mode" in r && r["upgrade_mode"] == PBool(upgradeMode)
    ensures forall k | k != "show_sub" && k != "upgrade_mode" :: (k in r <==> k in row) && (k in row ==> r[k] == row[k])
  {
    row["show_sub" := PBool(showSub)]["upgrade_mode" := PBool(upgradeMode)]
  }

  /** What `union_wrapper` is: nothing callable, or `group_by_record_exists` on a key. */
  datatype Wrapper = NotCallable | RecordExists(key: string)

  class Service {
    const kind: Kind
    const odooRpc: Connection
    var domain: seq<PyVal>
    var fields: seq<string>
    /** `limit` is only a class annotation: reading it before `with_limit` fails. */
    var limit: Option<PyVal>
    /** `TaskService.show_sub` and `TaskService.upgrade_mode`. */
    var showSub: bool
    var upgradeMode: bool

    constructor (kind: Kind, odooRpc: Connection)
      ensures this.kind == kind && this.odooRpc == odooRpc
      ensures domain == [] && fields == ["id"] && limit == None
      ensures !showSub && !upgradeMode
    {
      this.kind := kind;
      this.odooRpc := odooRpc;
      domain := [];
      fields := ["id"];
      limit := None;
      showSub := false;
      upgradeMode := false;
    }

    /** `with_domain(d)`: conjoins `d` to the current domain; `AND` may reject either. */
    method WithDomain(d: seq<PyVal>) returns (r: Result<Service>)
      modifies this
      ensures NextDomain(old(domain), d).Ok? ==> r == Ok(this) && domain == NextDomain(old(domain), d).value
      ensures NextDomain(old(domain), d).Err? ==> r == Err(NextDomain(old(domain), d).error) && domain == old(domain)
      ensures fields == old(fields) && limit == old(limit)
      ensures showSub == old(showSub) && upgradeMode == old(upgradeMode)
    {
      if |domain| > 0 {
        var combined := Combine(AndOperator, TrueDomain, FalseDomain, [domain, d]);
        if combined.Err? {
          return Err(combined.error);
        }
        domain := combined.value;
      } else {
        domain := d;
      }
      r := Ok(this);
    }

    /** `with_fields(fs)`: extends the field list in place, duplicates kept. */
    method WithFields(fs: seq<string>) returns (r: Service)
      modifies this
      ensures r == this && fields == old(fields) + fs
      ensures domain == old(domain) && limit == old(limit)
      ensures showSub == old(showSub) && upgradeMode == old(upgradeMode)
    {
      fields := fields + fs;
      r := this;
    }

    /** `with_limit(l)`. */
    method WithLimit(l: PyVal) returns (r: Service)
      modifies this
      ensures r == this && limit == Some(l)
      ensures domain == old(domain) && fields == old(fields)
      ensures showSub == old(showSub) && upgradeMode == old(upgradeMode)
    {
      limit := Some(l);
      r := this;
    }

    /** `TaskService.with_sub()`. */
    method WithSub() returns (r: Service)
      requires kind == Tasks
      modifies this
      ensures r == this && showSub
      ensures domain == old(domain) && fields == old(fields) && limit == old(limit)
      ensures upgradeMode == old(upgradeMode)
    {
      showSub := true;
      r := this;
    }

    /** `TaskService.with_upgrade_mode()`. */
    method WithUpgradeMode() returns (r: Service)
      requires kind == Tasks
      modifies this
      ensures r == this && upgradeMode
      ensures domain == old(domain) && fields == old(fields) && limit == old(limit)
      ensures showSub == old(showSub)
    {
      upgradeMode := true;
      r := this;
    }

    /** The record `_add_response` leaves: the task service adds its two flags. */
    function Added(row: Row): (r: Row)
      reads this
      ensures kind != Tasks ==> r == row
      ensures kind == Tasks ==> r == WithFlags(row, showSub, upgradeMode)
    {
      if kind == Tasks then WithFlags(row, showSub, upgradeMode) else row
    }

    /** `_add_response(row)`, which updates the record in place. */
    method AddResponse(row: Dict)
      modifies row
      ensures row.entries == Added(old(row.entries))
    {
      if kind == Tasks {
        row.entries := row.entries["show_sub" := PBool(showSub)];
        row.entries := row.entries["upgrade_mode" := PBool(upgradeMode)];
      }
    }

    /**
     * The `search_read` call `fetch` makes, or why it fails before making it. The
     * `model_class` check after the model-name check is left out: every kind with a model
     * name has a model class, so that check never fails.
     */
    function FetchQuery(): (r: Result<Query>)
      reads this
      ensures ModelName(kind).None? ==> r == Err(NoModelDefined)
      ensures ModelName(kind).Some? && limit.None? ==> r == Err(LimitUnset)
      ensures ModelName(kind).Some? && limit.Some? ==>
        r == Ok(Query(odooRpc, ModelName(kind).value, domain, fields, limit.value))
    {
      if ModelName(kind).None? then Err(NoModelDefined)
      else if limit.None? then Err(LimitUnset)
      else Ok(Query(odooRpc, ModelName(kind).value, domain, fields, limit.value))
    }

    /** The records `clean_for_model` leaves of the server's answer. */
    function Cleaned(response: seq<Row>): (r: seq<Row>)
      requires kind == UpgradeRequests ==> UpgradeRequestService.AllUpgradeRows(response)
      ensures kind != UpgradeRequests ==> r == response
    {
      if kind == UpgradeRequests then
        UpgradeRequestService.RowsOf(UpgradeRequestService.KeepMax(
          UpgradeRequestService.SortedByUuid(UpgradeRequestService.Decorate(response))))
      else response
    }

    /**
     * `fetch()`: the records handed to `model_class(**row)`, one per cleaned record of the
     * server's answer, each with `_add_response` applied. The upgrade-request server is
     * taken to answer records with a string `db_uuid` and an integer `id`.
     */
    method Fetch(searchRead: SearchRead) returns (r: Result<seq<Row>>)
      requires kind == UpgradeRequests ==> forall q: Query :: UpgradeRequestService.AllUpgradeRows(searchRead(q))
      ensures FetchQuery().Err? ==> r == Err(FetchQuery().error)
      ensures FetchQuery().Ok? ==> (r.Ok? &&
        var cleaned := Cleaned(searchRead(FetchQuery().value));
        |r.value| == |cleaned| && forall i | 0 <= i < |cleaned| :: r.value[i] == Added(cleaned[i]))
    {
      var query := FetchQuery();
      if query.Err? {
        return Err(query.error);
      }
      var response := searchRead(query.value);
      var cleaned := response;
      if kind == UpgradeRequests {
        var a := new Row[|response|](i requires 0 <= i < |response| => response[i]);
        assert a[..] == response;
        cleaned := UpgradeRequestService.CleanForModel(a);
      }
      var rows := ModelRows(cleaned);
      r := Ok(rows);
    }

    /** `[model_class(**self._add_response(row)) for row in cleaned]`: each row with `_add_response` applied. */
    method ModelRows(cleaned: seq<Row>) returns (rows: seq<Row>)
      ensures |rows| == |cleaned| && forall i | 0 <= i < |cleaned| :: rows[i] == Added(cleaned[i])
    {
      rows := [];
      for i := 0 to |cleaned|
        invariant |rows| == i
        invariant forall j | 0 <= j < i :: rows[j] == Added(cleaned[j])
      {
        var row := new Dict(cleaned[i]);
        AddResponse(row);
        rows := rows + [row.entries];
      }
    }

    /**
     * `fetch_group(group_by, union_wrapper)`: the server's grouped counts, passed through
     * `_clean_stats`. The generic service, which has no model, is refused here.
     */
    method FetchGroup(readGroup: ReadGroup, groupBy: seq<string>, wrapper: Wrapper) returns (r: Result<seq<Dict>>)
      requires wrapper.RecordExists? ==> (wrapper.key != CountKey &&
        forall q: GroupQuery, i | 0 <= i < |readGroup(q)| :: IsCountRow(readGroup(q)[i], wrapper.key))
      ensures ModelName(kind).None? ==> r == Err(NoModelDefined)
      ensures ModelName(kind).Some? && limit.None? ==> r == Err(LimitUnset)
      ensures ModelName(kind).Some? && limit.Some? ==> (r.Ok? &&
        var counts := readGroup(GroupQuery(odooRpc, ModelName(kind).value, domain, groupBy, limit.value));
        (wrapper.NotCallable? ==> |r.value| == |counts| && forall i | 0 <= i < |counts| :: r.value[i].entries == counts[i]) &&
        (wrapper.RecordExists? ==>
          var t := Tally(CountReadings(counts, wrapper.key));
          |r.value| == |t.keys| &&
          forall i | 0 <= i < |r.value| :: r.value[i].entries == BucketRow(wrapper.key, t.keys[i], t.Get(t.keys[i], 0))))
    {
      if ModelName(kind).None? {
        return Err(NoModelDefined);
      }
      if limit.None? {
        return Err(LimitUnset);
      }
      var counts := readGroup(GroupQuery(odooRpc, ModelName(kind).value, domain, groupBy, limit.value));
      var response := NewDicts(counts);
      if wrapper.RecordExists? {
        assert Readings(response, wrapper.key) == CountReadings(counts, wrapper.key);
      }
      var cleaned := CleanStats(response, wrapper);
      r := Ok(cleaned);
    }
  }

  /** The readings of fresh rows are those of the values they were made from. */
  function CountReadings(rows: seq<Row>, key: string): (rs: seq<(string, int)>)
    requires forall i | 0 <= i < |rows| :: IsCountRow(rows[i], key)
    ensures |rs| == |rows| && forall i | 0 <= i < |rows| :: rs[i] == Reading(rows[i], key)
  {
    if |rows| == 0 then [] else CountReadings(rows[..|rows| - 1], key) + [Reading(rows[|rows| - 1], key)]
  }

  /** One fresh `dict` per record of the server's answer. */
  method NewDicts(rows: seq<Row>) returns (r: seq<Dict>)
    ensures |r| == |rows|
    ensures forall i | 0 <= i < |r| :: fresh(r[i]) && r[i].entries == rows[i]
    ensures forall i, j | 0 <= i < j < |r| :: r[i] != r[j]
  {
    r := [];
    for i := 0 to |rows|
      invariant |r| == i
      invariant forall j | 0 <= j < i :: fresh(r[j]) && r[j].entries == rows[j]
      invariant forall j, k | 0 <= j < k < i :: r[j] != r[k]
    {
      var d := new Dict(rows[i]);
      r := r + [d];
    }
  }

  /**
   * `_clean_stats(datalist, union_wrapper)`: the data unchanged unless the wrapper is
   * callable, else what the wrapper returns.
   */
  method CleanStats(datalist: seq<Dict>, wrapper: Wrapper) returns (r: seq<Dict>)
    requires wrapper.RecordExists? ==> wrapper.key != CountKey
    requires wrapper.RecordExists? ==> forall i | 0 <= i < |datalist| :: IsCountRow(datalist[i].entries, wrapper.key)
    requires forall i, j | 0 <= i < j < |datalist| :: datalist[i] != datalist[j]
    modifies datalist
    ensures wrapper.NotCallable? ==> r == datalist && forall i | 0 <= i < |datalist| :: datalist[i].entries == old(datalist[i].entries)
    ensures wrapper.RecordExists? ==>
      var t := Tally(old(Readings(datalist, wrapper.key)));
      |r| == |t.keys| &&
      forall i | 0 <= i < |r| :: fresh(r[i]) && r[i].entries == BucketRow(wrapper.key, t.keys[i], t.Get(t.keys[i], 0))
  {
    if wrapper.NotCallable? {
      r := datalist;
    } else {
      r := GroupByRecordExists(datalist, wrapper.key);
    }
  }
}
