/**
 * `RollingMixing`: the state shared by the older rolling-release strategies (by title and
 * by description), the parent and contract narrowing of their database domain, and the
 * reduction of the fetched upgrade requests to the latest one per database.
 */
module Mixins {
  import opened Python
  import opened Rpc
  import opened Utils
  import opened ApiDtos
  import opened TitleStrategy
  import U = UpgradeRequestService

  /** The two strategies built on the mixin. */
  datatype MixinKind = ByTitle | ByBs4

  /** Everything a `RollingMixing` holds, for "only this changes" contracts. */
  datatype MixinState = MixinState(
    odooUrl: string,
    upgradeUrl: Option<string>,
    odooRpc: Connection,
    upgradeRpc: Option<Connection>,
    taskDomain: seq<PyVal>,
    limit: PyVal,
    taskName: Option<string>,
    withParent: TripleFlag,
    withContract: TripleFlag,
    showSub: bool,
    hideNotFound: bool,
    lucky: bool,
    upgradeEnabled: bool)

  class RollingMixing {
    const kind: MixinKind
    var odooUrl: string
    /** Set only when upgrades are enabled. */
    var upgradeUrl: Option<string>
    var odooRpc: Connection
    /** Set only when upgrades are enabled. */
    var upgradeRpc: Option<Connection>
    var taskDomain: seq<PyVal>
    var limit: PyVal
    var taskName: Option<string>
    var withParent: TripleFlag
    var withContract: TripleFlag
    var showSub: bool
    var hideNotFound: bool
    var lucky: bool
    var upgradeEnabled: bool

    function State(): MixinState
      reads this
    {
      MixinState(odooUrl, upgradeUrl, odooRpc, upgradeRpc, taskDomain, limit, taskName, withParent, withContract,
        showSub, hideNotFound, lucky, upgradeEnabled)
    }

    /**
     * `RollingMixing(odoo_url, odoo_database, limit, task_domain, upgrade_enabled,
     * upgrade_url, upgrade_database)`: the Odoo URL gets the "https://" scheme and its
     * connection uses it; with upgrades enabled the stored upgrade URL gets the scheme
     * too, while its connection is opened on the URL as given. The switches keep their
     * class defaults.
     */
    constructor (kind: MixinKind, odooUrl: string, odooDatabase: PyVal, limit: PyVal, taskDomain: seq<PyVal>,
                 upgradeEnabled: bool := false, upgradeUrl: PyVal := PNone, upgradeDatabase: PyVal := PNone)
      ensures this.kind == kind
      ensures State() == MixinState(
        "https://" + odooUrl,
        if upgradeEnabled then Some("https://" + StrOf(upgradeUrl)) else None,
        Connection(PStr("https://" + odooUrl), odooDatabase),
        if upgradeEnabled then Some(Connection(upgradeUrl, upgradeDatabase)) else None,
        taskDomain, limit, None, Both, Both, false, true, false, upgradeEnabled)
      ensures StartsWith(State().odooUrl, "https://") && State().odooUrl[|"https://"|..] == odooUrl
    {
      this.kind := kind;
      this.odooUrl := "https://" + odooUrl;
      this.odooRpc := Connection(PStr("https://" + odooUrl), odooDatabase);
      this.upgradeEnabled := upgradeEnabled;
      if upgradeEnabled {
        this.upgradeUrl := Some("https://" + StrOf(upgradeUrl));
        this.upgradeRpc := Some(Connection(upgradeUrl, upgradeDatabase));
      } else {
        this.upgradeUrl := None;
        this.upgradeRpc := None;
      }
      this.taskDomain := taskDomain;
      this.limit := limit;
      taskName := None;
      withParent := Both;
      withContract := Both;
      showSub := false;
      hideNotFound := true;
      lucky := false;
    }
  }

  /**
   * `_add_extra_config_domains(domain)`: the same narrowing by the parent flag, then the
   * contract flag, as the title strategy's.
   */
  method AddExtraConfigDomains(m: RollingMixing, domain: seq<PyVal>) returns (r: Result<seq<PyVal>>)
    ensures r == ExtraConfigured(domain, m.withParent, m.withContract)
  {
    r := ApplyExtraDomains(domain, m.withParent, m.withContract);
  }

  /** `[UpgradeRequest(**row) for row in rows]`. */
  function RequestsFrom(rows: seq<Row>): (us: seq<UpgradeRequest>)
    ensures |us| == |rows| && forall i | 0 <= i < |rows| :: us[i] == UpgradeRequestFromRow(rows[i])
  {
    if |rows| == 0 then [] else RequestsFrom(rows[..|rows| - 1]) + [UpgradeRequestFromRow(rows[|rows| - 1])]
  }

  /** The requests `_get_upgrade_request` returns for the rows the server sent. */
  function LatestRequests(before: seq<Row>): seq<UpgradeRequest>
    requires U.AllUpgradeRows(before)
  {
    RequestsFrom(U.RowsOf(U.KeepMax(U.SortedByUuid(U.Decorate(before)))))
  }

  /**
   * The part of `_get_upgrade_request` after the query: the response is sorted in place
   * by `db_uuid`, the highest `id` of each `db_uuid` is kept, and each kept row becomes a
   * request.
   */
  method KeepLatestRequests(response: array<Row>) returns (requests: seq<UpgradeRequest>)
    requires U.AllUpgradeRows(response[..])
    modifies response
    ensures response[..] == U.SortedResponse(old(response[..]))
    ensures requests == LatestRequests(old(response[..]))
  {
    var rows := U.CleanForModel(response);
    requests := RequestsFrom(rows);
  }

  /** Each request built from a consistent kept record carries that record's keys. */
  lemma {:induction false} RequestsOfKept(kept: seq<U.Keyed>)
    requires U.Consistent(kept)
    ensures var us := RequestsFrom(U.RowsOf(kept));
      |us| == |kept| &&
      forall k | 0 <= k < |kept| ::
        us[k] == UpgradeRequestFromRow(kept[k].row) && us[k].dbUuid == PStr(kept[k].uuid) && us[k].id == PInt(kept[k].id)
  {
  }

  /** Each request is built from one of the returned rows. */
  predicate FromResponse(before: seq<Row>, us: seq<UpgradeRequest>) {
    forall k | 0 <= k < |us| :: exists i | 0 <= i < |before| :: us[k] == UpgradeRequestFromRow(before[i])
  }

  /** Every returned `db_uuid` has a request. */
  predicate CoversResponse(before: seq<Row>, us: seq<UpgradeRequest>) {
    forall i | 0 <= i < |before| :: exists k | 0 <= k < |us| :: us[k].dbUuid == Arg(before[i], "db_uuid", PNone)
  }

  /** The requests are keyed by strictly increasing `db_uuid` strings. */
  predicate UuidsAscending(us: seq<UpgradeRequest>) {
    (forall k | 0 <= k < |us| :: us[k].dbUuid.PStr? && us[k].id.PInt?) &&
    forall k, l | 0 <= k < l < |us| :: StrLess(us[k].dbUuid.s, us[l].dbUuid.s)
  }

  /** No returned row with a request's `db_uuid` has a higher `id` than the request. */
  predicate HighestIds(before: seq<Row>, us: seq<UpgradeRequest>)
    requires U.AllUpgradeRows(before) && forall k | 0 <= k < |us| :: us[k].id.PInt?
  {
    forall k, i | 0 <= k < |us| && 0 <= i < |before| && before[i]["db_uuid"] == us[k].dbUuid ::
      before[i]["id"].i <= us[k].id.i
  }

  lemma {:induction false} KeptFromResponse(before: seq<Row>, kept: seq<U.Keyed>)
    requires U.Consistent(kept) && forall k | 0 <= k < |kept| :: kept[k].row in before
    ensures FromResponse(before, RequestsFrom(U.RowsOf(kept)))
  {
    var us := RequestsFrom(U.RowsOf(kept));
    RequestsOfKept(kept);
    forall k | 0 <= k < |us|
      ensures exists i | 0 <= i < |before| :: us[k] == UpgradeRequestFromRow(before[i])
    {
      var i :| 0 <= i < |before| && before[i] == kept[k].row;
    }
  }

  lemma {:induction false} KeptCoversResponse(before: seq<Row>, kept: seq<U.Keyed>)
    requires U.AllUpgradeRows(before) && U.Consistent(kept)
    requires forall i | 0 <= i < |before| :: before[i]["db_uuid"].s in U.Uuids(kept)
    ensures CoversResponse(before, RequestsFrom(U.RowsOf(kept)))
  {
    var us := RequestsFrom(U.RowsOf(kept));
    RequestsOfKept(kept);
    forall i | 0 <= i < |before|
      ensures exists k | 0 <= k < |us| :: us[k].dbUuid == Arg(before[i], "db_uuid", PNone)
    {
      assert U.UpgradeRow(before[i]);
      var k :| 0 <= k < |kept| && U.Uuids(kept)[k] == before[i]["db_uuid"].s;
      assert us[k].dbUuid == before[i]["db_uuid"];
    }
  }

  lemma {:induction false} KeptUuidsAscending(kept: seq<U.Keyed>)
    requires U.Consistent(kept) && U.StrictlyAscending(kept)
    ensures UuidsAscending(RequestsFrom(U.RowsOf(kept)))
  {
    RequestsOfKept(kept);
  }

  lemma {:induction false} KeptHighestIds(before: seq<Row>, kept: seq<U.Keyed>)
    requires U.AllUpgradeRows(before) && U.Consistent(kept)
    requires forall k, i | 0 <= k < |kept| && 0 <= i < |before| && before[i]["db_uuid"].s == kept[k].uuid ::
      before[i]["id"].i <= kept[k].id
    ensures UuidsAscending(RequestsFrom(U.RowsOf(kept))) ==> HighestIds(before, RequestsFrom(U.RowsOf(kept)))
  {
    var us := RequestsFrom(U.RowsOf(kept));
    RequestsOfKept(kept);
    if UuidsAscending(us) {
      forall k, i | 0 <= k < |us| && 0 <= i < |before| && before[i]["db_uuid"] == us[k].dbUuid
        ensures before[i]["id"].i <= us[k].id.i
      {
        assert U.UpgradeRow(before[i]);
      }
    }
  }

  /**
   * One request per `db_uuid`, in strictly increasing `db_uuid` order; each is built from
   * a returned row, every returned `db_uuid` has one, and it carries the highest `id`
   * among the rows with its `db_uuid`.
   */
  lemma {:induction false} LatestRequestsMeaning(before: seq<Row>)
    requires U.AllUpgradeRows(before)
    ensures UuidsAscending(LatestRequests(before))
    ensures FromResponse(before, LatestRequests(before))
    ensures CoversResponse(before, LatestRequests(before))
    ensures HighestIds(before, LatestRequests(before))
  {
    var kept := U.KeepMax(U.SortedByUuid(U.Decorate(before)));
    U.CleanedRequests(before);
    U.CleanedConsistent(before);
    KeptUuidsAscending(kept);
    KeptFromResponse(before, kept);
    KeptCoversResponse(before, kept);
    KeptHighestIds(before, kept);
  }
}
