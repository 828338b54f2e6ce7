/**
 * The search strategy behind the `rolling-release` command: the task filter, the limit,
 * the connections, and the switches the command line sets one by one through chainable
 * setters.
 */
module StrategyAbstract {
  import opened Python
  import opened Utils
  import opened Rpc

  /** The concrete strategy class: matching databases by task title, or by a link in the description. */
  datatype StrategyKind = Title | Bs4

  /** Every field of a strategy, so that a setter can say that only one of them changes. */
  datatype StrategyState = StrategyState(
    odooUrl: PyVal,
    odooRpc: Connection,
    upgradeRpc: Option<Connection>,
    taskName: Option<string>,
    taskDomain: seq<PyVal>,
    limit: PyVal,
    parent: TripleFlag,
    contract: TripleFlag,
    showSub: bool,
    hideNotFound: bool,
    lucky: bool,
    orderByValidity: bool)

  class Strategy {
    const kind: StrategyKind
    var odooUrl: PyVal
    var odooRpc: Connection
    var upgradeRpc: Option<Connection>
    var taskName: Option<string>
    var taskDomain: seq<PyVal>
    var limit: PyVal
    var parent: TripleFlag
    var contract: TripleFlag
    var showSub: bool
    var hideNotFound: bool
    var lucky: bool
    var orderByValidity: bool

    function State(): StrategyState
      reads this
    {
      StrategyState(odooUrl, odooRpc, upgradeRpc, taskName, taskDomain, limit, parent, contract,
        showSub, hideNotFound, lucky, orderByValidity)
    }

    /**
     * `Strategy(task_domain, limit, odoo_rpc, upgrade_rpc, odoo_url)`: the arguments are
     * stored as given; the switches keep their class defaults.
     */
    constructor (kind: StrategyKind, taskDomain: seq<PyVal>, limit: PyVal, odooRpc: Connection,
                 upgradeRpc: Option<Connection> := None, odooUrl: PyVal := PStr(""))
      ensures this.kind == kind
      ensures State() == StrategyState(odooUrl, odooRpc, upgradeRpc, None, taskDomain, limit, Both, Both,
        false, true, false, false)
    {
      this.kind := kind;
      this.odooRpc := odooRpc;
      this.taskDomain := taskDomain;
      this.limit := limit;
      this.upgradeRpc := upgradeRpc;
      this.odooUrl := odooUrl;
      taskName := None;
      parent := Both;
      contract := Both;
      showSub := false;
      hideNotFound := true;
      lucky := false;
      orderByValidity := false;
    }

    /** `with_task_name(task_name)`. */
    method WithTaskName(taskName: string) returns (r: Strategy)
      modifies this
      ensures r == this && State() == old(State()).(taskName := Some(taskName))
    {
      this.taskName := Some(taskName);
      r := this;
    }

    /** `with_parent(parent=TripleFlag.YES)`. */
    method WithParent(parent: TripleFlag := Yes) returns (r: Strategy)
      modifies this
      ensures r == this && State() == old(State()).(parent := parent)
    {
      this.parent := parent;
      r := this;
    }

    /** `with_contract(contract)`. */
    method WithContract(contract: TripleFlag) returns (r: Strategy)
      modifies this
      ensures r == this && State() == old(State()).(contract := contract)
    {
      this.contract := contract;
      r := this;
    }

    /** `with_show_sub()`. */
    method WithShowSub() returns (r: Strategy)
      modifies this
      ensures r == this && State() == old(State()).(showSub := true)
    {
      showSub := true;
      r := this;
    }

    /** `show_not_found()`: databases that were not found are listed too. */
    method ShowNotFound() returns (r: Strategy)
      modifies this
      ensures r == this && State() == old(State()).(hideNotFound := false)
    {
      hideNotFound := false;
      r := this;
    }

    /** `only_luck()`. */
    method OnlyLuck() returns (r: Strategy)
      modifies this
      ensures r == this && State() == old(State()).(lucky := true)
    {
      lucky := true;
      r := this;
    }

    /** `with_order_by_validity()`. */
    method WithOrderByValidity() returns (r: Strategy)
      modifies this
      ensures r == this && State() == old(State()).(orderByValidity := true)
    {
      orderByValidity := true;
      r := this;
    }
  }

  /** Whether a task name filter is in force: `if self.task_name`. */
  function TaskNameFilter(taskName: Option<string>): (r: Option<string>)
    ensures r.Some? <==> taskName.Some? && taskName.value != ""
    ensures r.Some? ==> r == taskName
  {
    if taskName.Some? && taskName.value != "" then taskName else None
  }
}
