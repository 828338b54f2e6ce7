/**
 * The `rolling-release` command: how the command-line flags choose the strategy class
 * and configure the strategy object, and which group-bys the statistics run asks for.
 * The stored configuration is a parameter; logging, spinners and table output are not
 * part of this model.
 */
module RollingRelease {
  import opened Python
  import opened Utils
  import opened Rpc
  import opened StrategyAbstract
  import Services

  /** The parsed command line: the task name and the boolean flags. */
  datatype Args = Args(
    task: Option<string>,
    bs4: bool,
    stats: bool,
    contract: bool,
    noContract: bool,
    parent: bool,
    noParent: bool,
    ghosts: bool,
    explicitContract: bool,
    lucky: bool,
    upgrade: bool)

  /** The entries of the stored `rr_config` the command reads. */
  datatype RrConfig = RrConfig(
    odooUrl: PyVal,
    odooDatabaseName: PyVal,
    odooUrlUpg: PyVal,
    odooDatabaseNameUpg: PyVal,
    odooTaskDomain: seq<PyVal>,
    odooLimit: PyVal)

  /** The setters `_set_single_configs` may call. */
  datatype SingleSetter = ShowNotFound | OnlyLuck | WithShowSub

  /** The setters `_set_double_configs` may call. */
  datatype DoubleSetter = WithContract | WithParent

  /** The strategy class a `-bs4` flag selects. */
  function StrategyFor(bs4: bool): (r: StrategyKind)
    ensures r == Bs4 <==> bs4
  {
    if bs4 then Bs4 else Title
  }

  /** A strategy state after one single setter. */
  function SingleSet(st: StrategyState, setter: SingleSetter): StrategyState {
    match setter
    case ShowNotFound => st.(hideNotFound := false)
    case OnlyLuck => st.(lucky := true)
    case WithShowSub => st.(showSub := true)
  }

  /** `single_confs`: each setter paired with the flag that calls it. */
  function SingleConfs(args: Args): seq<(bool, SingleSetter)> {
    [(args.ghosts, ShowNotFound), (args.lucky, OnlyLuck), (args.explicitContract, WithShowSub)]
  }

  /** The state after the loop over `confs`: each setter runs when its flag is set. */
  function SingleApplied(st: StrategyState, confs: seq<(bool, SingleSetter)>): StrategyState {
    if |confs| == 0 then st
    else
      var before := SingleApplied(st, confs[..|confs| - 1]);
      var (conditional, setter) := confs[|confs| - 1];
      if conditional then SingleSet(before, setter) else before
  }

  /**
   * After the loop over `single_confs`, `-g` has cleared `hide_not_found`, `-l` has set
   * `lucky` and `-ex` has set `show_sub`; every other field, and every switch whose flag
   * is absent, is as before.
   */
  lemma {:induction false} SingleConfsMeaning(st: StrategyState, args: Args)
    ensures SingleApplied(st, SingleConfs(args)) == st.(
      hideNotFound := if args.ghosts then false else st.hideNotFound,
      lucky := args.lucky || st.lucky,
      showSub := args.explicitContract || st.showSub)
  {
    var confs := SingleConfs(args);
    var s1 := if args.ghosts then st.(hideNotFound := false) else st;
    var s2 := if args.lucky then s1.(lucky := true) else s1;
    var s3 := if args.explicitContract then s2.(showSub := true) else s2;
    assert confs[..1][..0] == [];
    assert SingleApplied(st, confs[..1]) == s1;
    assert confs[..2][..1] == confs[..1];
    assert SingleApplied(st, confs[..2]) == s2;
    assert confs[..3][..2] == confs[..2];
    assert SingleApplied(st, confs[..3]) == s3;
    assert confs[..3] == confs;
  }

  /** The tri-state a pair of opposite flags leaves: the positive one wins, neither keeps `current`. */
  function DoubleFlag(positive: bool, negative: bool, current: TripleFlag): (r: TripleFlag)
    ensures positive ==> r == Yes
    ensures !positive && negative ==> r == No
    ensures !positive && !negative ==> r == current
  {
    if positive then Yes else if negative then No else current
  }

  /**
   * After the loop over `double_confs`, the contract and parent switches are YES on the
   * positive flag, else NO on the negative flag, else as before; nothing else changes.
   */
  lemma {:induction false} DoubleConfsMeaning(st: StrategyState, args: Args)
    ensures DoubleApplied(st, DoubleConfs(args)) == st.(
      contract := DoubleFlag(args.contract, args.noContract, st.contract),
      parent := DoubleFlag(args.parent, args.noParent, st.parent))
  {
    var confs := DoubleConfs(args);
    var s1 := st.(contract := DoubleFlag(args.contract, args.noContract, st.contract));
    var s2 := s1.(parent := DoubleFlag(args.parent, args.noParent, st.parent));
    assert confs[..1][..0] == [];
    assert DoubleApplied(st, confs[..1]) == s1;
    assert confs[..2][..1] == confs[..1];
    assert DoubleApplied(st, confs[..2]) == s2;
    assert confs[..2] == confs;
  }

  /** A strategy state after one double setter. */
  function DoubleSet(st: StrategyState, setter: DoubleSetter, flag: TripleFlag): StrategyState {
    match setter
    case WithContract => st.(contract := flag)
    case WithParent => st.(parent := flag)
  }

  /** `double_confs`: the positive flag, the negative flag and the setter they drive. */
  function DoubleConfs(args: Args): seq<(bool, bool, DoubleSetter)> {
    [(args.contract, args.noContract, WithContract), (args.parent, args.noParent, WithParent)]
  }

  /** The state after the loop over `confs`: YES on the positive flag, else NO on the negative one. */
  function DoubleApplied(st: StrategyState, confs: seq<(bool, bool, DoubleSetter)>): StrategyState {
    if |confs| == 0 then st
    else
      var before := DoubleApplied(st, confs[..|confs| - 1]);
      var (positive, negative, setter) := confs[|confs| - 1];
      if positive then DoubleSet(before, setter, Yes)
      else if negative then DoubleSet(before, setter, No)
      else before
  }

  /** `_get_rpc_connection(url, database)`. */
  function RpcConnection(url: PyVal, database: PyVal): (r: Connection)
    ensures r.url == url && r.database == database
  {
    Connection(url, database)
  }

  /**
   * The strategy state `_setup_run_conf` leaves: the configured domain, limit, URL and
   * connections (an upgrade connection only with `-u`), the double flags, then the
   * single flags, then the task name when one was given and is not empty.
   */
  function Configured(config: RrConfig, args: Args): StrategyState {
    StrategyState(
      config.odooUrl,
      RpcConnection(config.odooUrl, config.odooDatabaseName),
      if args.upgrade then Some(RpcConnection(config.odooUrlUpg, config.odooDatabaseNameUpg)) else None,
      if args.task.Some? && args.task.value != "" then args.task else None,
      config.odooTaskDomain,
      config.odooLimit,
      DoubleFlag(args.parent, args.noParent, Both),
      DoubleFlag(args.contract, args.noContract, Both),
      args.explicitContract,
      !args.ghosts,
      args.lucky,
      false)
  }

  class RollingReleaseCommand {
    const args: Args
    /** `rolling_strategy`: the strategy class, unset until `_set_strategy`. */
    var rollingStrategy: Option<StrategyKind>
    /** `rolling`: the strategy object, unset until `_setup_run_conf`. */
    var rolling: Strategy?

    constructor (args: Args)
      ensures this.args == args && rollingStrategy == None && rolling == null
    {
      this.args := args;
      rollingStrategy := None;
      rolling := null;
    }

    /** `_set_strategy()`: the description strategy with `-bs4`, the title strategy otherwise. */
    method SetStrategy()
      modifies this
      ensures rollingStrategy == Some(StrategyFor(args.bs4)) && rolling == old(rolling)
    {
      if args.bs4 {
        rollingStrategy := Some(Bs4);
      } else {
        rollingStrategy := Some(Title);
      }
    }

    /**
     * `_set_single_configs()`: `-g` lists the databases that were not found, `-l` turns
     * on lucky mode and `-ex` shows the subscriptions; nothing else changes, and a
     * switch whose flag is absent keeps its value.
     */
    method SetSingleConfigs()
      requires rolling != null
      modifies rolling
      ensures rolling.State() == old(rolling.State()).(
        hideNotFound := if args.ghosts then false else old(rolling.hideNotFound),
        lucky := args.lucky || old(rolling.lucky),
        showSub := args.explicitContract || old(rolling.showSub))
    {
      var st := rolling.State();
      var singleConfs := SingleConfs(args);
      for i := 0 to |singleConfs|
        invariant rolling.State() == SingleApplied(st, singleConfs[..i])
      {
        assert singleConfs[..i + 1][..i] == singleConfs[..i];
        var (conditional, setter) := singleConfs[i];
        if conditional {
          match setter {
            case ShowNotFound => var _ := rolling.ShowNotFound();
            case OnlyLuck => var _ := rolling.OnlyLuck();
            case WithShowSub => var _ := rolling.WithShowSub();
          }
        }
      }
      assert singleConfs[..|singleConfs|] == singleConfs;
      SingleConfsMeaning(st, args);
    }

    /**
     * `_set_double_configs()`: for the contract and then the parent switch, the positive
     * flag sets YES and wins over the negative one, the negative flag alone sets NO, and
     * neither leaves the switch untouched; nothing else changes.
     */
    method SetDoubleConfigs()
      requires rolling != null
      modifies rolling
      ensures rolling.State() == old(rolling.State()).(
        contract := DoubleFlag(args.contract, args.noContract, old(rolling.contract)),
        parent := DoubleFlag(args.parent, args.noParent, old(rolling.parent)))
    {
      var st := rolling.State();
      var doubleConfs := DoubleConfs(args);
      for i := 0 to |doubleConfs|
        invariant rolling.State() == DoubleApplied(st, doubleConfs[..i])
      {
        assert doubleConfs[..i + 1][..i] == doubleConfs[..i];
        var (positiveVal, negativeVal, setter) := doubleConfs[i];
        if positiveVal {
          match setter {
            case WithContract => var _ := rolling.WithContract(Yes);
            case WithParent => var _ := rolling.WithParent(Yes);
          }
        } else if negativeVal {
          match setter {
            case WithContract => var _ := rolling.WithContract(No);
            case WithParent => var _ := rolling.WithParent(No);
          }
        }
      }
      assert doubleConfs[..|doubleConfs|] == doubleConfs;
      DoubleConfsMeaning(st, args);
    }

    /**
     * `_setup_run_conf()` on the stored configuration: the strategy class the flags
     * select, built with the configured domain, limit, URL and connections (the upgrade
     * connection only with `-u`), then the double and single flags, then the task name,
     * assigned directly when `-t` gave a non-empty one.
     */
    method SetupRunConf(config: RrConfig)
      modifies this
      ensures rollingStrategy == Some(StrategyFor(args.bs4))
      ensures rolling != null && fresh(rolling) && rolling.kind == StrategyFor(args.bs4)
      ensures rolling.State() == Configured(config, args)
    {
      SetStrategy();
      var odooRpc := RpcConnection(config.odooUrl, config.odooDatabaseName);
      var upgradeRpc := None;
      if args.upgrade {
        upgradeRpc := Some(RpcConnection(config.odooUrlUpg, config.odooDatabaseNameUpg));
      }
      rolling := new Strategy(rollingStrategy.value, config.odooTaskDomain, config.odooLimit, odooRpc,
        upgradeRpc, config.odooUrl);
      SetDoubleConfigs();
      SetSingleConfigs();
      if args.task.Some? && args.task.value != "" {
        rolling.taskName := args.task;
      }
    }

    /**
     * The group-bys of `list_all_stats()`, in order: the version as is, then parent and
     * subscription folded into YES/NO; with `-u`, the subscription entry once more.
     */
    method GroupByList() returns (r: seq<(string, Services.Wrapper)>)
      ensures |r| == if args.upgrade then 4 else 3
      ensures r[0] == ("version", Services.NotCallable)
      ensures r[1] == ("parent_id", Services.RecordExists("parent_id"))
      ensures r[2] == ("subscription_id", Services.RecordExists("subscription_id"))
      ensures args.upgrade ==> r[3] == r[2]
      ensures forall i | 0 <= i < |r| :: r[i].1.RecordExists? ==> r[i].1.key == r[i].0
    {
      r := [
        ("version", Services.NotCallable),
        ("parent_id", Services.RecordExists("parent_id")),
        ("subscription_id", Services.RecordExists("subscription_id"))
      ];
      if args.upgrade {
        r := r + [("subscription_id", Services.RecordExists("subscription_id"))];
      }
    }
  }
}
