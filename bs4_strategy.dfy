/**
 * `Bs4Strategy`: the title strategy that also reads the task descriptions. It asks for
 * the description field and defines a database domain built from the URLs found in the
 * descriptions, under the name `_get_database_domain`. The search and the statistics call
 * `_get_databases_domain`, which it does not override, so they keep the title strategy's
 * name-based domain.
 */
module Bs4Strategy {
  import opened Python
  import opened Osv
  import opened DomainEval
  import opened Utils
  import opened ApiDtos
  import opened StrategyAbstract
  import opened TitleStrategy

  /** `_task_fields()`: the title strategy's fields with "description" appended. */
  function Bs4TaskFields(): (r: seq<string>)
    ensures |r| == |TaskFields()| + 1
    ensures r[..|TaskFields()|] == TaskFields() && r[|r| - 1] == "description"
  {
    TaskFields() + ["description"]
  }

  /** The fields `search` and `stats` ask for tasks, by strategy. */
  function TaskFieldsOf(s: Strategy): (r: seq<string>)
    ensures s.kind == Title ==> r == ["name"]
    ensures s.kind == Bs4 ==> r == ["name", "description"]
  {
    if s.kind == Bs4 then Bs4TaskFields() else TaskFields()
  }

  /** The database URLs of the tasks, one per task, in order. */
  function DatabaseUrls(tasks: seq<Task>, href: HrefOf): (r: seq<string>)
    ensures |r| == |tasks| && forall i | 0 <= i < |tasks| :: r[i] == tasks[i].DatabaseUrl(href)
  {
    if |tasks| == 0 then [] else DatabaseUrls(tasks[..|tasks| - 1], href) + [tasks[|tasks| - 1].DatabaseUrl(href)]
  }

  /** `["&", ["url", "in", urls], ["last_ping", ">", cutoff]]`. */
  function UrlDomain(urls: seq<string>, cutoff: string): seq<PyVal> {
    [AndOperator, Leaf("url", "in", PList(Strs(urls))), Leaf("last_ping", ">", PStr(cutoff))]
  }

  /**
   * `_get_database_domain(tasks)`: databases whose URL is one of the tasks' database URLs
   * and that were pinged after the cutoff, narrowed by the parent and contract flags.
   * The cutoff date and the link extraction from the HTML description are parameters.
   */
  method GetDatabaseDomain(s: Strategy, tasks: seq<Task>, cutoff: string, href: HrefOf) returns (r: Result<seq<PyVal>>)
    ensures r == ExtraConfigured(UrlDomain(DatabaseUrls(tasks, href), cutoff), s.parent, s.contract)
  {
    var domain := UrlDomain(DatabaseUrls(tasks, href), cutoff);
    r := AddDatabaseExtraConfigDomains(s, domain);
  }

  /**
   * The URL domain never fails, and a database matches it exactly when its URL is one of
   * the tasks' database URLs, its last ping is after the cutoff, and the flags accept it.
   */
  lemma {:induction false} UrlDomainMeaning(urls: seq<string>, cutoff: string, parent: TripleFlag, contract: TripleFlag,
                                            leaf: PyVal -> bool)
    requires Sound(leaf)
    ensures ExtraConfigured(UrlDomain(urls, cutoff), parent, contract).Ok?
    ensures Holds(ExtraConfigured(UrlDomain(urls, cutoff), parent, contract).value, leaf) <==>
      leaf(Normal(Leaf("url", "in", PList(Strs(urls))))) &&
      leaf(Normal(Leaf("last_ping", ">", PStr(cutoff)))) &&
      FlagHolds("parent_id", parent, leaf) && FlagHolds("subscription_id", contract, leaf)
  {
    var a, b := Leaf("url", "in", PList(Strs(urls))), Leaf("last_ping", ">", PStr(cutoff));
    TwoLeafDomainNormalized(a, b);
    TwoLeafDomainHolds(a, b, leaf);
    ExtraConfiguredMeaning(UrlDomain(urls, cutoff), parent, contract, leaf);
  }

  /**
   * `self._get_databases_domain(tasks)` as `search` and `stats` call it: both strategies
   * resolve it to the title strategy's method, so a Bs4 strategy matches databases by
   * task title too.
   */
  method DatabasesDomainOf(s: Strategy, tasks: seq<Task>, cutoff: string) returns (r: Result<seq<PyVal>>)
    ensures r == ExtraConfigured(DbNameDomain(DisplayNames(tasks), cutoff), s.parent, s.contract)
  {
    r := GetDatabasesDomain(s, tasks, cutoff);
  }

  /**
   * The domain the Bs4 strategy actually sends is never its URL domain: the first leaf
   * names the `db_name` field, not `url`.
   */
  lemma {:induction false} UrlDomainUnused(tasks: seq<Task>, cutoff: string, href: HrefOf, parent: TripleFlag,
                                           contract: TripleFlag)
    ensures ExtraConfigured(DbNameDomain(DisplayNames(tasks), cutoff), parent, contract) !=
      ExtraConfigured(UrlDomain(DatabaseUrls(tasks, href), cutoff), parent, contract)
  {
    var names := DbNameDomain(DisplayNames(tasks), cutoff);
    var urls := UrlDomain(DatabaseUrls(tasks, href), cutoff);
    TwoLeafDomainNormalized(names[1], names[2]);
    TwoLeafDomainNormalized(urls[1], urls[2]);
    ExtraConfiguredTwoLeaves(names, parent, contract);
    ExtraConfiguredTwoLeaves(urls, parent, contract);
    assert "db_name" != "url" by {
      assert "db_name"[0] != "url"[0];
    }
  }

  /**
   * The extra configuration of a two-leaf `&` domain keeps its first leaf, as a list or
   * a tuple, right after the `&` operators in front.
   */
  lemma {:induction false} ExtraConfiguredTwoLeaves(d: seq<PyVal>, parent: TripleFlag, contract: TripleFlag)
    requires |d| == 3 && d[0] == AndOperator && IsSequence(d[1]) && !IsAnyTerm(d[1]) && IsSequence(d[2]) && !IsAnyTerm(d[2])
    ensures ExtraConfigured(d, parent, contract).Ok?
    ensures var r := ExtraConfigured(d, parent, contract).value;
      var ands := (if parent == Both then 0 else 1) + (if contract == Both then 0 else 1);
      |r| > ands + 1 && IsSequence(r[ands + 1]) && r[ands + 1].items == d[1].items
  {
    TwoLeafDomainNormalized(d[1], d[2]);
    assert d == [AndOperator, d[1], d[2]];
    var n := [AndOperator, PTuple(d[1].items), PTuple(d[2].items)];
    assert Normalized(d) == Ok(n);
    assert d != [] && d != TrueDomain && d != FalseDomain by {
      assert |TrueDomain| == 1 && |FalseDomain| == 1;
    }
    ExtraConfiguredSteps(d, parent, contract);
    if parent == Both && contract == Both {
      ExtraConfiguredBoth(d);
    } else if parent == Both {
      NarrowedStep(d, ("subscription_id", contract));
    } else if contract == Both {
      NarrowedStep(d, ("parent_id", parent));
    } else {
      ExtraConfiguredOrder(d, parent, contract);
    }
  }
}
