/**
 * `RollingByBs4Strategy`: the by-title mixin strategy that also reads the task
 * descriptions and matches databases by the URL linked in them. Unlike the title-strategy
 * variant, it overrides the hook the mixin calls, so its URL domain is the one sent.
 */
module ByBs4 {
  import opened Python
  import opened Osv
  import opened DomainEval
  import opened ApiDtos
  import D = Dtos
  import T = TitleStrategy
  import ByTitle
  import Bs4Strategy

  /** `_get_tasks_fields()`: a fresh copy of the by-title fields with "description" appended. */
  function TasksFields(): (r: seq<string>)
    ensures |r| == |ByTitle.TasksFields| + 1
    ensures r[..|ByTitle.TasksFields|] == ByTitle.TasksFields && r[|r| - 1] == "description"
    ensures r == ["id", "name", "description"]
  {
    ByTitle.TasksFields + ["description"]
  }

  /** The database URLs of the tasks, one per task, in order. */
  function DatabaseUrls(tasks: seq<D.Task>, href: HrefOf): (r: seq<string>)
    ensures |r| == |tasks| && forall i | 0 <= i < |tasks| :: r[i] == DatabaseUrlOf(tasks[i].description, href)
  {
    if |tasks| == 0 then []
    else DatabaseUrls(tasks[..|tasks| - 1], href) + [DatabaseUrlOf(tasks[|tasks| - 1].description, href)]
  }

  /**
   * `_get_databases_domain(tasks)`: databases whose URL is one of the tasks' database
   * URLs and that were pinged after the cutoff; the mixin adds the flag narrowing. The
   * cutoff and the link extraction are parameters.
   */
  method GetDatabasesDomain(tasks: seq<D.Task>, cutoff: string, href: HrefOf) returns (r: seq<PyVal>)
    ensures r == Bs4Strategy.UrlDomain(DatabaseUrls(tasks, href), cutoff)
  {
    r := [AndOperator, T.Leaf("url", "in", PList(T.Strs(DatabaseUrls(tasks, href)))),
      T.Leaf("last_ping", ">", PStr(cutoff))];
  }

  /**
   * A database matches the URL domain exactly when its URL is one of the tasks' database
   * URLs and its last ping is after the cutoff.
   */
  lemma {:induction false} DatabasesDomainMeaning(tasks: seq<D.Task>, cutoff: string, href: HrefOf, leaf: PyVal -> bool)
    ensures Normalized(Bs4Strategy.UrlDomain(DatabaseUrls(tasks, href), cutoff)).Ok?
    ensures Holds(Bs4Strategy.UrlDomain(DatabaseUrls(tasks, href), cutoff), leaf) <==>
      leaf(PTuple([PStr("url"), PStr("in"), PList(T.Strs(DatabaseUrls(tasks, href)))])) &&
      leaf(PTuple([PStr("last_ping"), PStr(">"), PStr(cutoff)]))
  {
    ByTitle.TwoLeafDomainMeaning("url", "in", PList(T.Strs(DatabaseUrls(tasks, href))), "last_ping", ">",
      PStr(cutoff), leaf);
  }
}
