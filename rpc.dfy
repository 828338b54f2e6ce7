/**
 * The plugin's view of the Odoo servers it queries. A connection is known by the URL and
 * database it was opened on; what a server answers is a parameter of every operation that
 * asks it something.
 */
module Rpc {
  import opened Python

  /** `RpcConnector(RemoteDatabase(url, database))`. */
  datatype Connection = Connection(url: PyVal, database: PyVal)

  /** One `search_read(domain=..., fields=..., limit=...)` call on a model. */
  datatype Query = Query(conn: Connection, model: string, domain: seq<PyVal>, fields: seq<string>, limit: PyVal)

  /** One `read_group(domain=..., groupby=..., limit=...)` call on a model. */
  datatype GroupQuery = GroupQuery(conn: Connection, model: string, domain: seq<PyVal>, groupBy: seq<string>, limit: PyVal)

  /** The records a server returns for each query. */
  type SearchRead = Query -> seq<map<string, PyVal>>

  /** The grouped counts a server returns for each grouping query. */
  type ReadGroup = GroupQuery -> seq<map<string, PyVal>>
}
