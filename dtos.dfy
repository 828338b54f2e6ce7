/**
 * The records of the older rolling-release strategies: a database without an expiry
 * date, and a task whose row takes the subscription and upgrade switches as arguments.
 * Subscriptions and upgrade requests are those of module ApiDtos.
 */
module Dtos {
  import opened Python
  import opened Utils
  import opened ApiDtos

  class Database {
    const id: PyVal
    const version: PyVal
    const dbName: PyVal
    const dbUuid: PyVal
    const parentId: BoolStr
    const subscriptionId: PyVal
    /** The class attribute `Subscription()` until a merge assigns one. */
    var subscription: Subscription
    /** The class attribute `None` until a merge assigns one. */
    var upgradeRequest: Option<UpgradeRequest>

    constructor (id: PyVal, version: PyVal, dbName: PyVal, dbUuid: PyVal, parentId: PyVal,
                 subscriptionId: PyVal, sharedSubscription: Subscription)
      ensures this.id == id && this.version == version && this.dbName == dbName && this.dbUuid == dbUuid
      ensures fresh(this.parentId) && this.parentId.value == parentId && this.parentId.valueIfTrue == PBool(false)
      ensures this.subscriptionId == subscriptionId
      ensures subscription == sharedSubscription && upgradeRequest == None
    {
      this.id := id;
      this.version := version;
      this.dbName := dbName;
      this.dbUuid := dbUuid;
      this.parentId := new BoolStr(parentId, PBool(false));
      this.subscriptionId := subscriptionId;
      subscription := sharedSubscription;
      upgradeRequest := None;
    }

    /** `Database(**row)`: the defaults of the keyword arguments, unknown keys ignored. */
    static method FromRow(row: Row, sharedSubscription: Subscription) returns (d: Database)
      ensures fresh(d) && fresh(d.parentId)
      ensures d.id == Arg(row, "id", PNone) && d.version == Arg(row, "version", PStr("NO VERSION"))
      ensures d.dbName == Arg(row, "db_name", PStr("NO NAME")) && d.dbUuid == Arg(row, "db_uuid", PStr(""))
      ensures d.parentId.value == Arg(row, "parent_id", PBool(false)) && d.parentId.valueIfTrue == PBool(false)
      ensures d.subscriptionId == Arg(row, "subscription_id", PNone)
      ensures d.subscription == sharedSubscription && d.upgradeRequest == None
    {
      d := new Database(Arg(row, "id", PNone), Arg(row, "version", PStr("NO VERSION")),
        Arg(row, "db_name", PStr("NO NAME")), Arg(row, "db_uuid", PStr("")), Arg(row, "parent_id", PBool(false)),
        Arg(row, "subscription_id", PNone), sharedSubscription);
    }

    /** The fields of `Database()`, built with no arguments at all. */
    predicate IsDefault() {
      id == PNone && version == PStr("NO VERSION") && dbName == PStr("NO NAME") && dbUuid == PStr("") &&
      parentId.value == PBool(false) && subscriptionId == PNone
    }

    /** `str(database.parent_id)`. */
    function ParentCell(): (r: string)
      reads parentId
      requires parentId.valueIfTrue == PBool(false)
      ensures r == "YES" <==> Truthy(parentId.value)
      ensures r == "YES" || r == "NO"
    {
      RenderYesNo(parentId.value, PBool(false));
      parentId.Str().value
    }
  }

  class Task {
    const id: PyVal
    const name: string
    const description: PyVal
    /** The class attribute `Database()` until a merge assigns one. */
    var database: Database

    constructor (id: PyVal, name: string, description: PyVal, sharedDatabase: Database)
      ensures this.id == id && this.name == name && this.description == description
      ensures database == sharedDatabase
    {
      this.id := id;
      this.name := name;
      this.description := description;
      database := sharedDatabase;
    }

    /** `Task(**row)`: `id` and `name` are required; the server sends a string name. */
    static method FromRow(row: Row, sharedDatabase: Database) returns (r: Result<Task>)
      requires "name" in row ==> row["name"].PStr?
      ensures "id" !in row ==> r == Err(MissingArgument("id"))
      ensures "id" in row && "name" !in row ==> r == Err(MissingArgument("name"))
      ensures "id" in row && "name" in row ==> (r.Ok? && fresh(r.value) &&
        r.value.id == row["id"] && r.value.name == row["name"].s &&
        r.value.description == Arg(row, "description", PNone) && r.value.database == sharedDatabase)
    {
      if "id" !in row {
        return Err(MissingArgument("id"));
      }
      if "name" !in row {
        return Err(MissingArgument("name"));
      }
      var t := new Task(row["id"], row["name"].s, Arg(row, "description", PNone), sharedDatabase);
      r := Ok(t);
    }

    function DisplayName(): string {
      DisplayNameOf(name)
    }

    /** `database_url`. */
    function DatabaseUrl(href: HrefOf): string {
      DatabaseUrlOf(description, href)
    }

    function TaskLink(odooUrl: string): string {
      TaskLinkOf(odooUrl, id)
    }

    /**
     * `get_clean_row(odoo_url, show_sub, upgrade_enabled)`: the row without an expiry
     * date; the switches come from the caller rather than from the task.
     */
    method GetCleanRow(odooUrl: string, showSub: PyVal, upgradeEnabled: PyVal) returns (r: Result<seq<PyVal>>)
      requires database.parentId.valueIfTrue == PBool(false)
      requires database.parentId != database.subscription.clientOrderRef
      modifies database.subscription.clientOrderRef
      ensures database.subscription.clientOrderRef.valueIfTrue == showSub
      ensures r == RowOf(name, database.version, SubValue(database.subscription.clientOrderRef.value, showSub),
        database.ParentCell(), None, TaskLink(odooUrl), Truthy(upgradeEnabled), database.upgradeRequest)
    {
      var sub := database.subscription.GetSubValue(showSub);
      if sub.Err? {
        return Err(sub.error);
      }
      var cells := [PStr(name), database.version, PStr(sub.value), PStr(database.ParentCell()),
        PStr(TaskLink(odooUrl))];
      assert cells == [PStr(name), database.version, PStr(sub.value), PStr(database.ParentCell())] +
        [] + [PStr(TaskLink(odooUrl))];
      if Truthy(upgradeEnabled) {
        if database.upgradeRequest.None? {
          return Err(NoneHasNoTraceback);
        }
        cells := InsertAt(cells, 4, PStr(database.upgradeRequest.value.TracebackCell()));
      }
      r := Ok(cells);
    }
  }
}
