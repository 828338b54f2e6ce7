/**
 * The records the title strategies build from server answers: subscriptions, upgrade
 * requests, databases and tasks, each made from the keyword arguments of one server row,
 * and the table row a task renders to.
 */
module ApiDtos {
  import opened Python
  import opened Utils

  type Row = map<string, PyVal>

  /** A keyword argument of `Cls(**row)`, or its default when the row lacks it. */
  function Arg(row: Row, name: string, default: PyVal): (v: PyVal)
    ensures name in row ==> v == row[name]
    ensures name !in row ==> v == default
  {
    if name in row then row[name] else default
  }

  // ---------------------------------------------------------------------------
  // Subscription
  // ---------------------------------------------------------------------------

  class Subscription {
    const id: PyVal
    const clientOrderRef: BoolStr

    /** `Subscription(id=None, client_order_ref=None)`. */
    constructor (id: PyVal, clientOrderRef: PyVal)
      ensures this.id == id && fresh(this.clientOrderRef)
      ensures this.clientOrderRef.value == clientOrderRef && this.clientOrderRef.valueIfTrue == PBool(false)
    {
      this.id := id;
      this.clientOrderRef := new BoolStr(clientOrderRef, PBool(false));
    }

    /** `Subscription(**row)`: unknown keys are ignored. */
    static method FromRow(row: Row) returns (s: Subscription)
      ensures fresh(s) && fresh(s.clientOrderRef)
      ensures s.id == Arg(row, "id", PNone)
      ensures s.clientOrderRef.value == Arg(row, "client_order_ref", PNone)
      ensures s.clientOrderRef.valueIfTrue == PBool(false)
    {
      s := new Subscription(Arg(row, "id", PNone), Arg(row, "client_order_ref", PNone));
    }

    /** `get_sub_value(show_sub)`: remembers `show_sub` in the wrapper, then renders it. */
    method GetSubValue(showSub: PyVal) returns (r: Result<string>)
      modifies clientOrderRef
      ensures clientOrderRef.valueIfTrue == showSub
      ensures r == SubValue(clientOrderRef.value, showSub)
    {
      clientOrderRef.valueIfTrue := showSub;
      r := clientOrderRef.Str();
    }
  }

  /**
   * What `get_sub_value` shows for a customer reference: YES/NO unless asked for the
   * reference itself, which is shown when it is a non-empty string.
   */
  function SubValue(ref: PyVal, showSub: PyVal): (r: Result<string>)
    ensures !Truthy(showSub) ==> r.Ok? && (r.value == "YES" <==> Truthy(ref)) && (r.value == "YES" || r.value == "NO")
    ensures !Truthy(ref) ==> r == Ok("NO")
    ensures Truthy(showSub) && ref.PStr? ==> r == Ok(if ref.s == "" then "NO" else ref.s)
  {
    RenderYesNo(ref, PBool(false));
    Render(ref, showSub)
  }

  // ---------------------------------------------------------------------------
  // UpgradeRequest
  // ---------------------------------------------------------------------------

  datatype UpgradeRequest = UpgradeRequest(id: PyVal, dbUuid: PyVal, lastTraceback: PyVal) {
    /** `has_traceback`: a new wrapper on every access; the request is not changed. */
    method HasTraceback() returns (b: BoolStr)
      ensures fresh(b) && b.value == lastTraceback && b.valueIfTrue == PBool(false)
    {
      b := new BoolStr(lastTraceback, PBool(false));
    }

    /** `str(request.has_traceback)`. */
    function TracebackCell(): (r: string)
      ensures r == "YES" <==> Truthy(lastTraceback)
      ensures r == "YES" || r == "NO"
    {
      RenderYesNo(lastTraceback, PBool(false));
      Render(lastTraceback, PBool(false)).value
    }

    /** `repr(request)`. */
    function Repr(): (r: string)
      ensures StartsWith(r, "UpgradeRequestDTO(" + StrOf(id) + ", ") && r[|r| - 1] == ')'
    {
      "UpgradeRequestDTO(" + StrOf(id) + ", " + StrOf(dbUuid) + ")"
    }
  }

  /** `UpgradeRequest()`. */
  const DefaultUpgradeRequest := UpgradeRequest(PNone, PStr(""), PNone)

  /** `UpgradeRequest(**row)`: unknown keys are ignored. */
  function UpgradeRequestFromRow(row: Row): (u: UpgradeRequest)
    ensures u.id == Arg(row, "id", PNone) && u.dbUuid == Arg(row, "db_uuid", PStr(""))
    ensures u.lastTraceback == Arg(row, "last_traceback", PNone)
    ensures row == map[] ==> u == DefaultUpgradeRequest
  {
    UpgradeRequest(Arg(row, "id", PNone), Arg(row, "db_uuid", PStr("")), Arg(row, "last_traceback", PNone))
  }

  // ---------------------------------------------------------------------------
  // Dates
  // ---------------------------------------------------------------------------

  /** A `datetime` as `strptime` returns it. */
  datatype DateTime = DateTime(year: nat, month: nat, day: nat, hour: nat, minute: nat, second: nat)

  /**
   * `datetime.strptime(text, "%Y-%m-%d %H:%M:%S")`, `None` where it raises ValueError.
   * The parser itself belongs to the standard library and is a parameter here.
   */
  type Strptime = string -> Option<DateTime>

  /** `Database.date_valid` from the `date_valid` argument. */
  function DateValidOf(v: PyVal, strptime: Strptime): (r: Result<Option<DateTime>>)
    ensures r == Ok(None) <==> !Truthy(v)
    ensures Truthy(v) && v.PStr? ==> (strptime(v.s).None? <==> r == Err(BadDate(v.s)))
    ensures Truthy(v) && v.PStr? && strptime(v.s).Some? ==> r == Ok(strptime(v.s))
    ensures Truthy(v) && !v.PStr? ==> r == Err(NotAString(v))
  {
    if !Truthy(v) then Ok(None)
    else if !v.PStr? then Err(NotAString(v))
    else
      match strptime(v.s)
      case None => Err(BadDate(v.s))
      case Some(d) => Ok(Some(d))
  }

  /** `%d` and `%m`: two digits, zero-padded. */
  function Pad2(n: nat): string {
    if n < 10 then ['0', DigitChar(n)] else NatToStr(n)
  }

  lemma {:induction false} Pad2Digits(n: nat)
    requires n < 100
    ensures |Pad2(n)| == 2
    ensures forall i | 0 <= i < 2 :: IsDigit(Pad2(n)[i])
    ensures ParseNat(Pad2(n)) == n
  {
    if n < 10 {
      assert Pad2(n)[..1] == "0";
      assert ParseNat("0") == 0;
    } else {
      NatToStrRoundTrip(n);
      assert NatToStr(n) == NatToStr(n / 10) + [DigitChar(n % 10)];
    }
  }

  /** `date.strftime("%d-%m-%Y")`. */
  function FormatDate(d: DateTime): string {
    Pad2(d.day) + "-" + Pad2(d.month) + "-" + NatToStr(d.year)
  }

  /** The formatted date gives back day, month and year. */
  lemma {:induction false} FormatDateFields(d: DateTime)
    requires 1 <= d.day <= 31 && 1 <= d.month <= 12
    ensures var s := FormatDate(d);
      |s| == 6 + |NatToStr(d.year)| && s[2] == '-' && s[5] == '-' &&
      (forall i | 0 <= i < |s| && i != 2 && i != 5 :: IsDigit(s[i])) &&
      ParseNat(s[0..2]) == d.day && ParseNat(s[3..5]) == d.month && ParseNat(s[6..]) == d.year
  {
    Pad2Digits(d.day);
    Pad2Digits(d.month);
    NatToStrRoundTrip(d.year);
    var s := FormatDate(d);
    assert s[0..2] == Pad2(d.day);
    assert s[3..5] == Pad2(d.month);
    assert s[6..] == NatToStr(d.year);
  }

  // ---------------------------------------------------------------------------
  // Database
  // ---------------------------------------------------------------------------

  class Database {
    const id: PyVal
    const version: PyVal
    const dbName: PyVal
    const dbUuid: PyVal
    const parentId: BoolStr
    const subscriptionId: PyVal
    const dateValid: Option<DateTime>
    /** The class attribute `Subscription()` until a merge assigns one. */
    var subscription: Subscription
    /** The class attribute `None` until a merge assigns one. */
    var upgradeRequest: Option<UpgradeRequest>

    constructor (id: PyVal, version: PyVal, dbName: PyVal, dbUuid: PyVal, parentId: PyVal,
                 subscriptionId: PyVal, dateValid: Option<DateTime>, sharedSubscription: Subscription)
      ensures this.id == id && this.version == version && this.dbName == dbName && this.dbUuid == dbUuid
      ensures fresh(this.parentId) && this.parentId.value == parentId && this.parentId.valueIfTrue == PBool(false)
      ensures this.subscriptionId == subscriptionId && this.dateValid == dateValid
      ensures subscription == sharedSubscription && upgradeRequest == None
    {
      this.id := id;
      this.version := version;
      this.dbName := dbName;
      this.dbUuid := dbUuid;
      this.parentId := new BoolStr(parentId, PBool(false));
      this.subscriptionId := subscriptionId;
      this.dateValid := dateValid;
      subscription := sharedSubscription;
      upgradeRequest := None;
    }

    /**
     * `Database(**row)`: the defaults of the keyword arguments, unknown keys ignored;
     * a `date_valid` that `strptime` rejects fails the construction.
     */
    static method FromRow(row: Row, strptime: Strptime, sharedSubscription: Subscription) returns (r: Result<Database>)
      ensures DateValidOf(Arg(row, "date_valid", PStr("")), strptime).Err? ==>
        r == Err(DateValidOf(Arg(row, "date_valid", PStr("")), strptime).error)
      ensures DateValidOf(Arg(row, "date_valid", PStr("")), strptime).Ok? ==> (r.Ok? &&
        fresh(r.value) && fresh(r.value.parentId) && r.value.FromRowState(row, sharedSubscription) &&
        r.value.dateValid == DateValidOf(Arg(row, "date_valid", PStr("")), strptime).value)
    {
      var dateValid := DateValidOf(Arg(row, "date_valid", PStr("")), strptime);
      if dateValid.Err? {
        return Err(dateValid.error);
      }
      var d := new Database(Arg(row, "id", PNone), Arg(row, "version", PStr("NO VERSION")),
        Arg(row, "db_name", PStr("NO NAME")), Arg(row, "db_uuid", PStr("")), Arg(row, "parent_id", PBool(false)),
        Arg(row, "subscription_id", PNone), dateValid.value, sharedSubscription);
      r := Ok(d);
    }

    /** The fields of `Database()`, built with no arguments at all. */
    predicate IsDefault() {
      id == PNone && version == PStr("NO VERSION") && dbName == PStr("NO NAME") && dbUuid == PStr("") &&
      parentId.value == PBool(false) && subscriptionId == PNone && dateValid == None
    }

    /** The fields `Database(**row)` sets from the row, apart from `date_valid`. */
    predicate FromRowState(row: Row, sharedSubscription: Subscription)
      reads this, parentId
    {
      id == Arg(row, "id", PNone) && version == Arg(row, "version", PStr("NO VERSION")) &&
      dbName == Arg(row, "db_name", PStr("NO NAME")) && dbUuid == Arg(row, "db_uuid", PStr("")) &&
      parentId.value == Arg(row, "parent_id", PBool(false)) && parentId.valueIfTrue == PBool(false) &&
      subscriptionId == Arg(row, "subscription_id", PNone) &&
      subscription == sharedSubscription && upgradeRequest == None
    }

    /** `get_date_valid()`: day-month-year of `date_valid`, or "" without one. */
    function GetDateValid(): (r: string)
      ensures r == "" <==> dateValid.None?
      ensures dateValid.Some? ==> r == FormatDate(dateValid.value)
    {
      if dateValid.Some? then FormatDate(dateValid.value) else ""
    }

    /** `str(database.parent_id)`. */
    function ParentCell(): (r: string)
      reads parentId
      requires parentId.valueIfTrue == PBool(false)
      ensures r == "YES" <==> Truthy(parentId.value)
      ensures r == "YES" || r == "NO"
    {
      RenderYesNo(parentId.value, PBool(false));
      parentId.Str().value
    }

    /** `repr(database)`. */
    function Repr(): (r: string)
      ensures StartsWith(r, "DatabaseDTO(" + StrOf(id) + ", ") && r[|r| - 1] == ')'
    {
      "DatabaseDTO(" + StrOf(id) + ", " + StrOf(dbName) + ")"
    }
  }

  // ---------------------------------------------------------------------------
  // Task
  // ---------------------------------------------------------------------------

  const RrPrefix: string := "[rr] "

  /** `display_name`: the name with every occurrence of "[rr] " removed, left to right. */
  function DisplayNameOf(name: string): string {
    Replace(name, RrPrefix, "")
  }

  /** A name without the marker is its own display name. */
  lemma {:induction false} DisplayNamePlain(name: string)
    requires !Contains(name, RrPrefix)
    ensures DisplayNameOf(name) == name
  {
    ReplaceAbsent(name, RrPrefix, "");
  }

  /** A leading marker goes, and so does each further one. */
  lemma {:induction false} DisplayNameMarked(rest: string)
    ensures DisplayNameOf(RrPrefix + rest) == DisplayNameOf(rest)
  {
    ReplaceLeading(RrPrefix, rest, "");
  }

  /**
   * One pass only: a marker split by another is left behind once the inner one goes,
   * so "[rr" + "[rr] " + "] x" shows as "[rr] x".
   */
  lemma {:induction false} DisplayNameSinglePass(tail: string)
    requires !Contains(tail, RrPrefix)
    ensures DisplayNameOf(['[', 'r', 'r'] + (RrPrefix + tail)) == ['[', 'r', 'r'] + tail
    ensures |tail| >= 2 && tail[0] == ']' && tail[1] == ' ' ==>
      StartsWith(DisplayNameOf(['[', 'r', 'r'] + (RrPrefix + tail)), RrPrefix)
  {
    var u := RrPrefix + tail;
    assert DisplayNameOf(u) == tail by {
      ReplaceLeading(RrPrefix, tail, "");
      ReplaceAbsent(tail, RrPrefix, "");
    }
    var s2 := ['r'] + u;
    assert DisplayNameOf(s2) == ['r'] + tail by {
      KeepFirst('r', u, 0);
    }
    var s1 := ['r'] + s2;
    assert DisplayNameOf(s1) == ['r'] + (['r'] + tail) by {
      KeepFirst('r', s2, 0);
    }
    assert DisplayNameOf(['['] + s1) == ['['] + (['r'] + (['r'] + tail)) by {
      assert (['['] + s1)[3] == '[';
      KeepFirst('[', s1, 3);
    }
    ThreeChars('[', 'r', 'r', u);
    ThreeChars('[', 'r', 'r', tail);
    if |tail| >= 2 && tail[0] == ']' && tail[1] == ' ' {
      var t := ['[', 'r', 'r'] + tail;
      assert t[..5] == RrPrefix;
    }
  }

  lemma {:induction false} ThreeChars(a: char, b: char, c: char, x: string)
    ensures [a, b, c] + x == [a] + ([b] + ([c] + x))
  {
  }

  /** A character that does not start the marker is kept as it is. */
  lemma {:induction false} KeepFirst(c: char, rest: string, j: nat)
    requires j <= |rest| && j < |RrPrefix| && ([c] + rest)[j] != RrPrefix[j]
    ensures DisplayNameOf([c] + rest) == [c] + DisplayNameOf(rest)
  {
    assert ([c] + rest)[1..] == rest;
  }

  /** `task_link(odoo_url)`. */
  function TaskLinkOf(odooUrl: string, id: PyVal): string {
    odooUrl + "/odoo/my-tasks/" + StrOf(id)
  }

  /** The link is the base URL, the task path and the id, so it determines an integer id. */
  lemma {:induction false} TaskLinkDeterminesId(odooUrl: string, a: int, b: int)
    requires a >= 0 && b >= 0
    requires TaskLinkOf(odooUrl, PInt(a)) == TaskLinkOf(odooUrl, PInt(b))
    ensures a == b
  {
    var p := odooUrl + "/odoo/my-tasks/";
    assert TaskLinkOf(odooUrl, PInt(a))[|p|..] == NatToStr(a);
    assert TaskLinkOf(odooUrl, PInt(b))[|p|..] == NatToStr(b);
    NatToStrInjective(a, b);
  }

  lemma {:induction false} TaskLinkShape(odooUrl: string, id: PyVal)
    ensures StartsWith(TaskLinkOf(odooUrl, id), odooUrl + "/odoo/my-tasks/")
    ensures TaskLinkOf(odooUrl, id)[|odooUrl| + 15..] == StrOf(id)
  {
  }

  /**
   * The cells of a task's table row: name, version, subscription, parent, the expiry date
   * where the row has one, and the link; with the upgrade column, the traceback cell
   * goes in at index 4. The subscription cell is computed first, so its failure wins.
   */
  function RowOf(name: string, version: PyVal, sub: Result<string>, parent: string, date: Option<string>,
                 link: string, upgrade: bool, request: Option<UpgradeRequest>): (r: Result<seq<PyVal>>)
    ensures sub.Err? ==> r == Err(sub.error)
    ensures sub.Ok? && upgrade && request.None? ==> r == Err(NoneHasNoTraceback)
    ensures sub.Ok? && (!upgrade || request.Some?) ==> r.Ok?
    ensures r.Ok? ==>
      var cells := r.value;
      var base := if date.Some? then 6 else 5;
      |cells| == (if upgrade then base + 1 else base) &&
      cells[0] == PStr(name) && cells[1] == version && cells[2] == PStr(sub.value) && cells[3] == PStr(parent) &&
      cells[|cells| - 1] == PStr(link) &&
      (upgrade ==> cells[4] == PStr(request.value.TracebackCell())) &&
      (date.Some? ==> cells[|cells| - 2] == PStr(date.value))
  {
    if sub.Err? then Err(sub.error)
    else
      var cells := [PStr(name), version, PStr(sub.value), PStr(parent)] +
        (if date.Some? then [PStr(date.value)] else []) + [PStr(link)];
      if !upgrade then Ok(cells)
      else if request.None? then Err(NoneHasNoTraceback)
      else Ok(InsertAt(cells, 4, PStr(request.value.TracebackCell())))
  }

  /** A database href extractor: the first `<a href>` of an HTML description. */
  type HrefOf = PyVal -> string

  /**
   * `database_url` of a task with this description: "" for an empty or missing
   * description, else the first link with the support path cut out.
   */
  function DatabaseUrlOf(description: PyVal, href: HrefOf): (r: string)
    ensures !Truthy(description) ==> r == ""
    ensures Truthy(description) ==> r == Replace(href(description), "/_odoo/support", "")
  {
    if !Truthy(description) then "" else Replace(href(description), "/_odoo/support", "")
  }

  class Task {
    const id: PyVal
    const name: string
    const description: PyVal
    const showSub: PyVal
    const upgradeMode: PyVal
    /** The class attribute `Database()` until a merge assigns one. */
    var database: Database

    constructor (id: PyVal, name: string, description: PyVal, showSub: PyVal, upgradeMode: PyVal, sharedDatabase: Database)
      ensures this.id == id && this.name == name && this.description == description
      ensures this.showSub == showSub && this.upgradeMode == upgradeMode && database == sharedDatabase
    {
      this.id := id;
      this.name := name;
      this.description := description;
      this.showSub := showSub;
      this.upgradeMode := upgradeMode;
      database := sharedDatabase;
    }

    /** `Task(**row)`: `id` and `name` are required; the server sends a string name. */
    static method FromRow(row: Row, sharedDatabase: Database) returns (r: Result<Task>)
      requires "name" in row ==> row["name"].PStr?
      ensures "id" !in row ==> r == Err(MissingArgument("id"))
      ensures "id" in row && "name" !in row ==> r == Err(MissingArgument("name"))
      ensures "id" in row && "name" in row ==> (r.Ok? && fresh(r.value) &&
        r.value.id == row["id"] && r.value.name == row["name"].s &&
        r.value.description == Arg(row, "description", PNone) &&
        r.value.showSub == Arg(row, "show_sub", PBool(false)) &&
        r.value.upgradeMode == Arg(row, "upgrade_mode", PBool(false)) && r.value.database == sharedDatabase)
    {
      if "id" !in row {
        return Err(MissingArgument("id"));
      }
      if "name" !in row {
        return Err(MissingArgument("name"));
      }
      var t := new Task(row["id"], row["name"].s, Arg(row, "description", PNone),
        Arg(row, "show_sub", PBool(false)), Arg(row, "upgrade_mode", PBool(false)), sharedDatabase);
      r := Ok(t);
    }

    function DisplayName(): string {
      DisplayNameOf(name)
    }

    /** `database_url`. */
    function DatabaseUrl(href: HrefOf): string {
      DatabaseUrlOf(description, href)
    }

    function TaskLink(odooUrl: string): string {
      TaskLinkOf(odooUrl, id)
    }

    /**
     * `get_clean_row(odoo_url)`. Showing the subscription cell also stores `show_sub` in
     * the subscription's wrapper.
     */
    method GetCleanRow(odooUrl: string) returns (r: Result<seq<PyVal>>)
      requires database.parentId.valueIfTrue == PBool(false)
      requires database.parentId != database.subscription.clientOrderRef
      modifies database.subscription.clientOrderRef
      ensures database.subscription.clientOrderRef.valueIfTrue == showSub
      ensures r == RowOf(name, database.version, SubValue(database.subscription.clientOrderRef.value, showSub),
        database.ParentCell(), Some(database.GetDateValid()), TaskLink(odooUrl), Truthy(upgradeMode),
        database.upgradeRequest)
    {
      var sub := database.subscription.GetSubValue(showSub);
      if sub.Err? {
        return Err(sub.error);
      }
      var cells := [PStr(name), database.version, PStr(sub.value), PStr(database.ParentCell()),
        PStr(database.GetDateValid()), PStr(TaskLink(odooUrl))];
      assert cells == [PStr(name), database.version, PStr(sub.value), PStr(database.ParentCell())] +
        [PStr(database.GetDateValid())] + [PStr(TaskLink(odooUrl))];
      if Truthy(upgradeMode) {
        if database.upgradeRequest.None? {
          return Err(NoneHasNoTraceback);
        }
        cells := InsertAt(cells, 4, PStr(database.upgradeRequest.value.TracebackCell()));
      }
      r := Ok(cells);
    }

    /** `repr(task)`. */
    function Repr(): (r: string)
      ensures StartsWith(r, "TaskDTO(" + StrOf(id) + ", " + name) && r[|r| - 1] == ')'
    {
      "TaskDTO(" + StrOf(id) + ", " + name + ")"
    }
  }

  // ---------------------------------------------------------------------------
  // Reading a repr back
  // ---------------------------------------------------------------------------

  /** The id as a repr prints it holds no ", " when it is an integer or `None`. */
  lemma {:induction false} IdNoSep(id: PyVal)
    requires id.PInt? || id.PNone?
    ensures NoSep(StrOf(id))
    ensures id.PInt? && id.i >= 0 ==>
      (forall k | 0 <= k < |StrOf(id)| :: IsDigit(StrOf(id)[k])) && ParseNat(StrOf(id)) == id.i
  {
    if id.PInt? {
      IntToStrNoSep(id.i);
      if id.i >= 0 {
        NatToStrRoundTrip(id.i);
      }
    } else {
      assert StrOf(id) == "None";
    }
  }

  /** `repr(request)` reads back as the request's id and `db_uuid`. */
  lemma {:induction false} UpgradeRequestReprFields(u: UpgradeRequest)
    requires u.id.PInt? || u.id.PNone?
    ensures SplitFields("UpgradeRequestDTO(", u.Repr()) == Some((StrOf(u.id), StrOf(u.dbUuid)))
    ensures u.id.PInt? && u.id.i >= 0 ==>
      (forall k | 0 <= k < |StrOf(u.id)| :: IsDigit(StrOf(u.id)[k])) && ParseNat(StrOf(u.id)) == u.id.i
  {
    IdNoSep(u.id);
    SplitFieldsRoundTrip("UpgradeRequestDTO(", StrOf(u.id), StrOf(u.dbUuid));
  }

  /** `repr(database)` reads back as the database's id and `db_name`. */
  lemma {:induction false} DatabaseReprFields(d: Database)
    requires d.id.PInt? || d.id.PNone?
    ensures SplitFields("DatabaseDTO(", d.Repr()) == Some((StrOf(d.id), StrOf(d.dbName)))
    ensures d.id.PInt? && d.id.i >= 0 ==>
      (forall k | 0 <= k < |StrOf(d.id)| :: IsDigit(StrOf(d.id)[k])) && ParseNat(StrOf(d.id)) == d.id.i
  {
    IdNoSep(d.id);
    SplitFieldsRoundTrip("DatabaseDTO(", StrOf(d.id), StrOf(d.dbName));
  }

  /** `repr(task)` reads back as the task's id and its whole name, ", " included. */
  lemma {:induction false} TaskReprFields(t: Task)
    requires t.id.PInt? || t.id.PNone?
    ensures SplitFields("TaskDTO(", t.Repr()) == Some((StrOf(t.id), t.name))
    ensures t.id.PInt? && t.id.i >= 0 ==>
      (forall k | 0 <= k < |StrOf(t.id)| :: IsDigit(StrOf(t.id)[k])) && ParseNat(StrOf(t.id)) == t.id.i
  {
    IdNoSep(t.id);
    SplitFieldsRoundTrip("TaskDTO(", StrOf(t.id), t.name);
  }
}
