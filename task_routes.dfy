/** The server's task routes: the JSON replies, the normalisation of a new
    task, the SET list and parameters of an update, the optional filters of
    the list query, and the not-found rule of update and delete. The `tasks`
    table is a sequence of rows; `strptime` and `fromisoformat` are a pair of
    parser functions passed in. */
module TaskRoutes {
  import opened Common

  /** A value of the request's JSON object: null or a string. */
  datatype Value = PyNone | PyStr(s: string)

  /** The request's JSON object; `request.get_json(silent=True) or {}`
      is the empty map when there is no object. */
  type Body = map<string, Value>

  /** `data.get(key)`. */
  function Get(data: Body, key: string): Value {
    if key in data then data[key] else PyNone
  }

  /** `data.get(key) or default`: None and "" fall back to the default. */
  function StrOr(data: Body, key: string, default: string): (r: string)
    ensures Get(data, key).PyStr? && Get(data, key).s != "" ==> r == Get(data, key).s
    ensures !(Get(data, key).PyStr? && Get(data, key).s != "") ==> r == default
  {
    match Get(data, key)
    case PyStr(s) => if s != "" then s else default
    case PyNone => default
  }

  datatype DateTime = DateTime(year: int, month: int, day: int, hour: int, minute: int, second: int)

  /** `datetime.strptime(s, "%Y-%m-%d")` and `datetime.fromisoformat(s)`;
      None where they raise. */
  datatype DateParsers = DateParsers(ymd: string -> Option<DateTime>, iso: string -> Option<DateTime>)

  /** A due date of exactly ten characters is read as `YYYY-MM-DD`,
      anything else as ISO 8601. */
  function ParseDue(parsers: DateParsers, s: string): (r: Option<DateTime>)
    ensures |s| == 10 ==> r == parsers.ymd(s)
    ensures |s| != 10 ==> r == parsers.iso(s)
  {
    if |s| == 10 then parsers.ymd(s) else parsers.iso(s)
  }

  datatype TaskRow = TaskRow(
    id: int,
    userId: int,
    title: string,
    description: Option<string>,
    status: string,
    priority: string,
    dueDate: Option<DateTime>,
    createdAt: int)

  /** What a reply's JSON object holds under one key. */
  datatype Payload = PBool(b: bool) | PText(s: string) | PInt(n: int) | PNull | PTask(row: TaskRow)

  datatype Reply = Reply(body: map<string, Payload>, status: int)

  /** `_ok`: `{"success": True, **data}`; a `success` key in `data` wins. */
  function OkReply(data: map<string, Payload>, status: int): (r: Reply)
    ensures r.status == status
    ensures r.body.Keys == data.Keys + {"success"}
    ensures forall k :: k in data ==> r.body[k] == data[k]
    ensures "success" !in data ==> r.body["success"] == PBool(true)
  {
    Reply(map["success" := PBool(true)] + data, status)
  }

  /** `_err`: `{"success": False, "message": msg}`. */
  function ErrReply(msg: string, status: int): (r: Reply)
    ensures r.status == status && r.body.Keys == {"success", "message"}
    ensures r.body["success"] == PBool(false) && r.body["message"] == PText(msg)
  {
    Reply(map["success" := PBool(false), "message" := PText(msg)], status)
  }

  /** A route's validation either passes a value on or answers at once. */
  datatype Checked<T> = Pass(value: T) | Fail(reply: Reply)

  /** The values `create_task` inserts. */
  datatype NewTask = NewTask(
    userId: int,
    title: string,
    description: Option<string>,
    status: string,
    priority: string,
    dueDate: Option<DateTime>)

  const TitleRequired := "title is required"
  const BadCreateDue := "Invalid due_date format. Use YYYY-MM-DD or ISO 8601."

  /** The due date step of create and update: absent or falsy, unreadable,
      or read. */
  datatype DueStep = NoDue | BadDue | GoodDue(at: DateTime)

  function DueOf(data: Body, parsers: DateParsers): (d: DueStep)
    ensures !(Get(data, "due_date").PyStr? && Get(data, "due_date").s != "") <==> d.NoDue?
  {
    match Get(data, "due_date")
    case PyNone => NoDue
    case PyStr(s) =>
      if s == "" then NoDue
      else match ParseDue(parsers, s)
        case None => BadDue
        case Some(t) => GoodDue(t)
  }

  /** `create_task` up to the insert: the stripped title is required and is
      checked before the due date; priority and status default to "medium"
      and "pending" and are lower-cased; an empty stripped description is
      stored as NULL. */
  function NormalizeCreate(uid: int, data: Body, parsers: DateParsers): (r: Checked<NewTask>)
    ensures Trim(Python, StrOr(data, "title", "")) == "" ==> r == Fail(ErrReply(TitleRequired, 400))
    ensures Trim(Python, StrOr(data, "title", "")) != "" && DueOf(data, parsers).BadDue? ==>
      r == Fail(ErrReply(BadCreateDue, 400))
    ensures r.Pass? <==> Trim(Python, StrOr(data, "title", "")) != "" && !DueOf(data, parsers).BadDue?
    ensures r.Pass? ==>
      && r.value.userId == uid
      && r.value.title == Trim(Python, StrOr(data, "title", ""))
      && r.value.priority == Lower(StrOr(data, "priority", "medium"))
      && r.value.status == Lower(StrOr(data, "status", "pending"))
      && (r.value.description.None? <==> Trim(Python, StrOr(data, "description", "")) == "")
      && (r.value.description.Some? ==> r.value.description.value == Trim(Python, StrOr(data, "description", "")))
      && (DueOf(data, parsers).NoDue? ==> r.value.dueDate.None?)
      && (DueOf(data, parsers).GoodDue? ==> r.value.dueDate == Some(DueOf(data, parsers).at))
  {
    var title := Trim(Python, StrOr(data, "title", ""));
    var description := Trim(Python, StrOr(data, "description", ""));
    var priority := Lower(StrOr(data, "priority", "medium"));
    var status := Lower(StrOr(data, "status", "pending"));
    if title == "" then Fail(ErrReply(TitleRequired, 400))
    else match DueOf(data, parsers)
      case BadDue => Fail(ErrReply(BadCreateDue, 400))
      case NoDue => Pass(NewTask(uid, title, if description == "" then None else Some(description), status, priority, None))
      case GoodDue(t) => Pass(NewTask(uid, title, if description == "" then None else Some(description), status, priority, Some(t)))
  }

  /** A body that gives only a title gets the defaults: no description,
      status "pending", priority "medium", no due date. */
  lemma CreateDefaults(uid: int, data: Body, parsers: DateParsers)
    requires Trim(Python, StrOr(data, "title", "")) != ""
    requires Get(data, "description") == PyNone && Get(data, "due_date") == PyNone
    requires Get(data, "priority") == PyNone && Get(data, "status") == PyNone
    ensures NormalizeCreate(uid, data, parsers)
         == Pass(NewTask(uid, Trim(Python, StrOr(data, "title", "")), None, "pending", "medium", None))
  {
    PriorityDefault(data);
    StatusDefault(data);
    TrimEmptyIff(Python, "");
  }

  lemma PriorityDefault(data: Body)
    requires Get(data, "priority") == PyNone
    ensures Lower(StrOr(data, "priority", "medium")) == "medium"
  {
    LoweredDefault(data, "priority", "medium");
  }

  lemma StatusDefault(data: Body)
    requires Get(data, "status") == PyNone
    ensures Lower(StrOr(data, "status", "pending")) == "pending"
  {
    LoweredDefault(data, "status", "pending");
  }

  /** An absent key gives its default, which lower-casing keeps. */
  lemma LoweredDefault(data: Body, key: string, default: string)
    requires Get(data, key) == PyNone && Lower(default) == default
    ensures Lower(StrOr(data, key, default)) == default
  {
    assert StrOr(data, key, default) == default;
  }

  // ---- update_task ----

  /** The keys `update_task` looks at first, in this order. */
  const UpdatableKeys: seq<string> := ["title", "description", "status", "priority"]

  /** `key in data and data[key] is not None`. */
  predicate IsSet(data: Body, key: string) {
    key in data && data[key].PyStr?
  }

  /** The keys of `keys` that the body sets, in the order of `keys`. */
  function SetKeys(keys: seq<string>, data: Body): (r: seq<string>)
    ensures |r| <= |keys|
    ensures forall k :: k in r <==> k in keys && IsSet(data, k)
  {
    if keys == [] then []
    else SetKeys(keys[..|keys| - 1], data)
         + (if IsSet(data, keys[|keys| - 1]) then [keys[|keys| - 1]] else [])
  }

  /** A parameter of a query. */
  datatype Param = QInt(n: int) | QText(s: string) | QDate(at: DateTime) | QNull

  /** The values of those keys, unchanged (neither stripped nor lower-cased). */
  function SetValues(keys: seq<string>, data: Body): (r: seq<Param>)
    ensures |r| == |SetKeys(keys, data)|
  {
    if keys == [] then []
    else SetValues(keys[..|keys| - 1], data)
         + (if IsSet(data, keys[|keys| - 1]) then [QText(data[keys[|keys| - 1]].s)] else [])
  }

  /** Each value stands at the position of its key. */
  lemma {:induction false} ValuesMatchKeys(keys: seq<string>, data: Body, i: nat)
    requires i < |SetKeys(keys, data)|
    ensures IsSet(data, SetKeys(keys, data)[i])
    ensures SetValues(keys, data)[i] == QText(data[SetKeys(keys, data)[i]].s)
  {
    var init := keys[..|keys| - 1];
    if i < |SetKeys(init, data)| {
      ValuesMatchKeys(init, data, i);
    }
  }

  /** The columns an update sets: the set keys in the fixed order, then
      `due_date` whenever the body has that key, even with a falsy value. */
  function UpdatedColumns(data: Body): (r: seq<string>)
    ensures |r| <= |UpdatableKeys| + 1
    ensures forall k :: k in r <==> (k in UpdatableKeys && IsSet(data, k)) || (k == "due_date" && "due_date" in data)
  {
    SetKeys(UpdatableKeys, data) + (if "due_date" in data then ["due_date"] else [])
  }

  /** The values for those columns; a falsy due date becomes NULL. */
  function UpdateValues(data: Body, parsers: DateParsers): (r: seq<Param>)
    ensures !DueOf(data, parsers).BadDue? ==> |r| == |UpdatedColumns(data)|
    ensures DueOf(data, parsers).GoodDue? ==> r[|r| - 1] == QDate(DueOf(data, parsers).at)
    ensures DueOf(data, parsers).NoDue? && "due_date" in data ==> r[|r| - 1] == QNull
  {
    SetValues(UpdatableKeys, data)
    + match DueOf(data, parsers)
      case GoodDue(t) => [QDate(t)]
      case _ => if "due_date" in data then [QNull] else []
  }

  /** A query's text as literal fragments and `%s` placeholders. */
  datatype Piece = Text(s: string) | Hole

  /** The text the database driver receives. */
  function Render(pieces: seq<Piece>): string {
    if pieces == [] then ""
    else (if pieces[0].Hole? then "%s" else pieces[0].s) + Render(pieces[1..])
  }

  /** The number of placeholders. */
  function Holes(pieces: seq<Piece>): nat {
    if pieces == [] then 0 else (if pieces[0].Hole? then 1 else 0) + Holes(pieces[1..])
  }

  lemma {:induction false} HolesConcat(a: seq<Piece>, b: seq<Piece>)
    ensures Holes(a + b) == Holes(a) + Holes(b)
  {
    if a == [] {
      assert a + b == b;
    } else {
      assert (a + b)[1..] == a[1..] + b;
      HolesConcat(a[1..], b);
    }
  }

  /** `f"{key}=%s"`. */
  function Clause(column: string): seq<Piece> {
    [Text(column + "="), Hole]
  }

  function Clauses(columns: seq<string>): (r: seq<seq<Piece>>)
    ensures |r| == |columns|
    ensures forall i :: 0 <= i < |columns| ==> r[i] == Clause(columns[i])
  {
    seq(|columns|, i requires 0 <= i < |columns| => Clause(columns[i]))
  }

  /** `sep.join(parts)`. */
  function Join(parts: seq<seq<Piece>>, sep: seq<Piece>): seq<Piece> {
    if |parts| == 0 then []
    else if |parts| == 1 then parts[0]
    else parts[0] + sep + Join(parts[1..], sep)
  }

  const UpdateHead: seq<Piece> := [Text("UPDATE tasks SET ")]
  const UpdateWhere: seq<Piece> := [Text(" WHERE id="), Hole, Text(" AND user_id="), Hole]

  /** `f"UPDATE tasks SET {', '.join(fields)} WHERE id=%s AND user_id=%s"`:
      one placeholder per column and two for the ids. */
  function UpdateSql(columns: seq<string>): (r: seq<Piece>)
    ensures Holes(r) == |columns| + 2
  {
    var list := Join(Clauses(columns), [Text(", ")]);
    ClauseHoles(columns);
    JoinHoles(Clauses(columns), [Text(", ")]);
    HolesConcat(UpdateHead, list);
    HolesConcat(UpdateHead + list, UpdateWhere);
    UpdateHead + list + UpdateWhere
  }

  /** Each clause holds one placeholder. */
  lemma ClauseHoles(columns: seq<string>)
    ensures forall i :: 0 <= i < |Clauses(columns)| ==> Holes(Clauses(columns)[i]) == 1
  {
    forall i | 0 <= i < |columns| ensures Holes(Clauses(columns)[i]) == 1 {
      var c := Clauses(columns)[i];
      assert c == [Text(columns[i] + "="), Hole];
      assert c[1..][1..] == [];
      assert Holes(c[1..]) == 1;
    }
  }

  datatype Query = Query(sql: seq<Piece>, params: seq<Param>)

  /** Joining clauses that hold one placeholder each gives one placeholder
      per clause. */
  lemma {:induction false} JoinHoles(parts: seq<seq<Piece>>, sep: seq<Piece>)
    requires Holes(sep) == 0
    requires forall i :: 0 <= i < |parts| ==> Holes(parts[i]) == 1
    ensures Holes(Join(parts, sep)) == |parts|
  {
    if |parts| > 1 {
      JoinHoles(parts[1..], sep);
      HolesConcat(parts[0], sep);
      HolesConcat(parts[0] + sep, Join(parts[1..], sep));
    }
  }

  /** The UPDATE statement has exactly as many placeholders as parameters. */
  lemma UpdateHolesMatch(data: Body, parsers: DateParsers, taskId: int, uid: int)
    requires !DueOf(data, parsers).BadDue?
    ensures Holes(UpdateSql(UpdatedColumns(data)))
         == |UpdateValues(data, parsers) + [QInt(taskId), QInt(uid)]|
  {
  }

  /** A rank for each column in the fixed order. */
  function Rank(key: string): int {
    if key == "title" then 0 else if key == "description" then 1
    else if key == "status" then 2 else if key == "priority" then 3 else 4
  }

  predicate Ascending(keys: seq<string>) {
    forall i, j :: 0 <= i < j < |keys| ==> Rank(keys[i]) < Rank(keys[j])
  }

  /** Picking keys out of an ascending list keeps them ascending. */
  lemma {:induction false} SetKeysAscending(keys: seq<string>, data: Body)
    requires Ascending(keys)
    ensures Ascending(SetKeys(keys, data))
  {
    if keys != [] {
      var init := keys[..|keys| - 1];
      assert Ascending(init);
      SetKeysAscending(init, data);
      forall k | k in SetKeys(init, data) ensures Rank(k) < Rank(keys[|keys| - 1]) {
        var i :| 0 <= i < |init| && init[i] == k;
      }
    }
  }

  /** The SET list follows the fixed order title, description, status,
      priority, due_date. */
  lemma ColumnsInFixedOrder(data: Body)
    ensures Ascending(UpdatedColumns(data))
  {
    SetKeysAscending(UpdatableKeys, data);
    forall k | k in SetKeys(UpdatableKeys, data) ensures Rank(k) < Rank("due_date") {
    }
  }

  const NoFields := "No fields to update"
  const BadUpdateDue := "Invalid due_date format"

  /** The loop of `update_task` over the fixed keys: a clause and a
      parameter for each key the body sets to a non-null value. */
  method CollectSetFields(data: Body) returns (fields: seq<seq<Piece>>, params: seq<Param>)
    ensures fields == Clauses(SetKeys(UpdatableKeys, data))
    ensures params == SetValues(UpdatableKeys, data)
  {
    fields := [];
    params := [];
    for i := 0 to |UpdatableKeys|
      invariant fields == Clauses(SetKeys(UpdatableKeys[..i], data))
      invariant params == SetValues(UpdatableKeys[..i], data)
    {
      var key := UpdatableKeys[i];
      assert UpdatableKeys[..i + 1][..i] == UpdatableKeys[..i];
      if key in data && data[key] != PyNone {
        ClausesAppend(SetKeys(UpdatableKeys[..i], data), key);
        fields := fields + [Clause(key)];
        params := params + [QText(data[key].s)];
      }
    }
    assert UpdatableKeys[..|UpdatableKeys|] == UpdatableKeys;
  }

  /** `update_task` up to the statement: the SET list and the parameters,
      built by the loop over the fixed keys and then the due date; 400 for
      an unreadable due date or for nothing to set. */
  method BuildUpdate(taskId: int, uid: int, data: Body, parsers: DateParsers) returns (r: Checked<Query>)
    ensures DueOf(data, parsers).BadDue? ==> r == Fail(ErrReply(BadUpdateDue, 400))
    ensures !DueOf(data, parsers).BadDue? && UpdatedColumns(data) == [] ==> r == Fail(ErrReply(NoFields, 400))
    ensures !DueOf(data, parsers).BadDue? && UpdatedColumns(data) != [] ==>
      r == Pass(Query(UpdateSql(UpdatedColumns(data)), UpdateValues(data, parsers) + [QInt(taskId), QInt(uid)]))
    ensures r.Pass? ==> Holes(r.value.sql) == |r.value.params|
  {
    var fields, params := CollectSetFields(data);
    if "due_date" in data {
      var due := data["due_date"];
      if due.PyStr? && due.s != "" {
        var parsed := ParseDue(parsers, due.s);
        if parsed.None? {
          return Fail(ErrReply(BadUpdateDue, 400));
        }
        assert DueOf(data, parsers) == GoodDue(parsed.value);
        fields := fields + [Clause("due_date")];
        params := params + [QDate(parsed.value)];
      } else {
        assert DueOf(data, parsers) == NoDue;
        fields := fields + [Clause("due_date")];
        params := params + [QNull];
      }
      ClausesAppend(SetKeys(UpdatableKeys, data), "due_date");
    } else {
      assert DueOf(data, parsers) == NoDue;
      assert UpdatedColumns(data) == SetKeys(UpdatableKeys, data);
    }
    assert fields == Clauses(UpdatedColumns(data));
    assert params == UpdateValues(data, parsers);
    if fields == [] {
      return Fail(ErrReply(NoFields, 400));
    }
    params := params + [QInt(taskId), QInt(uid)];
    r := Pass(Query(UpdateHead + Join(fields, [Text(", ")]) + UpdateWhere, params));
    UpdateHolesMatch(data, parsers, taskId, uid);
  }

  lemma ClausesAppend(columns: seq<string>, c: string)
    ensures Clauses(columns + [c]) == Clauses(columns) + [Clause(c)]
  {
  }

  /** A row as the UPDATE leaves it: each set key's column takes the raw
      value; `due_date` becomes the parsed date or NULL. */
  function Patched(row: TaskRow, data: Body, parsers: DateParsers): (r: TaskRow)
    ensures r.id == row.id && r.userId == row.userId && r.createdAt == row.createdAt
    ensures r.title == if IsSet(data, "title") then data["title"].s else row.title
    ensures r.description == if IsSet(data, "description") then Some(data["description"].s) else row.description
    ensures r.status == if IsSet(data, "status") then data["status"].s else row.status
    ensures r.priority == if IsSet(data, "priority") then data["priority"].s else row.priority
    ensures DueOf(data, parsers).GoodDue? ==> r.dueDate == Some(DueOf(data, parsers).at)
    ensures "due_date" in data && DueOf(data, parsers).NoDue? ==> r.dueDate.None?
    ensures "due_date" !in data ==> r.dueDate == row.dueDate
  {
    row.(
      title := if IsSet(data, "title") then data["title"].s else row.title,
      description := if IsSet(data, "description") then Some(data["description"].s) else row.description,
      status := if IsSet(data, "status") then data["status"].s else row.status,
      priority := if IsSet(data, "priority") then data["priority"].s else row.priority,
      dueDate := match DueOf(data, parsers)
        case GoodDue(t) => Some(t)
        case _ => if "due_date" in data then None else row.dueDate)
  }

  /** The row with this id that belongs to this user, if any. */
  function FindTask(rows: seq<TaskRow>, taskId: int, uid: int): (r: Option<TaskRow>)
    ensures r.Some? ==> r.value in rows && r.value.id == taskId && r.value.userId == uid
    ensures r.None? <==> forall i :: 0 <= i < |rows| ==> !(rows[i].id == taskId && rows[i].userId == uid)
  {
    if rows == [] then None
    else if rows[0].id == taskId && rows[0].userId == uid then Some(rows[0])
    else FindTask(rows[1..], taskId, uid)
  }

  /** `UPDATE ... WHERE id=%s AND user_id=%s`. */
  function PatchedRows(rows: seq<TaskRow>, taskId: int, uid: int, data: Body, parsers: DateParsers): (r: seq<TaskRow>)
    ensures |r| == |rows|
    ensures forall i :: 0 <= i < |rows| ==>
      r[i] == if rows[i].id == taskId && rows[i].userId == uid then Patched(rows[i], data, parsers) else rows[i]
  {
    seq(|rows|, i requires 0 <= i < |rows| =>
      if rows[i].id == taskId && rows[i].userId == uid then Patched(rows[i], data, parsers) else rows[i])
  }

  /** `DELETE ... WHERE id=%s AND user_id=%s`. */
  function WithoutTask(rows: seq<TaskRow>, taskId: int, uid: int): (r: seq<TaskRow>)
    ensures forall t :: t in r <==> t in rows && !(t.id == taskId && t.userId == uid)
  {
    if rows == [] then []
    else (if rows[0].id == taskId && rows[0].userId == uid then [] else [rows[0]])
         + WithoutTask(rows[1..], taskId, uid)
  }

  /** An update of a task the user does not own writes nothing. */
  lemma PatchMissingIsNoop(rows: seq<TaskRow>, taskId: int, uid: int, data: Body, parsers: DateParsers)
    requires FindTask(rows, taskId, uid).None?
    ensures PatchedRows(rows, taskId, uid, data, parsers) == rows
  {
  }

  // ---- list_tasks ----

  const ListBase: seq<Piece> := [Text("SELECT * FROM tasks WHERE user_id="), Hole]
  const StatusFilter: seq<Piece> := [Text(" AND status="), Hole]
  const PriorityFilter: seq<Piece> := [Text(" AND priority="), Hole]
  const ListOrder: seq<Piece> := [Text(" ORDER BY created_at DESC")]

  /** `if value:` on a query-string argument. */
  predicate Given(v: Value) {
    v.PyStr? && v.s != ""
  }

  /** `list_tasks`' query: the user's tasks, a status filter and then a
      priority filter when given and non-empty, newest first; one parameter
      per placeholder, in the order of the placeholders. */
  method BuildListQuery(uid: int, status: Value, priority: Value) returns (q: Query)
    ensures q.sql == ListBase + (if Given(status) then StatusFilter else [])
      + (if Given(priority) then PriorityFilter else []) + ListOrder
    ensures q.params == [QInt(uid)]
      + (if Given(status) then [QText(status.s)] else [])
      + (if Given(priority) then [QText(priority.s)] else [])
    ensures Holes(q.sql) == |q.params|
  {
    var sql := ListBase;
    var params := [QInt(uid)];
    if Given(status) {
      HolesConcat(sql, StatusFilter);
      sql := sql + StatusFilter;
      params := params + [QText(status.s)];
    }
    if Given(priority) {
      HolesConcat(sql, PriorityFilter);
      sql := sql + PriorityFilter;
      params := params + [QText(priority.s)];
    }
    HolesConcat(sql, ListOrder);
    sql := sql + ListOrder;
    q := Query(sql, params);
  }

  // ---- the table ----

  /** What the database helper answered for the INSERT: a row count, or a
      dictionary that may carry `lastrowid`. */
  datatype InsertResult = RowCount(n: int) | Dict(fields: map<string, int>)

  /** `res["lastrowid"] if isinstance(res, dict) and "lastrowid" in res else None`. */
  function NewIdOf(res: InsertResult): (r: Option<int>)
    ensures res.RowCount? ==> r.None?
    ensures res.Dict? ==> (r.Some? <==> "lastrowid" in res.fields)
    ensures r.Some? ==> r.value == res.fields["lastrowid"]
  {
    if res.Dict? && "lastrowid" in res.fields then Some(res.fields["lastrowid"]) else None
  }

  /** The reply to a successful insert: the row selected by the id read
      back from the insert, or `{"id": new_id}` when none is found. */
  function CreatedReply(rows: seq<TaskRow>, uid: int, newId: Option<int>): (r: Reply)
    ensures r.status == 201
    ensures newId.None? ==> r == OkReply(map["id" := PNull], 201)
  {
    if newId.None? then OkReply(map["id" := PNull], 201)
    else match FindTask(rows, newId.value, uid)
      case Some(row) => OkReply(map["task" := PTask(row)], 201)
      case None => OkReply(map["id" := PInt(newId.value)], 201)
  }

  /** As written: the database helper answers an INSERT with the row
      count, so no id is read back and the reply to a create never carries
      the task; it is `{"success": true, "id": null}` with 201. */
  lemma RowCountReplyHasNoTask(rows: seq<TaskRow>, uid: int, n: int)
    ensures NewIdOf(RowCount(n)).None?
    ensures "task" !in CreatedReply(rows, uid, NewIdOf(RowCount(n))).body
    ensures CreatedReply(rows, uid, NewIdOf(RowCount(n))).body["id"] == PNull
  {
  }

  /** A row appended under a fresh (id, user) pair is the one found for it. */
  lemma {:induction false} FindFreshAppended(rows: seq<TaskRow>, row: TaskRow)
    requires FindTask(rows, row.id, row.userId).None?
    ensures FindTask(rows + [row], row.id, row.userId) == Some(row)
  {
    if rows != [] {
      assert (rows + [row])[1..] == rows[1..] + [row];
      FindFreshAppended(rows[1..], row);
    }
  }

  /** Corrected: with the id of the inserted row read back, the reply to a
      create carries exactly the new row. */
  lemma CreateReplyCarriesTask(rows: seq<TaskRow>, row: TaskRow)
    requires FindTask(rows, row.id, row.userId).None?
    ensures CreatedReply(rows + [row], row.userId, Some(row.id)) == OkReply(map["task" := PTask(row)], 201)
  {
    FindFreshAppended(rows, row);
  }

  /** The `tasks` table. */
  class TaskTable {
    var rows: seq<TaskRow>

    constructor (rows: seq<TaskRow>)
      ensures this.rows == rows
    {
      this.rows := rows;
    }

    /** `create_task`: a 400 reply and no insert when the input is rejected;
        otherwise one new row, `newId` and `now` standing for the
        auto-increment key and the insertion time, and the 201 reply built
        from the id read back out of `ins`, the database helper's answer to
        the INSERT. A row count yields no id and the reply `{"id": null}`;
        an answer that reads back the new row's fresh id yields the row. */
    method CreateTask(uid: int, data: Body, parsers: DateParsers, newId: int, now: int, ins: InsertResult)
      returns (reply: Reply)
      modifies this
      ensures NormalizeCreate(uid, data, parsers).Fail? ==>
        reply == NormalizeCreate(uid, data, parsers).reply && rows == old(rows)
      ensures NormalizeCreate(uid, data, parsers).Pass? ==>
        var t := NormalizeCreate(uid, data, parsers).value;
        var row := TaskRow(newId, uid, t.title, t.description, t.status, t.priority, t.dueDate, now);
        && rows == old(rows) + [row]
        && reply == CreatedReply(rows, uid, NewIdOf(ins))
        && (ins.RowCount? ==> reply == OkReply(map["id" := PNull], 201))
        && (NewIdOf(ins) == Some(newId) && FindTask(old(rows), newId, uid).None? ==>
              reply == OkReply(map["task" := PTask(row)], 201))
    {
      var checked := NormalizeCreate(uid, data, parsers);
      if checked.Fail? {
        return checked.reply;
      }
      var t := checked.value;
      var row := TaskRow(newId, uid, t.title, t.description, t.status, t.priority, t.dueDate, now);
      if NewIdOf(ins) == Some(newId) && FindTask(rows, newId, uid).None? {
        CreateReplyCarriesTask(rows, row);
      }
      rows := rows + [row];
      reply := CreatedReply(rows, uid, NewIdOf(ins));
    }

    /** `update_task`: validation answers first (400); then the UPDATE, and
        404 when the user has no task with this id, in which case nothing
        was written. */
    method UpdateTask(taskId: int, uid: int, data: Body, parsers: DateParsers) returns (reply: Reply)
      modifies this
      ensures DueOf(data, parsers).BadDue? ==> reply == ErrReply(BadUpdateDue, 400) && rows == old(rows)
      ensures !DueOf(data, parsers).BadDue? && UpdatedColumns(data) == [] ==>
        reply == ErrReply(NoFields, 400) && rows == old(rows)
      ensures !DueOf(data, parsers).BadDue? && UpdatedColumns(data) != [] ==>
        rows == PatchedRows(old(rows), taskId, uid, data, parsers)
      ensures !DueOf(data, parsers).BadDue? && UpdatedColumns(data) != [] && FindTask(old(rows), taskId, uid).None? ==>
        reply == ErrReply("Task not found", 404) && rows == old(rows)
      ensures !DueOf(data, parsers).BadDue? && UpdatedColumns(data) != [] && FindTask(old(rows), taskId, uid).Some? ==>
        reply == OkReply(map["task" := PTask(Patched(FindTask(old(rows), taskId, uid).value, data, parsers))], 200)
      ensures reply.status == 200 ==> (FindTask(old(rows), taskId, uid).Some?
        && reply == OkReply(map["task" := PTask(Patched(FindTask(old(rows), taskId, uid).value, data, parsers))], 200))
    {
      var built := BuildUpdate(taskId, uid, data, parsers);
      if built.Fail? {
        return built.reply;
      }
      ghost var before := rows;
      rows := PatchedRows(rows, taskId, uid, data, parsers);
      if FindTask(before, taskId, uid).Some? {
        FindPatched(before, taskId, uid, data, parsers);
      } else {
        PatchMissingIsNoop(before, taskId, uid, data, parsers);
      }
      var sel := FindTask(rows, taskId, uid);
      if sel.None? {
        return ErrReply("Task not found", 404);
      }
      reply := OkReply(map["task" := PTask(sel.value)], 200);
    }

    /** `delete_task`: 404 and no change when the user has no task with
        this id; otherwise every such row is removed. */
    method DeleteTask(taskId: int, uid: int) returns (reply: Reply)
      modifies this
      ensures FindTask(old(rows), taskId, uid).None? ==>
        reply == ErrReply("Task not found", 404) && rows == old(rows)
      ensures FindTask(old(rows), taskId, uid).Some? ==>
        reply == OkReply(map["deleted" := PInt(taskId)], 200)
        && rows == WithoutTask(old(rows), taskId, uid)
        && FindTask(rows, taskId, uid).None?
    {
      if FindTask(rows, taskId, uid).None? {
        return ErrReply("Task not found", 404);
      }
      rows := WithoutTask(rows, taskId, uid);
      reply := OkReply(map["deleted" := PInt(taskId)], 200);
      forall i | 0 <= i < |rows| ensures !(rows[i].id == taskId && rows[i].userId == uid) {
        assert rows[i] in rows;
      }
    }
  }

  /** The row found after the UPDATE is the patched form of the row found
      before it. */
  lemma {:induction false} FindPatched(rows: seq<TaskRow>, taskId: int, uid: int, data: Body, parsers: DateParsers)
    requires FindTask(rows, taskId, uid).Some?
    ensures FindTask(PatchedRows(rows, taskId, uid, data, parsers), taskId, uid)
         == Some(Patched(FindTask(rows, taskId, uid).value, data, parsers))
  {
    var r := PatchedRows(rows, taskId, uid, data, parsers);
    if !(rows[0].id == taskId && rows[0].userId == uid) {
      assert r[1..] == PatchedRows(rows[1..], taskId, uid, data, parsers);
      FindPatched(rows[1..], taskId, uid, data, parsers);
    }
  }
}

