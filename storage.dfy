/** The JSON-file-backed todo store `TodoStorage`: an in-memory `TodoList`, an
    initialisation flag, and the files it reads and writes. The file system is a
    map from path to what the file holds; "now" (the ISO timestamp the store
    would take from `datetime.now()`), "today" and fresh uuids are parameters. */
module TodoStore {
  import opened Wrappers
  import opened Text
  import opened JsonData
  import opened TodoTypes
  import opened TodoSchema
  import opened Errors
  import opened TodoLogic

  /** What a file holds: a JSON document, or text `json.loads` rejects with this message. */
  datatype FileContent = JsonText(value: Json) | NotJson(decodeError: string)

  const NotInitializedMessage := "Storage not initialized. Call initialize() first."

  /** What `_ensure_initialized` raises. */
  const NotInitialized: Exception := Raised(NewStorageError(NotInitializedMessage, None, None))

  // ---- ids ----

  predicate HasId(todos: seq<Todo>, id: string) {
    exists i :: 0 <= i < |todos| && todos[i].id == id
  }

  predicate UniqueIds(todos: seq<Todo>) {
    forall i, j :: 0 <= i < j < |todos| ==> todos[i].id != todos[j].id
  }

  /** The index of the first todo with this id, or -1. */
  function FirstIndexOf(todos: seq<Todo>, id: string): (k: int)
    ensures -1 <= k < |todos|
    ensures k == -1 <==> !HasId(todos, id)
    ensures k >= 0 ==> todos[k].id == id && forall j :: 0 <= j < k ==> todos[j].id != id
  {
    if todos == [] then -1
    else if todos[0].id == id then 0
    else
      var k := FirstIndexOf(todos[1..], id);
      if k == -1 then -1 else k + 1
  }

  /** Appending a todo whose id is new keeps the ids distinct. */
  lemma AppendKeepsIdsUnique(todos: seq<Todo>, t: Todo)
    requires UniqueIds(todos) && !HasId(todos, t.id)
    ensures UniqueIds(todos + [t])
  {
  }

  /** Replacing an entry by one with the same id keeps the ids distinct. */
  lemma ReplaceKeepsIdsUnique(todos: seq<Todo>, k: int, t: Todo)
    requires UniqueIds(todos) && 0 <= k < |todos| && t.id == todos[k].id
    ensures UniqueIds(todos[k := t])
  {
  }

  /** Removing the first match from a list with distinct ids removes every match. */
  lemma RemoveFirstOfUnique(todos: seq<Todo>, id: string)
    requires UniqueIds(todos) && HasId(todos, id)
    ensures var k := FirstIndexOf(todos, id);
      var rest := todos[..k] + todos[k + 1..];
      |rest| == |todos| - 1 && !HasId(rest, id) && UniqueIds(rest)
  {
    var k := FirstIndexOf(todos, id);
    var rest := todos[..k] + todos[k + 1..];
    assert forall i :: 0 <= i < |rest| ==> rest[i] == (if i < k then todos[i] else todos[i + 1]);
  }

  // ---- metadata ----

  /** The counts `_update_metadata` writes agree with the list. */
  predicate MetadataConsistent(l: TodoList) {
    l.metadata.totalCount == |l.todos| && l.metadata.completedCount == CountCompleted(l.todos)
  }

  /** The list after `_update_metadata` at time `now`. */
  function Refreshed(l: TodoList, now: string): TodoList {
    l.(metadata := l.metadata.(lastModified := now, totalCount := |l.todos|,
                               completedCount := CountCompleted(l.todos)))
  }

  lemma RefreshedProperties(l: TodoList, now: string)
    ensures MetadataConsistent(Refreshed(l, now))
    ensures Refreshed(l, now).todos == l.todos
    ensures Refreshed(l, now).metadata.version == l.metadata.version
    ensures Refreshed(l, now).metadata.lastModified == now
    ensures Refreshed(Refreshed(l, now), now) == Refreshed(l, now)
    ensures MetadataConsistent(l) && l.metadata.lastModified == now ==> Refreshed(l, now) == l
  {
  }

  // ---- statistics: the finding ----

  /** The `ValueError` `datetime.fromisoformat` raises on a due date that fails its format
      parse; it quotes the string it was given, with each 'Z' already replaced. A date whose
      fields parse but are out of range raises a ValueError with another text. */
  function BadIsoFormat(date: string): (e: Exception)
    ensures e.OtherFailure? && e.typeName == "ValueError"
    ensures e.message == "Invalid isoformat string: '" + ReplaceZulu(date) + "'"
  {
    OtherFailure("ValueError", "Invalid isoformat string: '" + ReplaceZulu(date) + "'")
  }

  /** The overdue count of `_get_stats_internal` as written: the first non-empty due
      date that does not parse raises `ValueError` out of `datetime.fromisoformat`. */
  function OverdueAsWritten(todos: seq<Todo>, clock: Clock): (r: Result<nat, Exception>)
    ensures r.Err? ==> r.error.OtherFailure? && r.error.typeName == "ValueError"
  {
    if todos == [] then Ok(0)
    else
      var n :- OverdueAsWritten(todos[..|todos| - 1], clock);
      var t := todos[|todos| - 1];
      if !HasDueDate(t) then Ok(n)
      else match clock.parse(t.dueDate.value)
        case None => Err(BadIsoFormat(t.dueDate.value))
        case Some(m) => Ok(n + (if m.day < clock.today && !t.completed then 1 else 0))
  }

  /** `_get_stats_internal` as written. */
  function StatsInternalAsWritten(todos: seq<Todo>, clock: Clock): (r: Result<Stats, Exception>)
    ensures r.Err? ==> r.error.OtherFailure? && r.error.typeName == "ValueError"
  {
    var overdue :- OverdueAsWritten(todos, clock);
    Ok(Stats(|todos|, CountCompleted(todos), overdue, Buckets(todos)))
  }

  /** Every non-empty due date parses. */
  predicate DueDatesParse(todos: seq<Todo>, clock: Clock) {
    forall i :: 0 <= i < |todos| && HasDueDate(todos[i]) ==> clock.parse(todos[i].dueDate.value).Some?
  }

  /** As written, the statistics agree with `StatsOf` exactly when every due date parses,
      and fail otherwise. */
  lemma {:induction false} StatsAsWrittenAgreesIffDatesParse(todos: seq<Todo>, clock: Clock)
    ensures StatsInternalAsWritten(todos, clock).Ok? <==> DueDatesParse(todos, clock)
    ensures DueDatesParse(todos, clock) ==> StatsInternalAsWritten(todos, clock) == Ok(StatsOf(todos, clock))
    decreases |todos|
  {
    if todos != [] {
      var init := todos[..|todos| - 1];
      assert forall i :: 0 <= i < |init| ==> init[i] == todos[i];
      StatsAsWrittenAgreesIffDatesParse(init, clock);
    }
  }

  /** One open, medium-priority todo whose due date does not parse: as written the statistics
      fail, while the corrected ones count it as not overdue. */
  lemma UndatableAloneBreaksStats(t: Todo, clock: Clock)
    requires HasDueDate(t) && clock.parse(t.dueDate.value).None?
    requires !t.completed && t.priority == Medium
    ensures StatsInternalAsWritten([t], clock).Err?
    ensures StatsOf([t], clock) == Stats(1, 0, 0, ByPriority(0, 1, 0))
  {
    assert [t][..0] == [] && [t][0] == t;
    assert !IsOverdue(t, clock);
    assert CountCompleted([t]) == 0;
    assert CountOverdue([t], clock) == 0;
    assert CountPriority([t], Low) == 0;
    assert CountPriority([t], Medium) == 1;
    assert CountPriority([t], High) == 0;
  }

  /** A todo due "next week" (which `fromisoformat` rejects) makes the store's statistics,
      and with them every metadata refresh and save, fail; the tool layer counts it as
      not overdue. */
  lemma UnparseableDueDateBreaksStats()
    ensures var clock := Clock(0, (s: string) => None);
      var t := Todo("a", "Read", "2024-01-01T00:00:00", "2024-01-01T00:00:00", dueDate := Some("next week"));
      StatsInternalAsWritten([t], clock).Err? &&
      SaveAsWritten(TodoList(TodoMetadata("2024-01-01T00:00:00"), [t]), "todos.json", "2024-01-02T00:00:00", clock).Err? &&
      StatsOf([t], clock) == Stats(1, 0, 0, ByPriority(0, 1, 0))
  {
    var clock := Clock(0, (s: string) => None);
    var t := Todo("a", "Read", "2024-01-01T00:00:00", "2024-01-01T00:00:00", dueDate := Some("next week"));
    UndatableAloneBreaksStats(t, clock);
    var empty := TodoList(TodoMetadata("2024-01-01T00:00:00"), []);
    UndatableTodoFailsSave(empty, t, "todos.json", "2024-01-02T00:00:00", clock);
    assert empty.(todos := empty.todos + [t]) == TodoList(TodoMetadata("2024-01-01T00:00:00"), [t]);
  }

  /** `_save_to_file` as written, on the list it saves: `_update_metadata` runs the as-written
      statistics inside the `try`, so their `ValueError` comes out as a "write" FileError and
      nothing is refreshed or written; otherwise the refreshed list is what gets written. */
  function SaveAsWritten(l: TodoList, filePath: string, now: string, clock: Clock): (r: Result<TodoList, Exception>)
    ensures r.Ok? <==> DueDatesParse(l.todos, clock)
    ensures r.Ok? ==> r.value == Refreshed(l, now) && MetadataConsistent(r.value)
    ensures r.Err? ==>
      && r.error.Raised? && r.error.err.kind == File && r.error.err.code == FileWriteError
      && StatsInternalAsWritten(l.todos, clock).Err?
      && r.error.err.message == "Failed to save todos to file: " + Str(StatsInternalAsWritten(l.todos, clock).error)
      && "operation" in r.error.err.details && r.error.err.details["operation"] == DStr("write")
      && "file_path" in r.error.err.details && r.error.err.details["file_path"] == DStr(filePath)
      && "original_error" in r.error.err.details
      && r.error.err.details["original_error"] == DError("ValueError", Str(StatsInternalAsWritten(l.todos, clock).error))
  {
    StatsAsWrittenAgreesIffDatesParse(l.todos, clock);
    match StatsInternalAsWritten(l.todos, clock)
    case Err(e) => Err(Raised(NewFileError("Failed to save todos to file: " + Str(e), "write", filePath, Some(e), None)))
    case Ok(_) => Ok(Refreshed(l, now))
  }

  /** As written, once a todo whose due date does not parse is in the list, every save fails,
      whatever else the list holds: `add_todo` reports a FileError for a todo it has already
      appended, and later updates and deletions fail in the same way. */
  lemma UndatableTodoFailsSave(l: TodoList, t: Todo, filePath: string, now: string, clock: Clock)
    requires HasDueDate(t) && clock.parse(t.dueDate.value).None?
    ensures SaveAsWritten(l.(todos := l.todos + [t]), filePath, now, clock).Err?
  {
    var todos := l.todos + [t];
    assert todos[|todos| - 1] == t;
  }

  // ---- migration of older file formats ----

  /** The keyword arguments `_migrate_data` passes to `Todo(...)` for one legacy record. */
  function LegacyFields(m: map<string, Json>, freshId: string, now: string): map<string, Json> {
    map[
      "id" := Get(m, "id", JStr(freshId)),
      "title" := Get(m, "title", JStr("Untitled")),
      "description" := Get(m, "description", JStr("")),
      "completed" := JBool(Truthy(Get(m, "completed", JBool(false)))),
      "created_at" := Get(m, "created_at", JStr(now)),
      "updated_at" := Get(m, "updated_at", JStr(now)),
      "due_date" := Get(m, "due_date", JNull),
      "priority" := Get(m, "priority", JStr("medium")),
      "tags" := Get(m, "tags", JArr([]))]
  }

  /** One element of a version 0.x array; anything but an object has no `.get`. */
  function CoerceLegacyItem(item: Json, freshId: string, now: string): Result<Todo, string> {
    if !item.JObj? then Err("'" + TypeName(item) + "' object has no attribute 'get'")
    else ValidateTodo(JObj(LegacyFields(item.fields, freshId, now)), now)
  }

  /** Text fields of a coerced legacy record: see `LegacyDefaults`. */
  lemma LegacyTextDefaults(m: map<string, Json>, freshId: string, now: string)
    requires CoerceLegacyItem(JObj(m), freshId, now).Ok?
    ensures var t := CoerceLegacyItem(JObj(m), freshId, now).value;
      && ("id" in m ==> JStr(t.id) == m["id"]) && ("id" !in m ==> t.id == freshId)
      && ("title" in m ==> JStr(t.title) == m["title"]) && ("title" !in m ==> t.title == "Untitled")
      && ("description" in m ==> JStr(t.description) == m["description"])
      && ("description" !in m ==> t.description == "")
      && ("created_at" in m ==> JStr(t.createdAt) == m["created_at"])
      && ("created_at" !in m ==> t.createdAt == now)
      && ("updated_at" in m ==> JStr(t.updatedAt) == m["updated_at"])
      && ("updated_at" !in m ==> t.updatedAt == now)
  {
    var f := LegacyFields(m, freshId, now);
    ValidatedFields(f, now);
    assert f["id"] == Get(m, "id", JStr(freshId));
    assert f["title"] == Get(m, "title", JStr("Untitled"));
    assert f["description"] == Get(m, "description", JStr(""));
    assert f["created_at"] == Get(m, "created_at", JStr(now));
    assert f["updated_at"] == Get(m, "updated_at", JStr(now));
  }

  /** Typed fields of a coerced legacy record: see `LegacyDefaults`. */
  lemma LegacyTypedDefaults(m: map<string, Json>, freshId: string, now: string)
    requires CoerceLegacyItem(JObj(m), freshId, now).Ok?
    ensures var t := CoerceLegacyItem(JObj(m), freshId, now).value;
      && t.completed == Truthy(Get(m, "completed", JBool(false)))
      && ("due_date" in m ==> OptStrToJson(t.dueDate) == m["due_date"])
      && ("due_date" !in m ==> t.dueDate == None)
      && ("priority" in m ==> JStr(PriorityName(t.priority)) == m["priority"])
      && ("priority" !in m ==> t.priority == Medium)
  {
    var f := LegacyFields(m, freshId, now);
    var t := CoerceLegacyItem(JObj(m), freshId, now).value;
    ValidatedFields(f, now);
    assert f["completed"] == JBool(Truthy(Get(m, "completed", JBool(false))));
    assert f["due_date"] == Get(m, "due_date", JNull);
    assert f["priority"] == Get(m, "priority", JStr("medium"));
    if "priority" in m {
      PriorityRoundTrip(t.priority, m["priority"].s);
    }
  }

  /** Tags of a coerced legacy record: see `LegacyDefaults`. */
  lemma LegacyTags(m: map<string, Json>, freshId: string, now: string)
    requires CoerceLegacyItem(JObj(m), freshId, now).Ok?
    ensures var t := CoerceLegacyItem(JObj(m), freshId, now).value;
      && ("tags" in m ==> TagsToJson(t.tags) == m["tags"])
      && ("tags" !in m ==> t.tags == [])
  {
    var f := LegacyFields(m, freshId, now);
    var t := CoerceLegacyItem(JObj(m), freshId, now).value;
    ValidatedFields(f, now);
    assert f["tags"] == Get(m, "tags", JArr([]));
    if "tags" in m {
      var items := m["tags"].items;
      assert |t.tags| == |items|;
      assert forall i :: 0 <= i < |items| ==> TagsToJson(t.tags).items[i] == items[i];
    }
  }

  /** What a legacy record is coerced to: a present key keeps its value, an absent one takes
      the default, and `completed` is the truthiness of what is stored. */
  lemma LegacyDefaults(m: map<string, Json>, freshId: string, now: string)
    requires CoerceLegacyItem(JObj(m), freshId, now).Ok?
    ensures var t := CoerceLegacyItem(JObj(m), freshId, now).value;
      && ("id" in m ==> JStr(t.id) == m["id"]) && ("id" !in m ==> t.id == freshId)
      && ("title" in m ==> JStr(t.title) == m["title"]) && ("title" !in m ==> t.title == "Untitled")
      && ("description" in m ==> JStr(t.description) == m["description"])
      && ("description" !in m ==> t.description == "")
      && t.completed == Truthy(Get(m, "completed", JBool(false)))
      && ("created_at" in m ==> JStr(t.createdAt) == m["created_at"])
      && ("created_at" !in m ==> t.createdAt == now)
      && ("updated_at" in m ==> JStr(t.updatedAt) == m["updated_at"])
      && ("updated_at" !in m ==> t.updatedAt == now)
      && ("due_date" in m ==> OptStrToJson(t.dueDate) == m["due_date"])
      && ("due_date" !in m ==> t.dueDate == None)
      && ("priority" in m ==> JStr(PriorityName(t.priority)) == m["priority"])
      && ("priority" !in m ==> t.priority == Medium)
      && ("tags" in m ==> TagsToJson(t.tags) == m["tags"])
      && ("tags" !in m ==> t.tags == [])
  {
    LegacyTextDefaults(m, freshId, now);
    LegacyTypedDefaults(m, freshId, now);
    LegacyTags(m, freshId, now);
  }

  /** A record with only a title coerces to a fresh, open, medium-priority todo. */
  lemma LegacyTitleOnly(title: string, freshId: string, now: string)
    ensures CoerceLegacyItem(JObj(map["title" := JStr(title)]), freshId, now) ==
      Ok(Todo(freshId, title, now, now))
  {
    var m := LegacyFields(map["title" := JStr(title)], freshId, now);
    assert StrField(m, "id", None) == Ok(freshId);
    assert StrField(m, "title", None) == Ok(title);
    assert StrField(m, "description", Some("")) == Ok("");
    assert BoolField(m, "completed", false) == Ok(false);
    assert OptStrField(m, "due_date") == Ok(None);
    assert ParsePriority("medium") == Some(Medium);
    assert PriorityField(m, "priority") == Ok(Medium);
    assert m["tags"] == JArr([]);
    assert TagsField(m, "tags").Ok? && |TagsField(m, "tags").value| == 0;
  }

  /** Applies `coerce` to every element with its index; the earliest failure wins. */
  function CoerceAll(items: seq<Json>, coerce: (Json, nat) -> Result<Todo, string>): (r: Result<seq<Todo>, string>)
    ensures r.Ok? <==> forall i :: 0 <= i < |items| ==> coerce(items[i], i).Ok?
    ensures r.Ok? ==> |r.value| == |items|
    ensures r.Ok? ==> forall i :: 0 <= i < |items| ==> coerce(items[i], i) == Ok(r.value[i])
  {
    if items == [] then Ok([])
    else
      var init := items[..|items| - 1];
      assert forall i :: 0 <= i < |init| ==> init[i] == items[i];
      var prefix :- CoerceAll(init, coerce);
      var last :- coerce(items[|items| - 1], |items| - 1);
      Ok(prefix + [last])
  }

  /** The coercion `_migrate_data` applies to element `i` of a version 0.x array. */
  function LegacyCoercion(freshIds: nat -> string, now: string): (Json, nat) -> Result<Todo, string> {
    (item: Json, i: nat) => CoerceLegacyItem(item, freshIds(i), now)
  }

  /** Coerces every element of a version 0.x array, element `i` taking fresh id `freshIds(i)`. */
  function CoerceLegacyItems(items: seq<Json>, freshIds: nat -> string, now: string): (r: Result<seq<Todo>, string>)
    ensures r.Ok? <==> forall i :: 0 <= i < |items| ==> CoerceLegacyItem(items[i], freshIds(i), now).Ok?
    ensures r.Ok? ==> |r.value| == |items|
    ensures r.Ok? ==> forall i :: 0 <= i < |items| ==> CoerceLegacyItem(items[i], freshIds(i), now) == Ok(r.value[i])
  {
    CoerceAll(items, LegacyCoercion(freshIds, now))
  }

  /** The loop of `_migrate_data` over a version 0.x array: the coerced elements in
      order, or None at the first element that cannot be coerced. */
  method MigrateItems(items: seq<Json>, coerce: (Json, nat) -> Result<Todo, string>) returns (r: Option<seq<Todo>>)
    ensures r.Some? <==> CoerceAll(items, coerce).Ok?
    ensures r.Some? ==> r.value == CoerceAll(items, coerce).value
  {
    var migrated: seq<Todo> := [];
    var i := 0;
    while i < |items|
      invariant 0 <= i <= |items|
      invariant |migrated| == i
      invariant forall j :: 0 <= j < i ==> coerce(items[j], j) == Ok(migrated[j])
    {
      match coerce(items[i], i)
      case Err(_) =>
        return None;
      case Ok(t) =>
        migrated := migrated + [t];
      i := i + 1;
    }
    assert CoerceAll(items, coerce).value == migrated;
    return Some(migrated);
  }

  /** `[Todo.model_validate(todo) for todo in value]`: iterating a dict yields its keys and
      a string its characters, neither of which is a todo; other scalars do not iterate. */
  function ValidateEach(v: Json, now: string): Result<seq<Todo>, string> {
    match v
    case JArr(items) => ValidateTodos(items, now)
    case JObj(m) => if m == map[] then Ok([]) else Err("Input should be a valid dictionary")
    case JStr(s) => if s == "" then Ok([]) else Err("Input should be a valid dictionary")
    case _ => Err("'" + TypeName(v) + "' object is not iterable")
  }

  /** Python's `len(value)`; None where it raises `TypeError`. */
  function PyLen(v: Json): Option<nat> {
    match v
    case JArr(items) => Some(|items|)
    case JObj(m) => Some(|m|)
    case JStr(s) => Some(|s|)
    case _ => None
  }

  /** The list a migration builds: fresh metadata whose counts come from the todos. */
  function MigratedList(todos: seq<Todo>, now: string): TodoList {
    TodoList(TodoMetadata(now, totalCount := |todos|, completedCount := CountCompleted(todos)), todos)
  }

  /** How loading a parsed document ends: it validates as it is (nothing is written),
      it is migrated (and the migrated list is saved), or it is rejected. */
  datatype LoadOutcome = Validated(list: TodoList) | Migrated(list: TodoList) | Rejected(error: Exception)

  /** A `{"todos": ...}` document without metadata, the second migration case. */
  predicate TodosOnly(raw: Json) {
    raw.JObj? && "todos" in raw.fields && "metadata" !in raw.fields
  }

  /** A rejection with the store's `ValidationError` carrying this message and these details. */
  predicate RejectedWith(o: LoadOutcome, message: string, details: map<string, Detail>) {
    && o.Rejected? && o.error.Raised?
    && o.error.err.kind == Validation && o.error.err.code == ValidationError
    && o.error.err.message == message && o.error.err.details == details
  }

  /** `_migrate_data`, by cases in the order of the code. */
  function MigrateSpec(raw: Json, now: string, freshIds: nat -> string): (o: LoadOutcome)
    ensures !o.Validated?
    ensures o.Migrated? ==> MetadataConsistent(o.list) && o.list.metadata.lastModified == now
    ensures raw.JArr? ==>
      var c := CoerceLegacyItems(raw.items, freshIds, now);
      && (o.Migrated? <==> c.Ok?)
      && (c.Ok? ==> o.list.todos == c.value)
      && (c.Err? ==> RejectedWith(o, "Failed to migrate array format data",
                                  map["original_data_length" := DInt(|raw.items|)]))
    ensures TodosOnly(raw) ==>
      var v := raw.fields["todos"];
      && (o.Migrated? <==> ValidateEach(v, now).Ok?)
      && (ValidateEach(v, now).Ok? ==> o.list.todos == ValidateEach(v, now).value)
      && (ValidateEach(v, now).Err? && PyLen(v).Some? ==>
            RejectedWith(o, "Failed to add metadata to existing todo data",
                         map["todo_count" := DInt(PyLen(v).value)]))
      && (ValidateEach(v, now).Err? && PyLen(v).None? ==>
            o == Rejected(OtherFailure("TypeError", "object of type '" + TypeName(v) + "' has no len()")))
    ensures !raw.JArr? && !TodosOnly(raw) ==>
      o.Rejected? && o.error.Raised? && o.error.err.code == ValidationError &&
      o.error.err.message == "Unable to migrate todo data - unsupported format" &&
      "data_type" in o.error.err.details && o.error.err.details["data_type"] == DStr(TypeName(raw))
  {
    if raw.JArr? then
      match CoerceLegacyItems(raw.items, freshIds, now)
      case Ok(todos) => Migrated(MigratedList(todos, now))
      case Err(_) => Rejected(Raised(NewValidationError("Failed to migrate array format data",
                                                        map["original_data_length" := DInt(|raw.items|)], None)))
    else if TodosOnly(raw) then
      var v := raw.fields["todos"];
      match ValidateEach(v, now)
      case Ok(todos) => Migrated(MigratedList(todos, now))
      case Err(_) =>
        match PyLen(v)
        case None => Rejected(OtherFailure("TypeError", "object of type '" + TypeName(v) + "' has no len()"))
        case Some(n) => Rejected(Raised(NewValidationError("Failed to add metadata to existing todo data",
                                                           map["todo_count" := DInt(n)], None)))
    else
      Rejected(Raised(NewValidationError("Unable to migrate todo data - unsupported format",
        map["data_type" := DStr(TypeName(raw)),
            "has_keys" := if raw.JObj? then DKeys(raw.fields.Keys) else DNull], None)))
  }

  /** `_validate_and_migrate`: the current schema first, migration only when it fails. */
  function LoadOutcomeOf(raw: Json, now: string, freshIds: nat -> string): (o: LoadOutcome)
    ensures o.Validated? <==> ValidateTodoList(raw, now).Ok?
    ensures o.Validated? ==> ValidateTodoList(raw, now) == Ok(o.list)
    ensures o.Migrated? ==> MetadataConsistent(o.list) && o.list.metadata.lastModified == now
  {
    match ValidateTodoList(raw, now)
    case Ok(l) => Validated(l)
    case Err(_) => MigrateSpec(raw, now, freshIds)
  }

  /** The record `{"id": "a", "title": "Old", "completed": true}` coerces to a completed
      todo with the remaining defaults. */
  lemma LegacyItemExample(freshId: string, now: string)
    ensures CoerceLegacyItem(JObj(map["id" := JStr("a"), "title" := JStr("Old"), "completed" := JBool(true)]), freshId, now) ==
      Ok(Todo("a", "Old", now, now, completed := true))
  {
    var m0 := map["id" := JStr("a"), "title" := JStr("Old"), "completed" := JBool(true)];
    assert "description" !in m0 && "created_at" !in m0 && "updated_at" !in m0;
    assert "due_date" !in m0 && "priority" !in m0 && "tags" !in m0;
    var m := LegacyFields(m0, freshId, now);
    assert StrField(m, "id", None) == Ok("a");
    assert StrField(m, "title", None) == Ok("Old");
    assert StrField(m, "description", Some("")) == Ok("");
    assert BoolField(m, "completed", false) == Ok(true);
    assert StrField(m, "created_at", Some(now)) == Ok(now);
    assert StrField(m, "updated_at", Some(now)) == Ok(now);
    assert OptStrField(m, "due_date") == Ok(None);
    assert ParsePriority("medium") == Some(Medium);
    assert PriorityField(m, "priority") == Ok(Medium);
    assert TagsField(m, "tags").Ok? && |TagsField(m, "tags").value| == 0;
  }

  /** A one-element legacy array `[{"id": "a", "title": "Old", "completed": true}]` migrates to
      one completed todo with the remaining defaults, counted in fresh metadata. */
  lemma LegacyArrayExample(now: string, freshIds: nat -> string)
    ensures var item := JObj(map["id" := JStr("a"), "title" := JStr("Old"), "completed" := JBool(true)]);
      LoadOutcomeOf(JArr([item]), now, freshIds) ==
        Migrated(TodoList(TodoMetadata(now, totalCount := 1, completedCount := 1),
                          [Todo("a", "Old", now, now, completed := true)]))
  {
    var item := JObj(map["id" := JStr("a"), "title" := JStr("Old"), "completed" := JBool(true)]);
    var t := Todo("a", "Old", now, now, completed := true);
    assert CoerceLegacyItems([item], freshIds, now) == Ok([t]) by {
      LegacyItemExample(freshIds(0), now);
      var todos := CoerceLegacyItems([item], freshIds, now);
      assert todos.Ok? && |todos.value| == 1 && todos.value[0] == t;
      assert todos.value == [t];
    }
    ArrayIsNeverValidated([item], now, freshIds);
    assert CountCompleted([t]) == 1 by { assert [t][..0] == []; }
  }

  /** A version 0.x array never passes the current schema; it is migrated or rejected. */
  lemma ArrayIsNeverValidated(items: seq<Json>, now: string, freshIds: nat -> string)
    ensures !LoadOutcomeOf(JArr(items), now, freshIds).Validated?
    ensures LoadOutcomeOf(JArr(items), now, freshIds).Migrated? <==>
      forall i :: 0 <= i < |items| ==> CoerceLegacyItem(items[i], freshIds(i), now).Ok?
    ensures CoerceLegacyItems(items, freshIds, now).Ok? ==>
      LoadOutcomeOf(JArr(items), now, freshIds) == Migrated(MigratedList(CoerceLegacyItems(items, freshIds, now).value, now))
    ensures CoerceLegacyItems(items, freshIds, now).Err? ==>
      RejectedWith(LoadOutcomeOf(JArr(items), now, freshIds), "Failed to migrate array format data",
                   map["original_data_length" := DInt(|items|)])
  {
  }

  /** A document with valid todos and no metadata already passes the schema, so the
      metadata-adding migration can only produce an empty list. */
  lemma MetadataMigrationOnlyEmpty(raw: Json, now: string, freshIds: nat -> string)
    requires TodosOnly(raw)
    ensures LoadOutcomeOf(raw, now, freshIds).Migrated? ==> LoadOutcomeOf(raw, now, freshIds).list.todos == []
  {
  }

  /** A `{"todos": ...}` document that neither validates nor migrates is rejected with
      "Failed to add metadata to existing todo data" and the length of its `todos`, or,
      when that value has no length, with the `TypeError` of `len`. */
  lemma TodosOnlyRejection(raw: Json, now: string, freshIds: nat -> string)
    requires TodosOnly(raw)
    ensures var o := LoadOutcomeOf(raw, now, freshIds);
      var v := raw.fields["todos"];
      && (o.Rejected? && PyLen(v).Some? ==>
            RejectedWith(o, "Failed to add metadata to existing todo data", map["todo_count" := DInt(PyLen(v).value)]))
      && (o.Rejected? && PyLen(v).None? ==>
            o.error == OtherFailure("TypeError", "object of type '" + TypeName(v) + "' has no len()"))
  {
  }

  /** A valid `{"todos": [...]}` document loads with default metadata and is not rewritten. */
  lemma TodosWithoutMetadataValidate(items: seq<Json>, now: string, freshIds: nat -> string)
    requires forall i :: 0 <= i < |items| ==> ValidateTodo(items[i], now).Ok?
    ensures var o := LoadOutcomeOf(JObj(map["todos" := JArr(items)]), now, freshIds);
      && o.Validated? && o.list.metadata == TodoMetadata(now) && |o.list.todos| == |items|
      && forall i :: 0 <= i < |items| ==> ValidateTodo(items[i], now) == Ok(o.list.todos[i])
  {
  }

  /** Any document that is neither a list nor an object is rejected as unsupported. */
  lemma ScalarIsRejected(raw: Json, now: string, freshIds: nat -> string)
    requires !raw.JArr? && !raw.JObj?
    ensures var o := LoadOutcomeOf(raw, now, freshIds);
      o.Rejected? && o.error.Raised? && o.error.err.code == ValidationError &&
      o.error.err.message == "Unable to migrate todo data - unsupported format"
  {
  }

  /** What a migration saves is read back, at any later time, as it is. */
  lemma MigrationIsStable(raw: Json, now: string, later: string, freshIds: nat -> string, moreIds: nat -> string)
    requires LoadOutcomeOf(raw, now, freshIds).Migrated?
    ensures var l := LoadOutcomeOf(raw, now, freshIds).list;
      LoadOutcomeOf(ListToJson(l), later, moreIds) == Validated(l)
  {
    ListRoundTrip(LoadOutcomeOf(raw, now, freshIds).list, later);
  }

  // ---- update merge ----

  /** `existing.model_dump()`, updated with `updates`, then `updated_at` set to now. */
  function MergedFields(existing: Todo, updates: map<string, Json>, now: string): map<string, Json> {
    (TodoToJson(existing).fields + updates)["updated_at" := JStr(now)]
  }

  /** `Todo.model_validate` of the merged record. */
  function MergedRecord(existing: Todo, updates: map<string, Json>, now: string): Result<Todo, string> {
    ValidateTodo(JObj(MergedFields(existing, updates, now)), now)
  }

  /** A key of the merged record: the timestamp is now, an updated key has its new
      value, any other key keeps the stored one. */
  lemma MergedLookup(base: map<string, Json>, updates: map<string, Json>, now: string, k: string)
    ensures var m := (base + updates)["updated_at" := JStr(now)];
      (k in m <==> k in base || k in updates || k == "updated_at") &&
      (k in m ==> m[k] == if k == "updated_at" then JStr(now) else if k in updates then updates[k] else base[k])
  {
  }

  /** Text fields and timestamps of a merge: see `MergeKeepsUntouchedFields`. */
  lemma MergeKeepsTextFields(existing: Todo, updates: map<string, Json>, now: string)
    requires MergedRecord(existing, updates, now).Ok?
    ensures var t := MergedRecord(existing, updates, now).value;
      && t.updatedAt == now
      && ("id" !in updates ==> t.id == existing.id)
      && ("title" !in updates ==> t.title == existing.title)
      && ("description" !in updates ==> t.description == existing.description)
      && ("created_at" !in updates ==> t.createdAt == existing.createdAt)
  {
    var base := TodoToJson(existing).fields;
    ValidatedFields(MergedFields(existing, updates, now), now);
    MergedLookup(base, updates, now, "id");
    MergedLookup(base, updates, now, "title");
    MergedLookup(base, updates, now, "description");
    MergedLookup(base, updates, now, "created_at");
    MergedLookup(base, updates, now, "updated_at");
  }

  /** Completion, due date and priority of a merge: see `MergeKeepsUntouchedFields`. */
  lemma MergeKeepsTypedFields(existing: Todo, updates: map<string, Json>, now: string)
    requires MergedRecord(existing, updates, now).Ok?
    ensures var t := MergedRecord(existing, updates, now).value;
      && ("completed" !in updates ==> t.completed == existing.completed)
      && ("due_date" !in updates ==> t.dueDate == existing.dueDate)
      && ("priority" !in updates ==> t.priority == existing.priority)
  {
    var base := TodoToJson(existing).fields;
    ValidatedFields(MergedFields(existing, updates, now), now);
    MergedLookup(base, updates, now, "completed");
    MergedLookup(base, updates, now, "due_date");
    MergedLookup(base, updates, now, "priority");
    if "priority" !in updates {
      PriorityRoundTrip(existing.priority, "");
    }
  }

  /** Tags of a merge: see `MergeKeepsUntouchedFields`. */
  lemma MergeKeepsTags(existing: Todo, updates: map<string, Json>, now: string)
    requires MergedRecord(existing, updates, now).Ok?
    ensures "tags" !in updates ==> MergedRecord(existing, updates, now).value.tags == existing.tags
  {
    var m := MergedFields(existing, updates, now);
    ValidatedFields(m, now);
    MergedLookup(TodoToJson(existing).fields, updates, now, "tags");
    if "tags" !in updates {
      var items := m["tags"].items;
      assert forall i :: 0 <= i < |items| ==> items[i] == JStr(existing.tags[i]);
      assert seq(|items|, i requires 0 <= i < |items| => items[i].s) == existing.tags;
    }
  }

  /** A merge changes only the updated keys and the timestamp; in particular the id and
      creation time survive unless an update names them. */
  lemma MergeKeepsUntouchedFields(existing: Todo, updates: map<string, Json>, now: string)
    requires MergedRecord(existing, updates, now).Ok?
    ensures var t := MergedRecord(existing, updates, now).value;
      && t.updatedAt == now
      && ("id" !in updates ==> t.id == existing.id)
      && ("title" !in updates ==> t.title == existing.title)
      && ("description" !in updates ==> t.description == existing.description)
      && ("completed" !in updates ==> t.completed == existing.completed)
      && ("created_at" !in updates ==> t.createdAt == existing.createdAt)
      && ("due_date" !in updates ==> t.dueDate == existing.dueDate)
      && ("priority" !in updates ==> t.priority == existing.priority)
      && ("tags" !in updates ==> t.tags == existing.tags)
  {
    MergeKeepsTextFields(existing, updates, now);
    MergeKeepsTypedFields(existing, updates, now);
    MergeKeepsTags(existing, updates, now);
  }

  /** An empty update only moves the timestamp. */
  lemma EmptyMergeTouchesOnlyTimestamp(existing: Todo, now: string)
    ensures MergedRecord(existing, map[], now) == Ok(existing.(updatedAt := now))
  {
    TodoRoundTrip(existing.(updatedAt := now), now);
    EmptyMergeFields(existing, now);
  }

  /** With no updates the merged record is the stored one with a new timestamp. */
  lemma EmptyMergeFields(existing: Todo, now: string)
    ensures MergedFields(existing, map[], now) == TodoToJson(existing.(updatedAt := now)).fields
  {
    var base := TodoToJson(existing).fields;
    assert base + map[] == base;
  }

  // ---- backup naming ----

  function LastIndexOf(s: string, c: char): (k: int)
    ensures -1 <= k < |s|
    ensures k >= 0 ==> s[k] == c
    ensures forall j :: k < j < |s| ==> s[j] != c
  {
    if s == [] then -1
    else if s[|s| - 1] == c then |s| - 1
    else LastIndexOf(s[..|s| - 1], c)
  }

  /** The parent directory of a path, with its trailing `/` ("" for a bare name). */
  function DirPart(p: string): string {
    p[..LastIndexOf(p, '/') + 1]
  }

  /** The last component of a path (`Path.name`). */
  function NamePart(p: string): (r: string)
    ensures '/' !in r
    ensures DirPart(p) + r == p
  {
    var k := LastIndexOf(p, '/');
    SplitAt(p, k + 1);
    p[k + 1..]
  }

  lemma SplitAt(p: string, n: nat)
    requires n <= |p|
    ensures p[..n] + p[n..] == p
  {
  }

  /** `Path.stem`: the name without its last suffix; a leading dot or a trailing dot is not a suffix. */
  function Stem(name: string): string {
    var i := LastIndexOf(name, '.');
    if 0 < i < |name| - 1 then name[..i] else name
  }

  /** The timestamp with every `:` and `.` replaced by `-`. */
  function BackupTimestamp(now: string): (r: string)
    ensures |r| == |now|
    ensures ':' !in r && '.' !in r
  {
    ReplaceChar(ReplaceChar(now, ':', '-'), '.', '-')
  }

  function BackupName(filePath: string, now: string): string {
    Stem(NamePart(filePath)) + "_backup_" + BackupTimestamp(now) + ".json"
  }

  /** `file_path.with_name(...)`, which raises `ValueError` on a path with no name
      or a new name holding a separator. */
  function BackupPath(filePath: string, now: string): (r: Result<string, Exception>)
    ensures r.Ok? <==> NamePart(filePath) != "" && '/' !in BackupName(filePath, now)
    ensures r.Err? ==> r.error.OtherFailure? && r.error.typeName == "ValueError"
  {
    var name := BackupName(filePath, now);
    if NamePart(filePath) == "" then
      Err(OtherFailure("ValueError", "PosixPath('" + filePath + "') has an empty name"))
    else if '/' in name then
      Err(OtherFailure("ValueError", "Invalid name '" + name + "'"))
    else
      Ok(DirPart(filePath) + name)
  }

  /** A backup name for a timestamp without `/` holds no `/` either. */
  lemma BackupNameHasNoSlash(filePath: string, now: string)
    requires NamePart(filePath) != "" && '/' !in now
    ensures '/' !in BackupName(filePath, now)
  {
    var stem := Stem(NamePart(filePath));
    assert '/' !in stem;
    assert '/' !in BackupTimestamp(now) by {
      forall i | 0 <= i < |now| ensures BackupTimestamp(now)[i] != '/' {
        assert ReplaceChar(now, ':', '-')[i] != '/';
      }
    }
    assert BackupName(filePath, now) == stem + "_backup_" + BackupTimestamp(now) + ".json";
  }

  /** The directory of `d + name` is `d` and its last component is `name`, when `d` is a
      directory part (empty or ending in `/`) and `name` holds no `/`. */
  lemma JoinedPathParts(d: string, name: string)
    requires |d| > 0 ==> d[|d| - 1] == '/'
    requires '/' !in name
    ensures DirPart(d + name) == d && NamePart(d + name) == name
  {
    var b := d + name;
    var k := LastIndexOf(b, '/');
    assert k == |d| - 1 by {
      assert forall j :: |d| <= j < |b| ==> b[j] == name[j - |d|];
      if |d| > 0 {
        assert b[|d| - 1] == '/';
      }
    }
    assert b[..|d|] == d;
    assert b[|d|..] == name;
  }

  /** The backup lands next to the store file, named `<stem>_backup_<timestamp>.json`;
      it is always computable for a named file and a timestamp without `/`. */
  lemma BackupBesideStore(filePath: string, now: string)
    ensures NamePart(filePath) != "" && '/' !in now ==> BackupPath(filePath, now).Ok?
    ensures BackupPath(filePath, now).Ok? ==>
      var b := BackupPath(filePath, now).value;
      DirPart(b) == DirPart(filePath) && NamePart(b) == BackupName(filePath, now) &&
      b != filePath
  {
    var name := BackupName(filePath, now);
    if NamePart(filePath) != "" && '/' !in now {
      BackupNameHasNoSlash(filePath, now);
    }
    if BackupPath(filePath, now).Ok? {
      var d := DirPart(filePath);
      assert |d| > 0 ==> d[|d| - 1] == '/';
      JoinedPathParts(d, name);
      assert NamePart(d + name) != NamePart(filePath) by {
        BackupNameDiffers(NamePart(filePath), now);
      }
    }
  }

  /** A backup name is never the name it was made from: the stem is no longer than the
      name, and ".json" is appended after "_backup_". */
  lemma BackupNameDiffers(name: string, now: string)
    requires name != ""
    ensures Stem(name) + "_backup_" + BackupTimestamp(now) + ".json" != name
  {
    var stem := Stem(name);
    var full := stem + "_backup_" + BackupTimestamp(now) + ".json";
    if |stem| < |name| {
      // the stem dropped a suffix that starts with '.', after which nothing was a dot
      var i := LastIndexOf(name, '.');
      assert |stem| == i;
      assert full[|stem|] == '_' && name[i] == '.';
    } else {
      assert |full| > |name|;
    }
  }

  /** What `open(path)` followed by `json.load` gives. */
  function ReadJson(disk: map<string, FileContent>, path: string): Result<Json, Exception> {
    if path !in disk then
      Err(FileNotFound(path, "[Errno 2] No such file or directory: '" + path + "'"))
    else match disk[path]
      case NotJson(msg) => Err(OtherFailure("JSONDecodeError", msg))
      case JsonText(j) => Ok(j)
  }

  function RestoreFailure(e: Exception): Exception {
    OtherFailure("RuntimeError", "Failed to restore from backup: " + Str(e))
  }

  class TodoStorage {
    const filePath: string
    /** The in-memory list. */
    var data: TodoList
    var isInitialized: bool
    /** The files on disk, by path. */
    var disk: map<string, FileContent>

    constructor (filePath: string, now: string, disk: map<string, FileContent>)
      ensures this.filePath == filePath && this.disk == disk
      ensures data == DefaultTodoList(now) && !isInitialized
    {
      this.filePath := filePath;
      this.data := DefaultTodoList(now);
      this.isInitialized := false;
      this.disk := disk;
    }

    /** The store file holds exactly the in-memory list, as after every save. */
    predicate Synced()
      reads this
    {
      filePath in disk && disk[filePath] == JsonText(ListToJson(data))
    }

    /** `initialize` as written: the retried load only builds a coroutine nobody awaits,
        so the file is never read and the flag is set. */
    method Initialize()
      modifies this
      ensures isInitialized
      ensures data == old(data) && disk == old(disk)
    {
      isInitialized := true;
    }

    function GetFilePath(): (p: string)
      ensures p == filePath
    {
      filePath
    }

    /** `_update_metadata`: stamps the time and stores the total and the completed count.
        The statistics pass is the corrected one (`StatsInternal`); `SaveAsWritten` gives the
        outcome of the code as written. */
    method UpdateMetadata(now: string)
      modifies this
      ensures data == Refreshed(old(data), now) && MetadataConsistent(data)
      ensures disk == old(disk) && isInitialized == old(isInitialized)
    {
      data := data.(metadata := data.metadata.(lastModified := now, totalCount := |data.todos|,
                                               completedCount := CountCompleted(data.todos)));
    }

    /** `_save_to_file`: refresh the metadata, then write the whole list. */
    method SaveToFile(now: string)
      modifies this
      ensures data == Refreshed(old(data), now) && MetadataConsistent(data)
      ensures disk == old(disk)[filePath := JsonText(ListToJson(data))]
      ensures isInitialized == old(isInitialized)
    {
      UpdateMetadata(now);
      disk := disk[filePath := JsonText(ListToJson(data))];
    }

    /** `_get_stats_internal`, with the overdue test of the tool layer: a due date that
        does not parse counts as not overdue instead of raising. */
    method StatsInternal(clock: Clock) returns (stats: Stats)
      ensures stats == StatsOf(data.todos, clock)
      ensures stats.byPriority.low + stats.byPriority.medium + stats.byPriority.high == stats.total
    {
      var todos := data.todos;
      var overdue, low, medium, high := 0, 0, 0, 0;
      for i := 0 to |todos|
        invariant overdue == CountOverdue(todos[..i], clock)
        invariant low == CountPriority(todos[..i], Low)
        invariant medium == CountPriority(todos[..i], Medium)
        invariant high == CountPriority(todos[..i], High)
      {
        assert todos[..i + 1][..i] == todos[..i];
        var t := todos[i];
        if HasDueDate(t) && !t.completed {
          match clock.parse(t.dueDate.value)
          case Some(m) => if m.day < clock.today { overdue := overdue + 1; }
          case None =>
        }
        match t.priority
        case Low => low := low + 1;
        case Medium => medium := medium + 1;
        case High => high := high + 1;
      }
      assert todos[..|todos|] == todos;
      stats := Stats(|todos|, CountCompleted(todos), overdue, ByPriority(low, medium, high));
      BucketsSumToTotal(todos);
    }

    method GetAllTodos() returns (r: Result<seq<Todo>, Exception>)
      ensures r == if isInitialized then Ok(data.todos) else Err(NotInitialized)
    {
      if !isInitialized { return Err(NotInitialized); }
      return Ok(data.todos);
    }

    /** The first todo with this id, if any. */
    method GetTodoById(id: string) returns (r: Result<Option<Todo>, Exception>)
      ensures !isInitialized ==> r == Err(NotInitialized)
      ensures isInitialized && !HasId(data.todos, id) ==> r == Ok(None)
      ensures isInitialized && HasId(data.todos, id) ==>
        r == Ok(Some(data.todos[FirstIndexOf(data.todos, id)]))
    {
      if !isInitialized { return Err(NotInitialized); }
      var i := 0;
      while i < |data.todos|
        invariant 0 <= i <= |data.todos|
        invariant forall j :: 0 <= j < i ==> data.todos[j].id != id
      {
        if data.todos[i].id == id {
          return Ok(Some(data.todos[i]));
        }
        i := i + 1;
      }
      return Ok(None);
    }

    /** Appends a todo whose id is new and saves; a duplicate id is refused. */
    method AddTodo(todo: Todo, now: string) returns (r: Result<Todo, Exception>)
      modifies this
      ensures isInitialized == old(isInitialized)
      ensures !old(isInitialized) ==> r == Err(NotInitialized) && unchanged(this)
      ensures old(isInitialized) && HasId(old(data.todos), todo.id) ==>
        r == Err(Raised(NewValidationError("Todo with ID " + todo.id + " already exists",
                                           map["todo_id" := DStr(todo.id)], None))) &&
        unchanged(this)
      ensures old(isInitialized) && !HasId(old(data.todos), todo.id) ==>
        r == Ok(todo) && data.todos == old(data.todos) + [todo] &&
        data == Refreshed(old(data).(todos := old(data.todos) + [todo]), now) &&
        disk == old(disk)[filePath := JsonText(ListToJson(data))]
      ensures UniqueIds(old(data.todos)) ==> UniqueIds(data.todos)
    {
      if !isInitialized { return Err(NotInitialized); }
      // `Todo.model_validate(todo.model_dump())` always succeeds on a record
      TodoRoundTrip(todo, now);
      assert ValidateTodo(TodoToJson(todo), now).Ok?;
      var exists_ := false;
      for i := 0 to |data.todos|
        invariant exists_ <==> exists j :: 0 <= j < i && data.todos[j].id == todo.id
      {
        if data.todos[i].id == todo.id { exists_ := true; }
      }
      if exists_ {
        return Err(Raised(NewValidationError("Todo with ID " + todo.id + " already exists",
                                             map["todo_id" := DStr(todo.id)], None)));
      }
      if UniqueIds(data.todos) {
        AppendKeepsIdsUnique(data.todos, todo);
      }
      data := data.(todos := data.todos + [todo]);
      SaveToFile(now);
      return Ok(todo);
    }

    /** Merges `updates` over the first todo with this id, stamps it, validates it,
        replaces it in place and saves. */
    method UpdateTodo(id: string, updates: map<string, Json>, now: string) returns (r: Result<Todo, Exception>)
      modifies this
      ensures isInitialized == old(isInitialized)
      ensures !old(isInitialized) ==> r == Err(NotInitialized) && unchanged(this)
      ensures old(isInitialized) && !HasId(old(data.todos), id) ==>
        r == Err(Raised(NewNotFoundError("todo", id, None))) && unchanged(this)
      ensures old(isInitialized) && HasId(old(data.todos), id) ==>
        var k := FirstIndexOf(old(data.todos), id);
        match MergedRecord(old(data.todos)[k], updates, now)
        case Err(e) =>
          r == Err(Raised(NewValidationError("Updated todo data is invalid",
            map["todo_id" := DStr(id), "updates" := DKeys(updates.Keys), "validation_error" := DStr(e)], None))) &&
          unchanged(this)
        case Ok(t) =>
          r == Ok(t) && data.todos == old(data.todos)[k := t] &&
          data == Refreshed(old(data).(todos := old(data.todos)[k := t]), now) &&
          disk == old(disk)[filePath := JsonText(ListToJson(data))]
      ensures UniqueIds(old(data.todos)) && "id" !in updates ==> UniqueIds(data.todos)
    {
      if !isInitialized { return Err(NotInitialized); }
      var index := -1;
      var i := 0;
      while i < |data.todos|
        invariant 0 <= i <= |data.todos|
        invariant index == -1
        invariant forall j :: 0 <= j < i ==> data.todos[j].id != id
      {
        if data.todos[i].id == id {
          index := i;
          break;
        }
        i := i + 1;
      }
      if index == -1 {
        return Err(Raised(NewNotFoundError("todo", id, None)));
      }
      assert index == FirstIndexOf(data.todos, id);
      var existing := data.todos[index];
      match MergedRecord(existing, updates, now)
      case Err(e) =>
        return Err(Raised(NewValidationError("Updated todo data is invalid",
          map["todo_id" := DStr(id), "updates" := DKeys(updates.Keys), "validation_error" := DStr(e)], None)));
      case Ok(updated) =>
        if "id" !in updates && UniqueIds(data.todos) {
          MergeKeepsUntouchedFields(existing, updates, now);
          ReplaceKeepsIdsUnique(data.todos, index, updated);
        }
        data := data.(todos := data.todos[index := updated]);
        SaveToFile(now);
        return Ok(updated);
    }

    /** Deletes the first todo with this id and saves; false when there is none. */
    method DeleteTodo(id: string, now: string) returns (r: Result<bool, Exception>)
      modifies this
      ensures isInitialized == old(isInitialized)
      ensures !old(isInitialized) ==> r == Err(NotInitialized) && unchanged(this)
      ensures old(isInitialized) && !HasId(old(data.todos), id) ==> r == Ok(false) && unchanged(this)
      ensures old(isInitialized) && HasId(old(data.todos), id) ==>
        var k := FirstIndexOf(old(data.todos), id);
        var rest := old(data.todos)[..k] + old(data.todos)[k + 1..];
        r == Ok(true) && data.todos == rest &&
        data == Refreshed(old(data).(todos := rest), now) &&
        disk == old(disk)[filePath := JsonText(ListToJson(data))]
      ensures old(isInitialized) && UniqueIds(old(data.todos)) ==> UniqueIds(data.todos) && !HasId(data.todos, id)
    {
      if !isInitialized { return Err(NotInitialized); }
      var i := 0;
      while i < |data.todos|
        invariant 0 <= i <= |data.todos|
        invariant forall j :: 0 <= j < i ==> data.todos[j].id != id
        invariant data == old(data) && disk == old(disk)
      {
        if data.todos[i].id == id {
          assert i == FirstIndexOf(data.todos, id);
          if UniqueIds(data.todos) {
            RemoveFirstOfUnique(data.todos, id);
          }
          data := data.(todos := data.todos[..i] + data.todos[i + 1..]);
          SaveToFile(now);
          return Ok(true);
        }
        i := i + 1;
      }
      return Ok(false);
    }

    /** Refreshes the metadata and hands back a copy of the whole list. */
    method GetTodoList(now: string) returns (r: Result<TodoList, Exception>)
      modifies this
      ensures isInitialized == old(isInitialized) && disk == old(disk)
      ensures !old(isInitialized) ==> r == Err(NotInitialized) && data == old(data)
      ensures old(isInitialized) ==>
        data == Refreshed(old(data), now) && r == Ok(data) && MetadataConsistent(r.value)
    {
      if !isInitialized { return Err(NotInitialized); }
      UpdateMetadata(now);
      return Ok(data);
    }

    method ClearAllTodos(now: string) returns (r: Outcome<Exception>)
      modifies this
      ensures isInitialized == old(isInitialized)
      ensures !old(isInitialized) ==> r == Fail(NotInitialized) && unchanged(this)
      ensures old(isInitialized) ==>
        r == Pass && data.todos == [] &&
        data == Refreshed(old(data).(todos := []), now) &&
        disk == old(disk)[filePath := JsonText(ListToJson(data))]
    {
      if !isInitialized { return Fail(NotInitialized); }
      data := data.(todos := []);
      SaveToFile(now);
      return Pass;
    }

    method GetStats(clock: Clock) returns (r: Result<Stats, Exception>)
      ensures !isInitialized ==> r == Err(NotInitialized)
      ensures isInitialized ==> r == Ok(StatsOf(data.todos, clock))
    {
      if !isInitialized { return Err(NotInitialized); }
      var stats := StatsInternal(clock);
      return Ok(stats);
    }

    /** Copies the store file next to itself under a timestamped name. */
    method CreateBackup(now: string) returns (r: Result<string, Exception>)
      modifies this
      ensures data == old(data) && isInitialized == old(isInitialized)
      ensures !old(isInitialized) ==> r == Err(NotInitialized) && disk == old(disk)
      ensures old(isInitialized) && BackupPath(filePath, now).Err? ==>
        r == Err(BackupPath(filePath, now).error) && disk == old(disk)
      ensures old(isInitialized) && BackupPath(filePath, now).Ok? && filePath !in old(disk) ==>
        r == Err(OtherFailure("RuntimeError", "Failed to create backup: [Errno 2] No such file or directory: '"
                                              + filePath + "'")) &&
        disk == old(disk)
      ensures old(isInitialized) && BackupPath(filePath, now).Ok? && filePath in old(disk) ==>
        r == Ok(BackupPath(filePath, now).value) &&
        disk == old(disk)[r.value := old(disk)[filePath]]
    {
      if !isInitialized { return Err(NotInitialized); }
      var backupPath :- BackupPath(filePath, now);
      if filePath !in disk {
        return Err(OtherFailure("RuntimeError", "Failed to create backup: [Errno 2] No such file or directory: '"
                                                + filePath + "'"));
      }
      disk := disk[backupPath := disk[filePath]];
      return Ok(backupPath);
    }

    /** `_migrate_data`: an array is coerced element by element, a dict without metadata is
        given metadata; a successful migration is saved; anything else is refused. */
    method MigrateData(raw: Json, now: string, freshIds: nat -> string) returns (r: Result<TodoList, Exception>)
      modifies this
      ensures isInitialized == old(isInitialized)
      ensures match MigrateSpec(raw, now, freshIds)
        case Migrated(l) => r == Ok(l) && data == l && disk == old(disk)[filePath := JsonText(ListToJson(l))]
        case Rejected(e) => r == Err(e) && unchanged(this)
        case Validated(_) => false
    {
      if raw.JArr? {
        var migrated := MigrateItems(raw.items, LegacyCoercion(freshIds, now));
        match migrated
        case None =>
          return Err(Raised(NewValidationError("Failed to migrate array format data",
                                               map["original_data_length" := DInt(|raw.items|)], None)));
        case Some(todos) =>
          RefreshedProperties(MigratedList(todos, now), now);
          data := MigratedList(todos, now);
          SaveToFile(now);
          return Ok(data);
      }
      if raw.JObj? && "todos" in raw.fields && "metadata" !in raw.fields {
        var v := raw.fields["todos"];
        match ValidateEach(v, now)
        case Ok(todos) =>
          RefreshedProperties(MigratedList(todos, now), now);
          data := MigratedList(todos, now);
          SaveToFile(now);
          return Ok(data);
        case Err(_) =>
          match PyLen(v)
          case None =>
            return Err(OtherFailure("TypeError", "object of type '" + TypeName(v) + "' has no len()"));
          case Some(n) =>
            return Err(Raised(NewValidationError("Failed to add metadata to existing todo data",
                                                 map["todo_count" := DInt(n)], None)));
      }
      return Err(Raised(NewValidationError("Unable to migrate todo data - unsupported format",
        map["data_type" := DStr(TypeName(raw)),
            "has_keys" := if raw.JObj? then DKeys(raw.fields.Keys) else DNull], None)));
    }

    /** `_validate_and_migrate`. */
    method ValidateAndMigrate(raw: Json, now: string, freshIds: nat -> string) returns (r: Result<TodoList, Exception>)
      modifies this
      ensures isInitialized == old(isInitialized)
      ensures match LoadOutcomeOf(raw, now, freshIds)
        case Validated(l) => r == Ok(l) && unchanged(this)
        case Migrated(l) => r == Ok(l) && data == l && disk == old(disk)[filePath := JsonText(ListToJson(l))]
        case Rejected(e) => r == Err(e) && unchanged(this)
    {
      match ValidateTodoList(raw, now)
      case Ok(l) =>
        return Ok(l);
      case Err(_) =>
        r := MigrateData(raw, now, freshIds);
    }

    /** Loads a backup file into the store and saves it as the store file; every failure
        becomes a `RuntimeError`. The initialisation flag is neither checked nor set. */
    method RestoreFromBackup(path: string, now: string, freshIds: nat -> string) returns (r: Outcome<Exception>)
      modifies this
      ensures isInitialized == old(isInitialized)
      ensures match ReadJson(old(disk), path)
        case Err(e) => r == Fail(RestoreFailure(e)) && unchanged(this)
        case Ok(raw) =>
          match LoadOutcomeOf(raw, now, freshIds)
          case Rejected(e) => r == Fail(RestoreFailure(e)) && unchanged(this)
          case Validated(l) =>
            r == Pass && data == Refreshed(l, now) && disk == old(disk)[filePath := JsonText(ListToJson(data))]
          case Migrated(l) =>
            r == Pass && data == Refreshed(l, now) && disk == old(disk)[filePath := JsonText(ListToJson(data))]
    {
      var read := ReadJson(disk, path);
      if read.Err? {
        return Fail(RestoreFailure(read.error));
      }
      var validated := ValidateAndMigrate(read.value, now, freshIds);
      if validated.Err? {
        return Fail(RestoreFailure(validated.error));
      }
      data := validated.value;
      SaveToFile(now);
      return Pass;
    }
  }

  /** A backup taken while the store file matches memory brings the list back after the
      list is cleared: `create_backup`, `clear_all_todos`, then `restore_from_backup`. */
  method BackupClearRestore(s: TodoStorage, now: string, later: string, freshIds: nat -> string)
    returns (backup: Result<string, Exception>, restored: Outcome<Exception>)
    requires s.isInitialized && s.Synced()
    requires NamePart(s.filePath) != "" && '/' !in now
    modifies s
    ensures backup.Ok? && restored == Pass
    ensures s.data.todos == old(s.data.todos) && s.Synced()
  {
    ghost var before := s.data;
    BackupBesideStore(s.filePath, now);
    backup := s.CreateBackup(now);
    var cleared := s.ClearAllTodos(later);
    assert s.disk[backup.value] == JsonText(ListToJson(before));
    ListRoundTrip(before, later);
    restored := s.RestoreFromBackup(backup.value, later, freshIds);
  }
}
