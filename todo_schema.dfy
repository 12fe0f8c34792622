/** What pydantic does with the record types: `model_dump` (a record to
    JSON) and `model_validate` (JSON to a record, or a validation error naming
    the first offending field). Fields are validated strictly: a string field
    takes a JSON string, a bool field a JSON boolean, an int field a JSON
    integer; keys the record does not declare are ignored. */
module TodoSchema {
  import opened Wrappers
  import opened JsonData
  import opened TodoTypes

  // ---- model_dump ----

  function TagsToJson(tags: seq<string>): Json {
    JArr(seq(|tags|, i requires 0 <= i < |tags| => JStr(tags[i])))
  }

  function OptStrToJson(o: Option<string>): Json {
    match o
    case None => JNull
    case Some(s) => JStr(s)
  }

  function TodoToJson(t: Todo): Json {
    JObj(map[
      "id" := JStr(t.id),
      "title" := JStr(t.title),
      "description" := JStr(t.description),
      "completed" := JBool(t.completed),
      "created_at" := JStr(t.createdAt),
      "updated_at" := JStr(t.updatedAt),
      "due_date" := OptStrToJson(t.dueDate),
      "priority" := JStr(PriorityName(t.priority)),
      "tags" := TagsToJson(t.tags)])
  }

  function MetadataToJson(md: TodoMetadata): Json {
    JObj(map[
      "version" := JStr(md.version),
      "last_modified" := JStr(md.lastModified),
      "total_count" := JInt(md.totalCount),
      "completed_count" := JInt(md.completedCount)])
  }

  function TodosToJson(todos: seq<Todo>): Json {
    JArr(seq(|todos|, i requires 0 <= i < |todos| => TodoToJson(todos[i])))
  }

  /** The document `_write_file_sync` writes: `{"todos": [...], "metadata": {...}}`. */
  function ListToJson(l: TodoList): Json {
    JObj(map["todos" := TodosToJson(l.todos), "metadata" := MetadataToJson(l.metadata)])
  }

  // ---- model_validate, one field at a time ----

  function StrField(m: map<string, Json>, key: string, default: Option<string>): Result<string, string> {
    if key !in m then
      (if default.Some? then Ok(default.value) else Err(key + ": Field required"))
    else if m[key].JStr? then Ok(m[key].s)
    else Err(key + ": Input should be a valid string")
  }

  function BoolField(m: map<string, Json>, key: string, default: bool): Result<bool, string> {
    if key !in m then Ok(default)
    else if m[key].JBool? then Ok(m[key].b)
    else Err(key + ": Input should be a valid boolean")
  }

  function IntField(m: map<string, Json>, key: string, default: int): Result<int, string> {
    if key !in m then Ok(default)
    else if m[key].JInt? then Ok(m[key].i)
    else Err(key + ": Input should be a valid integer")
  }

  /** `Optional[str] = None`: absent and null both give None. */
  function OptStrField(m: map<string, Json>, key: string): Result<Option<string>, string> {
    if key !in m || m[key].JNull? then Ok(None)
    else if m[key].JStr? then Ok(Some(m[key].s))
    else Err(key + ": Input should be a valid string")
  }

  function PriorityField(m: map<string, Json>, key: string): Result<Priority, string> {
    if key !in m then Ok(Medium)
    else if m[key].JStr? && ParsePriority(m[key].s).Some? then Ok(ParsePriority(m[key].s).value)
    else Err(key + ": Input should be 'low', 'medium' or 'high'")
  }

  function TagsField(m: map<string, Json>, key: string): Result<seq<string>, string> {
    if key !in m then Ok([])
    else if m[key].JArr? && forall i :: 0 <= i < |m[key].items| ==> m[key].items[i].JStr? then
      var items := m[key].items;
      Ok(seq(|items|, i requires 0 <= i < |items| => items[i].s))
    else Err(key + ": Input should be a valid list of strings")
  }

  /** `Todo.model_validate(j)`; `now` stands for the timestamp default factories. */
  function ValidateTodo(j: Json, now: string): Result<Todo, string> {
    if !j.JObj? then Err("Input should be a valid dictionary")
    else
      var m := j.fields;
      var id :- StrField(m, "id", None);
      var title :- StrField(m, "title", None);
      var description :- StrField(m, "description", Some(""));
      var completed :- BoolField(m, "completed", false);
      var createdAt :- StrField(m, "created_at", Some(now));
      var updatedAt :- StrField(m, "updated_at", Some(now));
      var dueDate :- OptStrField(m, "due_date");
      var priority :- PriorityField(m, "priority");
      var tags :- TagsField(m, "tags");
      Ok(Todo(id, title, createdAt, updatedAt, description, completed, dueDate, priority, tags))
  }

  /** `TodoMetadata.model_validate(j)`. */
  function ValidateMetadata(j: Json, now: string): Result<TodoMetadata, string> {
    if !j.JObj? then Err("metadata: Input should be a valid dictionary")
    else
      var m := j.fields;
      var version :- StrField(m, "version", Some("1.0.0"));
      var lastModified :- StrField(m, "last_modified", Some(now));
      var total :- IntField(m, "total_count", 0);
      var completed :- IntField(m, "completed_count", 0);
      Ok(TodoMetadata(lastModified, version, total, completed))
  }

  /** Validates a list of todos, reporting the earliest invalid element. */
  function ValidateTodos(items: seq<Json>, now: string): (r: Result<seq<Todo>, string>)
    ensures r.Ok? <==> forall i :: 0 <= i < |items| ==> ValidateTodo(items[i], now).Ok?
    ensures r.Ok? ==> |r.value| == |items|
    ensures r.Ok? ==> forall i :: 0 <= i < |items| ==> ValidateTodo(items[i], now) == Ok(r.value[i])
  {
    if items == [] then Ok([])
    else
      var init := items[..|items| - 1];
      assert forall i :: 0 <= i < |init| ==> init[i] == items[i];
      var prefix :- ValidateTodos(init, now);
      var last :- ValidateTodo(items[|items| - 1], now);
      Ok(prefix + [last])
  }

  /** `TodoList.model_validate(j)`: both keys have defaults, so `{}` is a valid empty list. */
  function ValidateTodoList(j: Json, now: string): Result<TodoList, string> {
    if !j.JObj? then Err("Input should be a valid dictionary")
    else
      var m := j.fields;
      var todos :-
        if "todos" !in m then Ok([])
        else if m["todos"].JArr? then ValidateTodos(m["todos"].items, now)
        else Err("todos: Input should be a valid list");
      var metadata :-
        if "metadata" !in m then Ok(TodoMetadata(now))
        else ValidateMetadata(m["metadata"], now);
      Ok(TodoList(metadata, todos))
  }

  // ---- the schema as a declarative predicate ----

  predicate StrOrAbsent(m: map<string, Json>, key: string) {
    key !in m || m[key].JStr?
  }

  /** A JSON value is a valid Todo: an object with string `id` and `title`, and every
      other declared key, when present, of its declared type (priority one of the three names). */
  predicate IsTodoShape(j: Json) {
    && j.JObj?
    && "id" in j.fields && j.fields["id"].JStr?
    && "title" in j.fields && j.fields["title"].JStr?
    && StrOrAbsent(j.fields, "description")
    && ("completed" !in j.fields || j.fields["completed"].JBool?)
    && StrOrAbsent(j.fields, "created_at")
    && StrOrAbsent(j.fields, "updated_at")
    && ("due_date" !in j.fields || j.fields["due_date"].JNull? || j.fields["due_date"].JStr?)
    && ("priority" !in j.fields ||
        (j.fields["priority"].JStr? && j.fields["priority"].s in {"low", "medium", "high"}))
    && ("tags" !in j.fields ||
        (j.fields["tags"].JArr? &&
         forall i :: 0 <= i < |j.fields["tags"].items| ==> j.fields["tags"].items[i].JStr?))
  }

  lemma ValidateTodoAcceptsExactlyShape(j: Json, now: string)
    ensures ValidateTodo(j, now).Ok? <==> IsTodoShape(j)
    ensures ValidateTodo(j, now).Ok? ==>
      ValidateTodo(j, now).value.id == j.fields["id"].s &&
      ValidateTodo(j, now).value.title == j.fields["title"].s
  {
    if j.JObj? && "priority" in j.fields && j.fields["priority"].JStr? {
      var s := j.fields["priority"].s;
      assert ParsePriority(s).Some? <==> s in {"low", "medium", "high"};
    }
  }

  /** A validated todo carries, field by field, what the field validators read. */
  lemma ValidatedFields(m: map<string, Json>, now: string)
    requires ValidateTodo(JObj(m), now).Ok?
    ensures var t := ValidateTodo(JObj(m), now).value;
      && StrField(m, "id", None) == Ok(t.id)
      && StrField(m, "title", None) == Ok(t.title)
      && StrField(m, "description", Some("")) == Ok(t.description)
      && BoolField(m, "completed", false) == Ok(t.completed)
      && StrField(m, "created_at", Some(now)) == Ok(t.createdAt)
      && StrField(m, "updated_at", Some(now)) == Ok(t.updatedAt)
      && OptStrField(m, "due_date") == Ok(t.dueDate)
      && PriorityField(m, "priority") == Ok(t.priority)
      && TagsField(m, "tags") == Ok(t.tags)
  {
  }

  // ---- round trips: what is written is read back unchanged ----

  lemma TodoRoundTrip(t: Todo, now: string)
    ensures ValidateTodo(TodoToJson(t), now) == Ok(t)
  {
    var m := TodoToJson(t).fields;
    PriorityRoundTrip(t.priority, "");
    var items := m["tags"].items;
    assert forall i :: 0 <= i < |items| ==> items[i] == JStr(t.tags[i]);
    assert seq(|items|, i requires 0 <= i < |items| => items[i].s) == t.tags;
  }

  lemma MetadataRoundTrip(md: TodoMetadata, now: string)
    ensures ValidateMetadata(MetadataToJson(md), now) == Ok(md)
  {
  }

  lemma TodosRoundTrip(todos: seq<Todo>, now: string)
    ensures ValidateTodos(TodosToJson(todos).items, now) == Ok(todos)
  {
    var items := TodosToJson(todos).items;
    forall i | 0 <= i < |items| ensures ValidateTodo(items[i], now) == Ok(todos[i]) {
      TodoRoundTrip(todos[i], now);
    }
    var r := ValidateTodos(items, now);
    assert r.Ok?;
    assert r.value == todos by {
      forall i | 0 <= i < |todos| ensures r.value[i] == todos[i] {
        assert ValidateTodo(items[i], now) == Ok(r.value[i]);
      }
    }
  }

  /** Writing a list and validating the file gives the same list back, order included. */
  lemma ListRoundTrip(l: TodoList, now: string)
    ensures ValidateTodoList(ListToJson(l), now) == Ok(l)
  {
    TodosRoundTrip(l.todos, now);
    MetadataRoundTrip(l.metadata, now);
  }
}
