/** The tool handlers of the todo server: each draws a request id, checks its input,
    drives the store, and answers with the sorted list and its statistics, or with an
    error response; no handler lets an error escape. */
module TodoServer {
  import opened Wrappers
  import opened Text
  import opened JsonData
  import opened TodoTypes
  import opened TodoSchema
  import opened Errors
  import opened TodoLogic
  import opened TodoStore

  /** What the successful call did, beside the list it returns. */
  datatype Action =
    | Listed(filter: TodoFilter)
    | Created(createdTodo: Todo)
    | Updated(updatedTodo: Todo)
    | Completed(completedTodo: Todo, completed: bool)
    | Deleted(deletedTodo: Todo)

  /** The reply to a tool call (widget and transport metadata left out). */
  datatype ToolResponse =
    | ToolSuccess(text: string, todos: seq<Todo>, stats: Stats, action: Action)
    | ToolError(text: string, error: ErrorResponse, toolName: string, requestId: string)

  /** `create_tool_error_response`. */
  function ToolErrorResponse(e: Exception, toolName: string, requestId: string): (r: ToolResponse)
    ensures r.ToolError? && r.toolName == toolName && r.requestId == requestId
    ensures r.error == HandleError(e, Some(requestId))
  {
    var response := HandleError(e, Some(requestId));
    ToolError("Error in " + toolName + ": " + response.message, response, toolName, requestId)
  }

  /** The reply text names the tool and then carries the error's own message. */
  lemma ToolErrorText(e: Exception, toolName: string, requestId: string)
    ensures var r := ToolErrorResponse(e, toolName, requestId);
      var prefix := "Error in " + toolName + ": ";
      |r.text| >= |prefix| && r.text[..|prefix|] == prefix && r.text[|prefix|..] == r.error.message
  {
  }

  function Quoted(s: string): string { "\"" + s + "\"" }

  function TitleEmpty(requestId: string): Exception {
    Raised(NewValidationError("Title cannot be empty", map["field" := DStr("title")], Some(requestId)))
  }

  function IdRequired(requestId: string): Exception {
    Raised(NewValidationError("Todo ID is required and must be a string", map["field" := DStr("id")], Some(requestId)))
  }

  function TodoMissing(id: string, requestId: string): Exception {
    Raised(NewNotFoundError("todo", id, Some(requestId)))
  }

  /** The todo `create_todo` builds: `description or ""`, `priority or "medium"`, `tags or []`. */
  function NewTodo(freshId: string, title: string, description: Option<string>, dueDate: Option<string>,
                   priority: Option<Priority>, tags: Option<seq<string>>, now: string): Todo {
    Todo(freshId, title, now, now,
         description := if description.Some? then description.value else "",
         completed := false,
         dueDate := dueDate,
         priority := if priority.Some? then priority.value else Medium,
         tags := if tags.Some? then tags.value else [])
  }

  /** Left unset, the optional inputs give the record's own defaults, and a new todo is
      open with equal creation and update times. */
  lemma NewTodoDefaults(freshId: string, title: string, dueDate: Option<string>, now: string)
    ensures NewTodo(freshId, title, None, dueDate, None, None, now) == Todo(freshId, title, now, now, dueDate := dueDate)
    ensures var t := NewTodo(freshId, title, None, dueDate, None, None, now);
      t.description == "" && t.priority == Medium && t.tags == [] && !t.completed && t.createdAt == t.updatedAt
  {
  }

  /** The fields of `UpdateTodoInput` besides the id. */
  const UpdateFields: set<string> := {"title", "description", "due_date", "priority", "completed", "tags"}

  /** The dumped value of field `k` of the input, None when it is not given. */
  function ForwardedValue(u: UpdateTodoInput, k: string): Option<Json> {
    if k == "title" then (if u.title.Some? then Some(JStr(u.title.value)) else None)
    else if k == "description" then (if u.description.Some? then Some(JStr(u.description.value)) else None)
    else if k == "due_date" then (if u.dueDate.Some? then Some(JStr(u.dueDate.value)) else None)
    else if k == "priority" then (if u.priority.Some? then Some(JStr(PriorityName(u.priority.value))) else None)
    else if k == "completed" then (if u.completed.Some? then Some(JBool(u.completed.value)) else None)
    else if k == "tags" then (if u.tags.Some? then Some(TagsToJson(u.tags.value)) else None)
    else None
  }

  /** The updates `update_todo` forwards: every field given (not None), never the id. */
  function ForwardedUpdates(u: UpdateTodoInput): (r: map<string, Json>)
    ensures "id" !in r && "created_at" !in r && "updated_at" !in r
    ensures "title" in r <==> u.title.Some?
    ensures "description" in r <==> u.description.Some?
    ensures "due_date" in r <==> u.dueDate.Some?
    ensures "priority" in r <==> u.priority.Some?
    ensures "completed" in r <==> u.completed.Some?
    ensures "tags" in r <==> u.tags.Some?
    ensures r.Keys <= UpdateFields
    ensures u.title.Some? ==> r["title"] == JStr(u.title.value)
    ensures u.description.Some? ==> r["description"] == JStr(u.description.value)
    ensures u.dueDate.Some? ==> r["due_date"] == JStr(u.dueDate.value)
    ensures u.priority.Some? ==> r["priority"] == JStr(PriorityName(u.priority.value))
    ensures u.completed.Some? ==> r["completed"] == JBool(u.completed.value)
    ensures u.tags.Some? ==> r["tags"] == TagsToJson(u.tags.value)
  {
    map k | k in UpdateFields && ForwardedValue(u, k).Some? :: ForwardedValue(u, k).value
  }

  /** The typed meaning of an update: every given field replaced, the rest kept, the
      update time set. */
  function ApplyUpdate(t: Todo, u: UpdateTodoInput, now: string): Todo {
    t.(title := if u.title.Some? then u.title.value else t.title,
       description := if u.description.Some? then u.description.value else t.description,
       dueDate := if u.dueDate.Some? then u.dueDate else t.dueDate,
       priority := if u.priority.Some? then u.priority.value else t.priority,
       completed := if u.completed.Some? then u.completed.value else t.completed,
       tags := if u.tags.Some? then u.tags.value else t.tags,
       updatedAt := now)
  }

  /** `f` holds exactly the given fields of `u`, each with its dumped value. */
  predicate Forwards(f: map<string, Json>, u: UpdateTodoInput) {
    && "id" !in f && "created_at" !in f && "updated_at" !in f
    && ("title" in f <==> u.title.Some?) && ("description" in f <==> u.description.Some?)
    && ("due_date" in f <==> u.dueDate.Some?) && ("priority" in f <==> u.priority.Some?)
    && ("completed" in f <==> u.completed.Some?) && ("tags" in f <==> u.tags.Some?)
    && (u.title.Some? ==> f["title"] == JStr(u.title.value))
    && (u.description.Some? ==> f["description"] == JStr(u.description.value))
    && (u.dueDate.Some? ==> f["due_date"] == JStr(u.dueDate.value))
    && (u.priority.Some? ==> f["priority"] == JStr(PriorityName(u.priority.value)))
    && (u.completed.Some? ==> f["completed"] == JBool(u.completed.value))
    && (u.tags.Some? ==> f["tags"] == TagsToJson(u.tags.value))
  }

  /** After the merge, the five string fields validate to those of the typed update. */
  lemma MergedTextFields(t: Todo, u: UpdateTodoInput, f: map<string, Json>, now: string)
    requires Forwards(f, u)
    ensures var m := MergedFields(t, f, now);
      var a := ApplyUpdate(t, u, now);
      && StrField(m, "id", None) == Ok(a.id)
      && StrField(m, "title", None) == Ok(a.title)
      && StrField(m, "description", Some("")) == Ok(a.description)
      && StrField(m, "created_at", Some(now)) == Ok(a.createdAt)
      && StrField(m, "updated_at", Some(now)) == Ok(a.updatedAt)
  {
    var base := TodoToJson(t).fields;
    MergedLookup(base, f, now, "id");
    MergedLookup(base, f, now, "title");
    MergedLookup(base, f, now, "description");
    MergedLookup(base, f, now, "created_at");
    MergedLookup(base, f, now, "updated_at");
  }

  /** After the merge, `completed` and `due_date` validate to those of the typed update. */
  lemma MergedTypedFields(t: Todo, u: UpdateTodoInput, f: map<string, Json>, now: string)
    requires Forwards(f, u)
    ensures var m := MergedFields(t, f, now);
      var a := ApplyUpdate(t, u, now);
      BoolField(m, "completed", false) == Ok(a.completed) && OptStrField(m, "due_date") == Ok(a.dueDate)
  {
    var base := TodoToJson(t).fields;
    MergedLookup(base, f, now, "completed");
    MergedLookup(base, f, now, "due_date");
  }

  /** After the merge, the priority validates to that of the typed update. */
  lemma MergedPriority(t: Todo, u: UpdateTodoInput, f: map<string, Json>, now: string)
    requires Forwards(f, u)
    ensures PriorityField(MergedFields(t, f, now), "priority") == Ok(ApplyUpdate(t, u, now).priority)
  {
    MergedLookup(TodoToJson(t).fields, f, now, "priority");
    PriorityRoundTrip(ApplyUpdate(t, u, now).priority, "");
  }

  /** After the merge, the tags validate to those of the typed update. */
  lemma MergedTags(t: Todo, u: UpdateTodoInput, f: map<string, Json>, now: string)
    requires Forwards(f, u)
    ensures TagsField(MergedFields(t, f, now), "tags") == Ok(ApplyUpdate(t, u, now).tags)
  {
    var a := ApplyUpdate(t, u, now);
    var m := MergedFields(t, f, now);
    MergedLookup(TodoToJson(t).fields, f, now, "tags");
    assert m["tags"] == TagsToJson(a.tags);
    var items := m["tags"].items;
    assert forall i :: 0 <= i < |items| ==> items[i] == JStr(a.tags[i]);
    assert seq(|items|, i requires 0 <= i < |items| => items[i].s) == a.tags;
  }

  /** Merging `f` in the store and validating the result is the typed update of `u`. */
  lemma MergeOfForwardedFields(t: Todo, u: UpdateTodoInput, f: map<string, Json>, now: string)
    requires Forwards(f, u)
    ensures MergedRecord(t, f, now) == Ok(ApplyUpdate(t, u, now))
  {
    MergedTextFields(t, u, f, now);
    MergedTypedFields(t, u, f, now);
    MergedPriority(t, u, f, now);
    MergedTags(t, u, f, now);
  }

  /** Merging the forwarded JSON updates in the store and validating the result is the
      typed update: it never fails, and it keeps the id and the creation time. */
  lemma ForwardedMergeIsTypedUpdate(t: Todo, u: UpdateTodoInput, now: string)
    ensures MergedRecord(t, ForwardedUpdates(u), now) == Ok(ApplyUpdate(t, u, now))
    ensures ApplyUpdate(t, u, now).id == t.id && ApplyUpdate(t, u, now).createdAt == t.createdAt
  {
    MergeOfForwardedFields(t, u, ForwardedUpdates(u), now);
  }

  /** `complete_todo`'s update `{"completed": c}` is the update input with only `completed` set. */
  lemma CompletionIsUpdate(id: string, completed: bool)
    ensures ForwardedUpdates(UpdateTodoInput(id, completed := Some(completed))) == map["completed" := JBool(completed)]
  {
  }

  /** `list_todos`. */
  method ListTodos(store: TodoStorage, handler: ErrorHandler, filter: TodoFilter, nowSeconds: int, clock: Clock)
    returns (resp: ToolResponse)
    modifies handler
    ensures handler.requestCounter == old(handler.requestCounter) + 1
    ensures var rid := RequestId(nowSeconds, handler.requestCounter);
      !store.isInitialized ==> resp == ToolErrorResponse(NotInitialized, "list_todos", rid)
    ensures store.isInitialized ==>
      var sorted := SortTodos(Selected(store.data.todos, filter, clock), clock);
      var stats := StatsOf(sorted, clock);
      resp == ToolSuccess(ListSummary(|sorted|, stats.completed, stats.overdue), sorted, stats, Listed(filter)) &&
      stats == StatsOf(Selected(store.data.todos, filter, clock), clock)
  {
    var rid := handler.GenerateRequestId(nowSeconds);
    var all := store.GetAllTodos();
    if all.Err? {
      return ToolErrorResponse(all.error, "list_todos", rid);
    }
    var filtered := FilterTodos(all.value, filter, clock);
    var sorted := SortTodos(filtered, clock);
    var stats := GetStats(sorted, clock);
    SortKeepsStats(filtered, clock);
    var text := ListSummary(|sorted|, stats.completed, stats.overdue);
    return ToolSuccess(text, sorted, stats, Listed(filter));
  }

  /** `create_todo`. */
  method CreateTodo(store: TodoStorage, handler: ErrorHandler, title: string, description: Option<string>,
                    dueDate: Option<string>, priority: Option<Priority>, tags: Option<seq<string>>,
                    freshId: string, now: string, nowSeconds: int, clock: Clock)
    returns (resp: ToolResponse)
    modifies store, handler
    ensures handler.requestCounter == old(handler.requestCounter) + 1
    ensures store.isInitialized == old(store.isInitialized)
    ensures var rid := RequestId(nowSeconds, handler.requestCounter);
      IsBlank(title) ==> resp == ToolErrorResponse(TitleEmpty(rid), "create_todo", rid) && unchanged(store)
    ensures var rid := RequestId(nowSeconds, handler.requestCounter);
      !IsBlank(title) && !old(store.isInitialized) ==>
        resp == ToolErrorResponse(NotInitialized, "create_todo", rid) && unchanged(store)
    ensures var rid := RequestId(nowSeconds, handler.requestCounter);
      !IsBlank(title) && old(store.isInitialized) && HasId(old(store.data.todos), freshId) ==>
        resp == ToolErrorResponse(Raised(NewValidationError("Todo with ID " + freshId + " already exists",
                                                            map["todo_id" := DStr(freshId)], None)), "create_todo", rid) &&
        unchanged(store)
    ensures !IsBlank(title) && old(store.isInitialized) && !HasId(old(store.data.todos), freshId) ==>
      var t := NewTodo(freshId, title, description, dueDate, priority, tags, now);
      var sorted := SortTodos(store.data.todos, clock);
      store.data.todos == old(store.data.todos) + [t] &&
      store.data == Refreshed(old(store.data).(todos := old(store.data.todos) + [t]), now) &&
      store.disk == old(store.disk)[store.filePath := JsonText(ListToJson(store.data))] &&
      resp == ToolSuccess("Created todo: " + Quoted(title), sorted, StatsOf(sorted, clock), Created(t))
  {
    var rid := handler.GenerateRequestId(nowSeconds);
    if IsBlank(title) {
      return ToolErrorResponse(TitleEmpty(rid), "create_todo", rid);
    }
    var newTodo := NewTodo(freshId, title, description, dueDate, priority, tags, now);
    var added := store.AddTodo(newTodo, now);
    if added.Err? {
      return ToolErrorResponse(added.error, "create_todo", rid);
    }
    var all := store.GetAllTodos();
    assert all == Ok(store.data.todos);
    var sorted := SortTodos(all.value, clock);
    var stats := GetStats(sorted, clock);
    return ToolSuccess("Created todo: " + Quoted(newTodo.title), sorted, stats, Created(newTodo));
  }

  /** `update_todo`: the id must exist (checked before the store is called), a given
      title must not be blank, and only the given fields are changed. */
  method UpdateTodo(store: TodoStorage, handler: ErrorHandler, input: UpdateTodoInput,
                    now: string, nowSeconds: int, clock: Clock)
    returns (resp: ToolResponse)
    modifies store, handler
    ensures handler.requestCounter == old(handler.requestCounter) + 1
    ensures store.isInitialized == old(store.isInitialized)
    ensures var rid := RequestId(nowSeconds, handler.requestCounter);
      !old(store.isInitialized) ==> resp == ToolErrorResponse(NotInitialized, "update_todo", rid) && unchanged(store)
    ensures var rid := RequestId(nowSeconds, handler.requestCounter);
      old(store.isInitialized) && !HasId(old(store.data.todos), input.id) ==>
        resp == ToolErrorResponse(TodoMissing(input.id, rid), "update_todo", rid) && unchanged(store)
    ensures var rid := RequestId(nowSeconds, handler.requestCounter);
      old(store.isInitialized) && HasId(old(store.data.todos), input.id) &&
      input.title.Some? && IsBlank(input.title.value) ==>
        resp == ToolErrorResponse(TitleEmpty(rid), "update_todo", rid) && unchanged(store)
    ensures (old(store.isInitialized) && HasId(old(store.data.todos), input.id) &&
             !(input.title.Some? && IsBlank(input.title.value))) ==>
      var k := FirstIndexOf(old(store.data.todos), input.id);
      var t := ApplyUpdate(old(store.data.todos)[k], input, now);
      var sorted := SortTodos(store.data.todos, clock);
      store.data.todos == old(store.data.todos)[k := t] &&
      store.data == Refreshed(old(store.data).(todos := old(store.data.todos)[k := t]), now) &&
      store.disk == old(store.disk)[store.filePath := JsonText(ListToJson(store.data))] &&
      resp == ToolSuccess("Updated todo: " + Quoted(t.title), sorted, StatsOf(sorted, clock), Updated(t))
  {
    var rid := handler.GenerateRequestId(nowSeconds);
    var existing := store.GetTodoById(input.id);
    if existing.Err? {
      return ToolErrorResponse(existing.error, "update_todo", rid);
    }
    if existing.value.None? {
      return ToolErrorResponse(TodoMissing(input.id, rid), "update_todo", rid);
    }
    var updates := ForwardedUpdates(input);
    if "title" in updates && IsBlank(input.title.value) {
      return ToolErrorResponse(TitleEmpty(rid), "update_todo", rid);
    }
    ForwardedMergeIsTypedUpdate(existing.value.value, input, now);
    var updated := store.UpdateTodo(input.id, updates, now);
    // the todo exists and the typed updates always validate, so the store call succeeds
    assert updated == Ok(ApplyUpdate(existing.value.value, input, now));
    var all := store.GetAllTodos();
    var sorted := SortTodos(all.value, clock);
    var stats := GetStats(sorted, clock);
    return ToolSuccess("Updated todo: " + Quoted(updated.value.title), sorted, stats, Updated(updated.value));
  }

  /** `complete_todo`: sets `completed` on an existing todo. */
  method CompleteTodo(store: TodoStorage, handler: ErrorHandler, id: string, completed: bool := true,
                      now: string, nowSeconds: int, clock: Clock)
    returns (resp: ToolResponse)
    modifies store, handler
    ensures handler.requestCounter == old(handler.requestCounter) + 1
    ensures store.isInitialized == old(store.isInitialized)
    ensures var rid := RequestId(nowSeconds, handler.requestCounter);
      id == "" ==> resp == ToolErrorResponse(IdRequired(rid), "complete_todo", rid) && unchanged(store)
    ensures var rid := RequestId(nowSeconds, handler.requestCounter);
      id != "" && !old(store.isInitialized) ==>
        resp == ToolErrorResponse(NotInitialized, "complete_todo", rid) && unchanged(store)
    ensures var rid := RequestId(nowSeconds, handler.requestCounter);
      id != "" && old(store.isInitialized) && !HasId(old(store.data.todos), id) ==>
        resp == ToolErrorResponse(TodoMissing(id, rid), "complete_todo", rid) && unchanged(store)
    ensures id != "" && old(store.isInitialized) && HasId(old(store.data.todos), id) ==>
      var k := FirstIndexOf(old(store.data.todos), id);
      var t := old(store.data.todos)[k].(completed := completed, updatedAt := now);
      var sorted := SortTodos(store.data.todos, clock);
      store.data.todos == old(store.data.todos)[k := t] &&
      store.data == Refreshed(old(store.data).(todos := old(store.data.todos)[k := t]), now) &&
      store.disk == old(store.disk)[store.filePath := JsonText(ListToJson(store.data))] &&
      resp == ToolSuccess("Todo " + Quoted(t.title) + " " + (if completed then "completed" else "marked as incomplete"),
                          sorted, StatsOf(sorted, clock), Completed(t, completed))
  {
    var rid := handler.GenerateRequestId(nowSeconds);
    if id == "" {
      return ToolErrorResponse(IdRequired(rid), "complete_todo", rid);
    }
    var existing := store.GetTodoById(id);
    if existing.Err? {
      return ToolErrorResponse(existing.error, "complete_todo", rid);
    }
    if existing.value.None? {
      return ToolErrorResponse(TodoMissing(id, rid), "complete_todo", rid);
    }
    var change := UpdateTodoInput(id, completed := Some(completed));
    CompletionIsUpdate(id, completed);
    ForwardedMergeIsTypedUpdate(existing.value.value, change, now);
    var updated := store.UpdateTodo(id, map["completed" := JBool(completed)], now);
    assert updated == Ok(existing.value.value.(completed := completed, updatedAt := now));
    var all := store.GetAllTodos();
    var sorted := SortTodos(all.value, clock);
    var stats := GetStats(sorted, clock);
    var action := if completed then "completed" else "marked as incomplete";
    return ToolSuccess("Todo " + Quoted(updated.value.title) + " " + action, sorted, stats,
                       Completed(updated.value, completed));
  }

  /** A successful `delete_todo` of `id` from `before`: the first todo with that id is the one
      removed, and the reply names it and carries the sorted remainder with its statistics. */
  predicate DeleteSucceeded(before: seq<Todo>, after: seq<Todo>, id: string, resp: ToolResponse, clock: Clock)
    requires HasId(before, id)
  {
    var k := FirstIndexOf(before, id);
    var sorted := SortTodos(after, clock);
    after == before[..k] + before[k + 1..] &&
    resp == ToolSuccess("Deleted todo: " + Quoted(before[k].title), sorted, StatsOf(sorted, clock), Deleted(before[k]))
  }

  /** `delete_todo`: removes an existing todo; an unknown id is an error, not `false`. */
  method DeleteTodo(store: TodoStorage, handler: ErrorHandler, id: string,
                    now: string, nowSeconds: int, clock: Clock)
    returns (resp: ToolResponse)
    modifies store, handler
    ensures handler.requestCounter == old(handler.requestCounter) + 1
    ensures store.isInitialized == old(store.isInitialized)
    ensures var rid := RequestId(nowSeconds, handler.requestCounter);
      id == "" ==> resp == ToolErrorResponse(IdRequired(rid), "delete_todo", rid) && unchanged(store)
    ensures var rid := RequestId(nowSeconds, handler.requestCounter);
      id != "" && !old(store.isInitialized) ==>
        resp == ToolErrorResponse(NotInitialized, "delete_todo", rid) && unchanged(store)
    ensures var rid := RequestId(nowSeconds, handler.requestCounter);
      id != "" && old(store.isInitialized) && !HasId(old(store.data.todos), id) ==>
        resp == ToolErrorResponse(TodoMissing(id, rid), "delete_todo", rid) && unchanged(store)
    ensures id != "" && old(store.isInitialized) && HasId(old(store.data.todos), id) ==>
      DeleteSucceeded(old(store.data.todos), store.data.todos, id, resp, clock) &&
      store.data == Refreshed(old(store.data).(todos := store.data.todos), now) &&
      store.disk == old(store.disk)[store.filePath := JsonText(ListToJson(store.data))]
    ensures id != "" && old(store.isInitialized) && UniqueIds(old(store.data.todos)) ==>
      !HasId(store.data.todos, id)
  {
    var rid := handler.GenerateRequestId(nowSeconds);
    if id == "" {
      return ToolErrorResponse(IdRequired(rid), "delete_todo", rid);
    }
    var toDelete := store.GetTodoById(id);
    if toDelete.Err? {
      assert !store.isInitialized;
      return ToolErrorResponse(toDelete.error, "delete_todo", rid);
    }
    if toDelete.value.None? {
      assert !HasId(store.data.todos, id);
      return ToolErrorResponse(TodoMissing(id, rid), "delete_todo", rid);
    }
    resp := DeleteFound(store, id, now, clock);
  }

  /** The success path of `delete_todo`, once a todo has been found under `id`. */
  method DeleteFound(store: TodoStorage, id: string, now: string, clock: Clock)
    returns (resp: ToolResponse)
    requires store.isInitialized && HasId(store.data.todos, id)
    modifies store
    ensures store.isInitialized
    ensures DeleteSucceeded(old(store.data.todos), store.data.todos, id, resp, clock)
    ensures store.data == Refreshed(old(store.data).(todos := store.data.todos), now)
    ensures store.disk == old(store.disk)[store.filePath := JsonText(ListToJson(store.data))]
    ensures UniqueIds(old(store.data.todos)) ==> !HasId(store.data.todos, id)
  {
    var gone := store.data.todos[FirstIndexOf(store.data.todos, id)];
    var deleted := store.DeleteTodo(id, now);
    // the todo was just found, so the deletion succeeds and `if not deleted` never fires
    assert deleted == Ok(true);
    var all := store.GetAllTodos();
    var sorted := SortTodos(all.value, clock);
    var stats := GetStats(sorted, clock);
    return ToolSuccess("Deleted todo: " + Quoted(gone.title), sorted, stats, Deleted(gone));
  }
}
