/** The record types of the store and of the tool inputs, with the defaults
    their declarations give. Field defaults that call `datetime.now()` have
    no default here: the caller passes the timestamp. */
module TodoTypes {
  import opened Wrappers

  /** "low" | "medium" | "high". */
  datatype Priority = Low | Medium | High

  function PriorityName(p: Priority): string {
    match p
    case Low => "low"
    case Medium => "medium"
    case High => "high"
  }

  /** Accepts exactly the three literal priority names. */
  function ParsePriority(s: string): (r: Option<Priority>)
    ensures r.Some? <==> s == "low" || s == "medium" || s == "high"
  {
    if s == "low" then Some(Low)
    else if s == "medium" then Some(Medium)
    else if s == "high" then Some(High)
    else None
  }

  lemma PriorityRoundTrip(p: Priority, s: string)
    ensures ParsePriority(PriorityName(p)) == Some(p)
    ensures ParsePriority(s) == Some(p) <==> s == PriorityName(p)
  {
  }

  datatype Todo = Todo(
    id: string,
    title: string,
    createdAt: string,
    updatedAt: string,
    description: string := "",
    completed: bool := false,
    dueDate: Option<string> := None,
    priority: Priority := Medium,
    tags: seq<string> := [])

  datatype TodoMetadata = TodoMetadata(
    lastModified: string,
    version: string := "1.0.0",
    totalCount: int := 0,
    completedCount: int := 0)

  datatype TodoList = TodoList(metadata: TodoMetadata, todos: seq<Todo> := [])

  /** `TodoList()`: no todos and default metadata stamped `now`. */
  function DefaultTodoList(now: string): (r: TodoList)
    ensures r.todos == []
    ensures r.metadata == TodoMetadata(now, "1.0.0", 0, 0)
  {
    TodoList(TodoMetadata(now))
  }

  datatype CreateTodoInput = CreateTodoInput(
    title: string,
    description: Option<string> := Some(""),
    dueDate: Option<string> := None,
    priority: Option<Priority> := Some(Medium),
    tags: Option<seq<string>> := Some([]))

  datatype UpdateTodoInput = UpdateTodoInput(
    id: string,
    title: Option<string> := None,
    description: Option<string> := None,
    dueDate: Option<string> := None,
    priority: Option<Priority> := None,
    completed: Option<bool> := None,
    tags: Option<seq<string>> := None)

  datatype TodoFilter = TodoFilter(
    completed: Option<bool> := None,
    priority: Option<Priority> := None,
    overdue: Option<bool> := None,
    tags: Option<seq<string>> := None)

  /** Only id, title and the two timestamps must be given; the rest default. */
  lemma TodoDefaults(id: string, title: string, now: string)
    ensures var t := Todo(id, title, now, now);
      t.description == "" && !t.completed && t.dueDate == None &&
      t.priority == Medium && t.tags == []
  {
  }

  lemma InputDefaults(title: string, id: string)
    ensures CreateTodoInput(title) == CreateTodoInput(title, Some(""), None, Some(Medium), Some([]))
    ensures UpdateTodoInput(id) == UpdateTodoInput(id, None, None, None, None, None, None)
    ensures TodoFilter() == TodoFilter(None, None, None, None)
  {
  }
}
