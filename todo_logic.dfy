/** The list logic of the tool layer: overdue test, filtering, sorting and
    statistics. "Today" and the ISO date parser are parameters. */
module TodoLogic {
  import opened Wrappers
  import opened Text
  import opened TodoTypes

  /** What `datetime.fromisoformat(s.replace('Z', '+00:00'))` yields: its calendar
      day (`.date()`, as a day number) and its POSIX time (`.timestamp()`). */
  datatype Moment = Moment(day: int, instant: int)

  /** Today's day number and the ISO parser; `parse` is None where `fromisoformat` raises. */
  datatype Clock = Clock(today: int, parse: string -> Option<Moment>)

  /** `if todo.due_date:` is true: present and not the empty string. */
  predicate HasDueDate(t: Todo) {
    t.dueDate.Some? && t.dueDate.value != ""
  }

  /** `is_overdue`: an open todo whose due date parses to a day before today. */
  predicate IsOverdue(t: Todo, clock: Clock)
    ensures IsOverdue(t, clock) ==> HasDueDate(t) && !t.completed && clock.parse(t.dueDate.value).Some?
  {
    if !HasDueDate(t) || t.completed then false
    else match clock.parse(t.dueDate.value)
      case None => false
      case Some(m) => m.day < clock.today
  }

  lemma OverdueCharacterized(t: Todo, clock: Clock)
    ensures !HasDueDate(t) ==> !IsOverdue(t, clock)
    ensures t.completed ==> !IsOverdue(t, clock)
    ensures HasDueDate(t) && clock.parse(t.dueDate.value).None? ==> !IsOverdue(t, clock)
    ensures HasDueDate(t) && !t.completed && clock.parse(t.dueDate.value).Some? ==>
      (IsOverdue(t, clock) <==> clock.parse(t.dueDate.value).value.day < clock.today)
  {
  }

  // ---- filter_todos ----

  predicate SharesTag(t: Todo, tags: seq<string>) {
    exists i :: 0 <= i < |tags| && tags[i] in t.tags
  }

  /** Every active criterion holds; a priority or tag list is active only when given
      and truthy (a non-empty tag list). */
  predicate Matches(t: Todo, f: TodoFilter, clock: Clock) {
    && (f.completed.Some? ==> t.completed == f.completed.value)
    && (f.priority.Some? ==> t.priority == f.priority.value)
    && (f.overdue.Some? ==> IsOverdue(t, clock) == f.overdue.value)
    && (f.tags.Some? && f.tags.value != [] ==> SharesTag(t, f.tags.value))
  }

  /** The matching todos, in input order. */
  function Selected(todos: seq<Todo>, f: TodoFilter, clock: Clock): seq<Todo> {
    if todos == [] then []
    else
      var last := todos[|todos| - 1];
      Selected(todos[..|todos| - 1], f, clock) + (if Matches(last, f, clock) then [last] else [])
  }

  method FilterTodos(todos: seq<Todo>, f: TodoFilter, clock: Clock) returns (filtered: seq<Todo>)
    ensures filtered == Selected(todos, f, clock)
  {
    filtered := [];
    for i := 0 to |todos|
      invariant filtered == Selected(todos[..i], f, clock)
    {
      assert todos[..i + 1][..i] == todos[..i];
      if Matches(todos[i], f, clock) {
        filtered := filtered + [todos[i]];
      }
    }
    assert todos[..|todos|] == todos;
  }

  /** `a` is `b` with some elements dropped, order kept. */
  predicate IsSubsequence(a: seq<Todo>, b: seq<Todo>)
    decreases |b|
  {
    if a == [] then true
    else if b == [] then false
    else
      || (a[|a| - 1] == b[|b| - 1] && IsSubsequence(a[..|a| - 1], b[..|b| - 1]))
      || IsSubsequence(a, b[..|b| - 1])
  }

  lemma {:induction false} SelectedIsSubsequence(todos: seq<Todo>, f: TodoFilter, clock: Clock)
    ensures IsSubsequence(Selected(todos, f, clock), todos)
    decreases |todos|
  {
    if todos != [] {
      var init := todos[..|todos| - 1];
      var last := todos[|todos| - 1];
      SelectedIsSubsequence(init, f, clock);
      var r := Selected(todos, f, clock);
      if Matches(last, f, clock) {
        assert r[..|r| - 1] == Selected(init, f, clock);
      } else {
        assert r == Selected(init, f, clock);
        if r != [] { assert IsSubsequence(r, init); }
      }
    }
  }

  /** Exactly the matching elements are kept: sound and complete. */
  lemma {:induction false} SelectedExactly(todos: seq<Todo>, f: TodoFilter, clock: Clock)
    ensures forall t :: t in Selected(todos, f, clock) <==> t in todos && Matches(t, f, clock)
    decreases |todos|
  {
    if todos != [] {
      var init := todos[..|todos| - 1];
      SelectedExactly(init, f, clock);
      assert todos == init + [todos[|todos| - 1]];
    }
  }

  /** Filtering twice with the same criteria changes nothing. */
  lemma {:induction false} SelectedIdempotent(todos: seq<Todo>, f: TodoFilter, clock: Clock)
    ensures Selected(Selected(todos, f, clock), f, clock) == Selected(todos, f, clock)
    decreases |todos|
  {
    if todos != [] {
      var init := todos[..|todos| - 1];
      var last := todos[|todos| - 1];
      SelectedIdempotent(init, f, clock);
      var s := Selected(init, f, clock);
      if Matches(last, f, clock) {
        var r := s + [last];
        assert r[..|r| - 1] == s;
        assert Selected(r, f, clock) == Selected(s, f, clock) + [last];
        assert Selected(todos, f, clock) == r;
      } else {
        assert Selected(todos, f, clock) == s;
      }
    }
  }

  /** With no criterion given every todo is kept. */
  lemma {:induction false} SelectedNoCriteria(todos: seq<Todo>, clock: Clock)
    ensures Selected(todos, TodoFilter(), clock) == todos
    decreases |todos|
  {
    if todos != [] {
      SelectedNoCriteria(todos[..|todos| - 1], clock);
    }
  }

  // ---- sort_todos ----

  /** `float('inf')` for a missing or unparseable due date. */
  datatype DueKey = DueAt(instant: int) | NoDue

  /** The key tuple `(completed, -priority, due, -created)`. */
  datatype SortKey = SortKey(done: int, negPriority: int, due: DueKey, created: int)

  function PriorityRank(p: Priority): int {
    match p
    case High => 3
    case Medium => 2
    case Low => 1
  }

  /** The key of one todo: open before done, higher priority first, a due date that is
      present and parses as its instant (otherwise after every date), newest first. */
  function KeyOf(t: Todo, clock: Clock): (k: SortKey)
    ensures k.done == (if t.completed then 1 else 0)
    ensures k.negPriority == -PriorityRank(t.priority)
    ensures k.due.DueAt? <==> HasDueDate(t) && clock.parse(t.dueDate.value).Some?
    ensures k.due.DueAt? ==> k.due.instant == clock.parse(t.dueDate.value).value.instant
    ensures clock.parse(t.createdAt).Some? ==> k.created == -clock.parse(t.createdAt).value.instant
  {
    var due :=
      if HasDueDate(t) then
        (match clock.parse(t.dueDate.value)
         case Some(m) => DueAt(m.instant)
         case None => NoDue)
      else NoDue;
    var created :=
      match clock.parse(t.createdAt)
      case Some(m) => -m.instant
      case None => 0;
    SortKey(if t.completed then 1 else 0, -PriorityRank(t.priority), due, created)
  }

  predicate DueLt(a: DueKey, b: DueKey) {
    a.DueAt? && (b.NoDue? || a.instant < b.instant)
  }

  /** Python's tuple comparison `a <= b`. */
  predicate KeyLe(a: SortKey, b: SortKey) {
    || a.done < b.done
    || (a.done == b.done && a.negPriority < b.negPriority)
    || (a.done == b.done && a.negPriority == b.negPriority && DueLt(a.due, b.due))
    || (a.done == b.done && a.negPriority == b.negPriority && a.due == b.due && a.created <= b.created)
  }

  lemma KeyLeTotal(a: SortKey, b: SortKey)
    ensures KeyLe(a, b) || KeyLe(b, a)
  {
  }

  lemma KeyLeTransitive(a: SortKey, b: SortKey, c: SortKey)
    requires KeyLe(a, b) && KeyLe(b, c)
    ensures KeyLe(a, c)
  {
  }

  predicate SortedByKey(s: seq<Todo>, clock: Clock) {
    forall i, j :: 0 <= i < j < |s| ==> KeyLe(KeyOf(s[i], clock), KeyOf(s[j], clock))
  }

  /** Putting `x` in front of a sorted list it sorts before keeps it sorted. */
  lemma PrependSorted(x: Todo, s: seq<Todo>, clock: Clock)
    requires SortedByKey(s, clock) && s != []
    requires KeyLe(KeyOf(x, clock), KeyOf(s[0], clock))
    ensures SortedByKey([x] + s, clock)
  {
    forall j | 0 < j < |s| + 1 ensures KeyLe(KeyOf(x, clock), KeyOf(([x] + s)[j], clock)) {
      if j > 1 { KeyLeTransitive(KeyOf(x, clock), KeyOf(s[0], clock), KeyOf(s[j - 1], clock)); }
    }
  }

  /** Keeping the head of a sorted list in front of the insertion into its tail. */
  lemma ConsInsertedSorted(x: Todo, s: seq<Todo>, rest: seq<Todo>, clock: Clock)
    requires SortedByKey(s, clock) && s != []
    requires !KeyLe(KeyOf(x, clock), KeyOf(s[0], clock))
    requires multiset(rest) == multiset(s[1..]) + multiset{x}
    requires SortedByKey(rest, clock)
    ensures multiset([s[0]] + rest) == multiset(s) + multiset{x}
    ensures SortedByKey([s[0]] + rest, clock)
  {
    assert s == [s[0]] + s[1..];
    KeyLeTotal(KeyOf(x, clock), KeyOf(s[0], clock));
    forall j | 0 <= j < |rest| ensures KeyLe(KeyOf(s[0], clock), KeyOf(rest[j], clock)) {
      assert rest[j] in multiset(rest);
      assert rest[j] == x || rest[j] in s[1..];
    }
  }

  /** Puts `x` before the first element it does not sort after (so before its equals). */
  function Insert(x: Todo, s: seq<Todo>, clock: Clock): (r: seq<Todo>)
    requires SortedByKey(s, clock)
    ensures multiset(r) == multiset(s) + multiset{x}
    ensures SortedByKey(r, clock)
  {
    if s == [] then [x]
    else if KeyLe(KeyOf(x, clock), KeyOf(s[0], clock)) then
      PrependSorted(x, s, clock);
      assert s == [s[0]] + s[1..];
      [x] + s
    else
      var rest := Insert(x, s[1..], clock);
      ConsInsertedSorted(x, s, rest, clock);
      [s[0]] + rest
  }

  /** `sorted(todos, key=sort_key)`: a stable insertion sort. */
  function SortTodos(todos: seq<Todo>, clock: Clock): (r: seq<Todo>)
    ensures multiset(r) == multiset(todos)
    ensures SortedByKey(r, clock)
  {
    if todos == [] then []
    else
      assert todos == [todos[0]] + todos[1..];
      Insert(todos[0], SortTodos(todos[1..], clock), clock)
  }

  /** Incomplete todos come first, then higher priority, then earlier due date. */
  lemma SortOrderConsequences(todos: seq<Todo>, clock: Clock, i: int, j: int)
    requires 0 <= i < j < |SortTodos(todos, clock)|
    ensures var s := SortTodos(todos, clock);
      (s[i].completed ==> s[j].completed) &&
      (s[i].completed == s[j].completed ==> PriorityRank(s[i].priority) >= PriorityRank(s[j].priority))
  {
  }

  // ---- get_stats ----

  datatype ByPriority = ByPriority(low: int, medium: int, high: int)

  datatype Stats = Stats(total: int, completed: int, overdue: int, byPriority: ByPriority)

  function CountCompleted(todos: seq<Todo>): nat {
    if todos == [] then 0
    else CountCompleted(todos[..|todos| - 1]) + (if todos[|todos| - 1].completed then 1 else 0)
  }

  function CountOverdue(todos: seq<Todo>, clock: Clock): nat {
    if todos == [] then 0
    else CountOverdue(todos[..|todos| - 1], clock) + (if IsOverdue(todos[|todos| - 1], clock) then 1 else 0)
  }

  function CountPriority(todos: seq<Todo>, p: Priority): nat {
    if todos == [] then 0
    else CountPriority(todos[..|todos| - 1], p) + (if todos[|todos| - 1].priority == p then 1 else 0)
  }

  function Buckets(todos: seq<Todo>): ByPriority {
    ByPriority(CountPriority(todos, Low), CountPriority(todos, Medium), CountPriority(todos, High))
  }

  /** The statistics of a list, by definition. */
  function StatsOf(todos: seq<Todo>, clock: Clock): Stats {
    Stats(|todos|, CountCompleted(todos), CountOverdue(todos, clock), Buckets(todos))
  }

  /** Every todo lands in exactly one priority bucket. */
  lemma {:induction false} BucketsSumToTotal(todos: seq<Todo>)
    ensures CountPriority(todos, Low) + CountPriority(todos, Medium) + CountPriority(todos, High) == |todos|
    decreases |todos|
  {
    if todos != [] {
      BucketsSumToTotal(todos[..|todos| - 1]);
    }
  }

  /** An overdue todo is never completed, so the two counts fit in the total. */
  lemma {:induction false} OverduePlusCompletedAtMostTotal(todos: seq<Todo>, clock: Clock)
    ensures CountCompleted(todos) + CountOverdue(todos, clock) <= |todos|
    decreases |todos|
  {
    if todos != [] {
      OverduePlusCompletedAtMostTotal(todos[..|todos| - 1], clock);
    }
  }

  /** Every count of a concatenation is the sum of the counts of its parts. */
  lemma {:induction false} StatsOfConcat(s: seq<Todo>, t: seq<Todo>, clock: Clock)
    ensures CountCompleted(s + t) == CountCompleted(s) + CountCompleted(t)
    ensures CountOverdue(s + t, clock) == CountOverdue(s, clock) + CountOverdue(t, clock)
    ensures forall p :: CountPriority(s + t, p) == CountPriority(s, p) + CountPriority(t, p)
    decreases |t|
  {
    if t == [] {
      assert s + t == s;
    } else {
      var init := t[..|t| - 1];
      assert (s + t)[..|s + t| - 1] == s + init;
      StatsOfConcat(s, init, clock);
    }
  }

  /** Taking the same element out of two permutations of each other leaves permutations. */
  lemma RemovePairedElement(a: seq<Todo>, b: seq<Todo>, i: int)
    requires multiset(a) == multiset(b) && a != [] && 0 <= i < |b| && b[i] == a[|a| - 1]
    ensures multiset(b[..i] + b[i + 1..]) == multiset(a[..|a| - 1])
  {
    var x := a[|a| - 1];
    assert a == a[..|a| - 1] + [x];
    assert b == b[..i] + [x] + b[i + 1..];
    var m := multiset(b[..i] + b[i + 1..]);
    var n := multiset(a[..|a| - 1]);
    assert m + multiset{x} == n + multiset{x};
    forall y ensures m[y] == n[y] {
      assert (m + multiset{x})[y] == (n + multiset{x})[y];
    }
  }

  /** Taking element `i` out of a list takes its contribution out of every count. */
  lemma StatsWithout(b: seq<Todo>, i: int, clock: Clock)
    requires 0 <= i < |b|
    ensures var r := b[..i] + b[i + 1..];
      && CountCompleted(b) == CountCompleted(r) + (if b[i].completed then 1 else 0)
      && CountOverdue(b, clock) == CountOverdue(r, clock) + (if IsOverdue(b[i], clock) then 1 else 0)
      && CountPriority(b, Low) == CountPriority(r, Low) + (if b[i].priority == Low then 1 else 0)
      && CountPriority(b, Medium) == CountPriority(r, Medium) + (if b[i].priority == Medium then 1 else 0)
      && CountPriority(b, High) == CountPriority(r, High) + (if b[i].priority == High then 1 else 0)
  {
    var before, after := b[..i], b[i + 1..];
    assert b == (before + [b[i]]) + after;
    assert [b[i]][..0] == [];
    StatsOfConcat(before, [b[i]], clock);
    StatsOfConcat(before + [b[i]], after, clock);
    StatsOfConcat(before, after, clock);
  }

  /** The statistics do not depend on the order of the list. */
  lemma {:induction false} StatsOfPermutation(a: seq<Todo>, b: seq<Todo>, clock: Clock)
    requires multiset(a) == multiset(b)
    ensures StatsOf(a, clock) == StatsOf(b, clock)
    decreases |a|
  {
    assert |a| == |b| by { assert |multiset(a)| == |multiset(b)|; }
    if a != [] {
      var x := a[|a| - 1];
      assert x in multiset(b) by { assert x in multiset(a); }
      var i :| 0 <= i < |b| && b[i] == x;
      RemovePairedElement(a, b, i);
      StatsOfPermutation(a[..|a| - 1], b[..i] + b[i + 1..], clock);
      StatsWithout(b, i, clock);
    }
  }

  /** Sorting keeps the statistics. */
  lemma SortKeepsStats(todos: seq<Todo>, clock: Clock)
    ensures StatsOf(SortTodos(todos, clock), clock) == StatsOf(todos, clock)
  {
    StatsOfPermutation(SortTodos(todos, clock), todos, clock);
  }

  /** `get_stats`: one pass incrementing the counters. */
  method GetStats(todos: seq<Todo>, clock: Clock) returns (stats: Stats)
    ensures stats == StatsOf(todos, clock)
    ensures stats.byPriority.low + stats.byPriority.medium + stats.byPriority.high == stats.total
    ensures stats.completed + stats.overdue <= stats.total
  {
    var completed, overdue, low, medium, high := 0, 0, 0, 0, 0;
    for i := 0 to |todos|
      invariant completed == CountCompleted(todos[..i])
      invariant overdue == CountOverdue(todos[..i], clock)
      invariant low == CountPriority(todos[..i], Low)
      invariant medium == CountPriority(todos[..i], Medium)
      invariant high == CountPriority(todos[..i], High)
    {
      assert todos[..i + 1][..i] == todos[..i];
      var t := todos[i];
      if t.completed { completed := completed + 1; }
      if IsOverdue(t, clock) { overdue := overdue + 1; }
      match t.priority
      case Low => low := low + 1;
      case Medium => medium := medium + 1;
      case High => high := high + 1;
    }
    assert todos[..|todos|] == todos;
    stats := Stats(|todos|, completed, overdue, ByPriority(low, medium, high));
    BucketsSumToTotal(todos);
    OverduePlusCompletedAtMostTotal(todos, clock);
  }

  /** The `list_todos` reply text. */
  function ListSummary(count: nat, completed: int, overdue: int): (r: string)
    ensures var head := Headline(count);
      |head| <= |r| && r[..|head|] == head && (r == head <==> completed <= 0 && overdue <= 0)
  {
    Headline(count) + SummaryNote(completed, " completed)") + SummaryNote(overdue, " overdue)")
  }

  /** "Found N todo(s)". */
  function Headline(count: nat): string {
    "Found " + NatToString(count) + " todo(s)"
  }

  /** The parenthesised count that follows the headline when it is positive. */
  function SummaryNote(k: int, word: string): string {
    if k > 0 then " (" + IntToString(k) + word else ""
  }

  /** A slice inside the middle part of a concatenation is that slice of the part. */
  lemma MiddleSlice(a: string, b: string, c: string, i: nat, j: nat)
    requires i <= j <= |b|
    ensures (a + b + c)[|a| + i..|a| + j] == b[i..j]
  {
    var s := a + b + c;
    assert forall k :: |a| + i <= k < |a| + j ==> s[k] == b[k - |a|];
  }

  /** The headline reads back: "Found ", the digits of the count, then " todo(s)". */
  lemma HeadlineReadsBack(count: nat)
    ensures var s := Headline(count);
      var n := |NatToString(count)|;
      && |s| == n + 14 && s[..6] == "Found " && s[6 + n..] == " todo(s)"
      && IsDigits(s[6..6 + n]) && DecimalValue(s[6..6 + n]) == count
  {
    var digits := NatToString(count);
    DecimalRoundTrip(count);
    MiddleSlice("Found ", digits, " todo(s)", 0, |digits|);
  }

  /** A note is empty for a count that is not positive, and otherwise reads back as
      " (", the digits of the count, then the word. */
  lemma SummaryNoteReadsBack(k: int, word: string)
    ensures var s := SummaryNote(k, word);
      && (k <= 0 <==> s == "")
      && (k > 0 ==>
            var d := |NatToString(k)|;
            && |s| == d + 2 + |word| && s[..2] == " (" && s[2 + d..] == word
            && IsDigits(s[2..2 + d]) && DecimalValue(s[2..2 + d]) == k)
  {
    if k > 0 {
      var digits := NatToString(k);
      DecimalRoundTrip(k);
      MiddleSlice(" (", digits, word, 0, |digits|);
    }
  }

  /** The reply text is the headline, then the completed note, then the overdue note, with
      nothing before, between or after them; `HeadlineReadsBack` and `SummaryNoteReadsBack`
      say how each part reads back, so " (k completed)" appears exactly when some todo is
      completed and " (m overdue)" exactly when some is overdue. */
  lemma ListSummaryReadsBack(count: nat, completed: int, overdue: int)
    ensures var r := ListSummary(count, completed, overdue);
      var head := Headline(count);
      var done := SummaryNote(completed, " completed)");
      var late := SummaryNote(overdue, " overdue)");
      && |r| == |head| + |done| + |late|
      && r[..|head|] == head
      && r[|head|..|head| + |done|] == done
      && r[|head| + |done|..] == late
      && (done == "" <==> completed <= 0) && (late == "" <==> overdue <= 0)
  {
    var head := Headline(count);
    var done := SummaryNote(completed, " completed)");
    var late := SummaryNote(overdue, " overdue)");
    MiddleSlice(head, done, late, 0, |done|);
    MiddleSlice(head + done, late, "", 0, |late|);
    assert head + done + late + "" == head + done + late;
    SummaryNoteReadsBack(completed, " completed)");
    SummaryNoteReadsBack(overdue, " overdue)");
  }
}
