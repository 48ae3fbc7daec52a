/** The to-do list page: search and the two filters, the page slice of the table,
    the rows-per-page handler, the completion toggle's update and the priority chip colour. */
module TodoList {
  import opened Strings
  import opened Seqs
  import opened TodoSlice

  /** Case-insensitive substring test on the title or the description. */
  predicate MatchesSearch(todo: Todo, searchTerm: string) {
    || Contains(ToLower(todo.title), ToLower(searchTerm))
    || Contains(ToLower(todo.description), ToLower(searchTerm))
  }

  /** `'all'`, or the priority written in decimal equals the filter value. */
  predicate MatchesPriority(todo: Todo, filterPriority: string) {
    filterPriority == "all" || DecimalString(todo.priority) == filterPriority
  }

  /** `'all'` keeps everything, `'completed'` the completed items, any other value the open ones. */
  predicate MatchesStatus(todo: Todo, filterStatus: string) {
    filterStatus == "all" || (if filterStatus == "completed" then todo.completed else !todo.completed)
  }

  predicate Keep(todo: Todo, searchTerm: string, filterPriority: string, filterStatus: string) {
    MatchesSearch(todo, searchTerm) && MatchesPriority(todo, filterPriority) && MatchesStatus(todo, filterStatus)
  }

  function KeepFilter(searchTerm: string, filterPriority: string, filterStatus: string): Todo -> bool {
    (t: Todo) => Keep(t, searchTerm, filterPriority, filterStatus)
  }

  /** `filteredTodos`: the todos that pass all three tests, in their original order. */
  function FilteredTodos(todos: seq<Todo>, searchTerm: string, filterPriority: string, filterStatus: string)
    : (r: seq<Todo>)
    ensures IsSubsequence(r, todos)
    ensures forall i :: 0 <= i < |r| ==> Keep(r[i], searchTerm, filterPriority, filterStatus)
    ensures forall i :: 0 <= i < |todos| && Keep(todos[i], searchTerm, filterPriority, filterStatus) ==> todos[i] in r
  {
    FilterIsSubsequence(todos, KeepFilter(searchTerm, filterPriority, filterStatus));
    Filter(todos, KeepFilter(searchTerm, filterPriority, filterStatus))
  }

  /** An empty search term matches every todo. */
  lemma EmptySearchMatchesAll(todo: Todo)
    ensures MatchesSearch(todo, "")
  {
    assert ToLower("") == "";
    ContainsEmpty(ToLower(todo.title));
  }

  /** With both filters at `'all'` and no search term, the list is shown unchanged. */
  lemma NoFilterKeepsAll(todos: seq<Todo>)
    ensures FilteredTodos(todos, "", "all", "all") == todos
  {
    forall t | t in todos
      ensures KeepFilter("", "all", "all")(t)
    {
      EmptySearchMatchesAll(t);
    }
    FilterKeepsAll(todos, KeepFilter("", "all", "all"));
  }

  lemma {:induction false} ToLowerIdempotent(s: string)
    ensures ToLower(ToLower(s)) == ToLower(s)
  {
  }

  /** The search does not depend on the case of the search term. */
  lemma SearchIgnoresTermCase(todo: Todo, searchTerm: string)
    ensures MatchesSearch(todo, searchTerm) == MatchesSearch(todo, ToLower(searchTerm))
  {
    ToLowerIdempotent(searchTerm);
  }

  /** Filtering on one digit `k` keeps exactly the todos of priority `k`. */
  lemma PriorityFilterSelectsDigit(todo: Todo, k: int)
    requires 0 <= k <= 9
    ensures MatchesPriority(todo, [DigitChar(k)]) <==> todo.priority == k
  {
    var p := todo.priority;
    if 0 <= p <= 9 {
      assert DecimalString(p) == [DigitChar(p)];
      if DigitChar(p) == DigitChar(k) {
        assert "0123456789"[p] == "0123456789"[k];
      }
    }
  }

  /** The rows of page `page`: `filtered.slice(page * rowsPerPage, page * rowsPerPage + rowsPerPage)`. */
  function PageRows(filtered: seq<Todo>, page: nat, rowsPerPage: nat): (r: seq<Todo>)
    ensures |r| <= rowsPerPage
    ensures page * rowsPerPage >= |filtered| ==> r == []
    ensures forall i :: 0 <= i < |r| ==> page * rowsPerPage + i < |filtered| && r[i] == filtered[page * rowsPerPage + i]
    ensures page * rowsPerPage < |filtered| ==>
      |r| == if page * rowsPerPage + rowsPerPage <= |filtered| then rowsPerPage else |filtered| - page * rowsPerPage
  {
    var start := page * rowsPerPage;
    Slice(filtered, start, start + rowsPerPage)
  }

  /** The table's paging state. */
  datatype Pagination = Pagination(page: nat, rowsPerPage: nat)

  const InitialPagination := Pagination(0, 10)

  /** `handleChangeRowsPerPage`, with the parsed number as input: the page goes back to 0. */
  function ChangeRowsPerPage(p: Pagination, rowsPerPage: nat): (r: Pagination)
    ensures r.page == 0 && r.rowsPerPage == rowsPerPage
  {
    p.(rowsPerPage := rowsPerPage).(page := 0)
  }

  /** After a rows-per-page change the table shows the first rows of the filtered list. */
  lemma ChangeRowsShowsFirstRows(p: Pagination, rowsPerPage: nat, filtered: seq<Todo>)
    ensures var q := ChangeRowsPerPage(p, rowsPerPage);
      PageRows(filtered, q.page, q.rowsPerPage) == filtered[..if rowsPerPage < |filtered| then rowsPerPage else |filtered|]
  {
  }

  /** MUI chip colours used for priorities. */
  datatype ChipColor = Error | Warning | Info | Default

  /** `getPriorityColor` */
  function PriorityColor(priority: int): (c: ChipColor)
    ensures c == Error <==> priority == 5
    ensures c == Warning <==> priority == 4
    ensures c == Info <==> priority == 3
    ensures c == Default <==> priority != 3 && priority != 4 && priority != 5
  {
    match priority
    case 5 => Error
    case 4 => Warning
    case 3 => Info
    case _ => Default
  }

  /** On the 1..5 scale the two alarm colours mark exactly the priorities the dashboard
      counts as high (at least 4). */
  lemma AlarmColorsAreHighPriority(priority: int)
    requires 1 <= priority <= 5
    ensures PriorityColor(priority) in {Error, Warning} <==> priority >= 4
  {
  }

  /** The patch of the row's completion toggle: the whole item with `completed` flipped. */
  function TogglePatch(todo: Todo): (r: TodoPatch)
    ensures r.id == todo.id && r.userId == todo.userId && r.createdAt == todo.createdAt
    ensures r.fields.completed != todo.completed
  {
    TodoPatch(todo.id, NewTodo(todo.title, todo.description, todo.dueDate, todo.priority, !todo.completed),
              todo.createdAt, todo.userId)
  }

  /** Unlike the dialog's edit, the toggle spreads the whole item, so the item the store
      keeps afterwards differs from the old one only in `completed` and `updatedAt`. */
  lemma ToggleKeepsTheRest(todo: Todo, now: string)
    ensures UpdateTodoThunk(TogglePatch(todo), now) == todo.(completed := !todo.completed, updatedAt := now)
    ensures forall uid :: OwnedBy(uid)(UpdateTodoThunk(TogglePatch(todo), now)) == OwnedBy(uid)(todo)
  {
  }
}
