/** The `todos` slice of the Redux store: the list of to-do items with its loading
    and error flags, the reducers of the thunk outcomes, and the guards and record
    construction of the thunks (the Firestore calls themselves are parameters). */
module TodoSlice {
  import opened Wrappers
  import opened Strings
  import opened Seqs
  import AuthSlice

  /** A to-do item as the store holds it; dates are ISO strings. `createdAt` and `userId`
      are `None` when the item came back from an update whose patch did not carry them. */
  datatype Todo = Todo(id: string, title: string, description: string, dueDate: string,
                       priority: int, completed: bool, createdAt: Option<string>, updatedAt: string,
                       userId: Option<string>)

  /** The payload of `addTodo`: a to-do without id, timestamps and owner. */
  datatype NewTodo = NewTodo(title: string, description: string, dueDate: string,
                             priority: int, completed: bool)

  /** The payload of `updateTodo`: the id, the editable fields, and the creation time and
      owner when the caller passes them along. */
  datatype TodoPatch = TodoPatch(id: string, fields: NewTodo, createdAt: Option<string>,
                                 userId: Option<string>)

  const NotAuthenticatedMessage := "User not authenticated"
  const FetchFailedMessage := "Failed to fetch todos"

  /** `items.findIndex(todo => todo.id === id)` */
  function FindIndex(items: seq<Todo>, id: string): (r: int)
    ensures -1 <= r < |items|
    ensures r == -1 <==> forall i :: 0 <= i < |items| ==> items[i].id != id
    ensures r >= 0 ==> items[r].id == id && forall i :: 0 <= i < r ==> items[i].id != id
  {
    if items == [] then -1
    else if items[0].id == id then 0
    else
      var r := FindIndex(items[1..], id);
      if r == -1 then -1 else r + 1
  }

  /** The filter callback of `deleteTodo.fulfilled`. */
  function KeepOthers(id: string): Todo -> bool {
    (t: Todo) => t.id != id
  }

  /** The filter callback of the owner query in `fetchTodos`. */
  function OwnedBy(uid: string): Todo -> bool {
    (t: Todo) => t.userId == Some(uid)
  }

  class TodoStore {
    var items: seq<Todo>
    var loading: bool
    var error: Option<string>

    /** `initialState` */
    constructor ()
      ensures items == [] && !loading && error == None
    {
      items, loading, error := [], false, None;
    }

    /** `fetchTodos.pending` */
    method FetchPending()
      modifies this
      ensures loading && error == None && items == old(items)
    {
      loading := true;
      error := None;
    }

    /** `fetchTodos.fulfilled` */
    method FetchFulfilled(payload: seq<Todo>)
      modifies this
      ensures items == payload && !loading && error == old(error)
    {
      items := payload;
      loading := false;
    }

    /** `fetchTodos.rejected`: the error message, or a fixed text when it is empty. */
    method FetchRejected(message: Option<string>)
      modifies this
      ensures !loading && items == old(items)
      ensures error == Some(if Truthy(message) then message.value else FetchFailedMessage)
    {
      loading := false;
      error := Some(if Truthy(message) then message.value else FetchFailedMessage);
    }

    /** `addTodo.fulfilled`: appends the new item. */
    method AddFulfilled(todo: Todo)
      modifies this
      ensures items == old(items) + [todo]
      ensures loading == old(loading) && error == old(error)
    {
      items := items + [todo];
    }

    /** `updateTodo.fulfilled`: replaces the first item with the same id, if any. */
    method UpdateFulfilled(todo: Todo)
      modifies this
      ensures |items| == |old(items)|
      ensures (forall i :: 0 <= i < |old(items)| ==> old(items)[i].id != todo.id) ==> items == old(items)
      ensures forall k ::
        (0 <= k < |old(items)| && old(items)[k].id == todo.id && forall i :: 0 <= i < k ==> old(items)[i].id != todo.id)
        ==> items == old(items)[k := todo]
      ensures loading == old(loading) && error == old(error)
    {
      var index := FindIndex(items, todo.id);
      if index != -1 {
        items := items[index := todo];
      }
    }

    /** `deleteTodo.fulfilled`: keeps the items with another id, in order. */
    method DeleteFulfilled(id: string)
      modifies this
      ensures items == Filter(old(items), KeepOthers(id))
      ensures forall i :: 0 <= i < |items| ==> items[i].id != id
      ensures forall i :: 0 <= i < |old(items)| && old(items)[i].id != id ==> old(items)[i] in items
      ensures IsSubsequence(items, old(items))
      ensures loading == old(loading) && error == old(error)
    {
      FilterIsSubsequence(items, KeepOthers(id));
      items := Filter(items, KeepOthers(id));
    }
  }

  /** The `fetchTodos` thunk: refuses without a user, otherwise keeps the documents
      of `docs` (the `todos` collection, in the order Firestore returns it) that the user owns. */
  function FetchTodosThunk(user: Option<AuthSlice.User>, docs: seq<Todo>): (r: Result<seq<Todo>, string>)
    ensures user == None <==> r == Failure(NotAuthenticatedMessage)
    ensures r.Success? ==> forall i :: 0 <= i < |r.value| ==> r.value[i] in docs && r.value[i].userId == Some(user.value.uid)
    ensures r.Success? ==> forall i :: 0 <= i < |docs| && docs[i].userId == Some(user.value.uid) ==> docs[i] in r.value
  {
    match user
    case None => Failure(NotAuthenticatedMessage)
    case Some(u) => Success(Filter(docs, OwnedBy(u.uid)))
  }

  /** The `addTodo` thunk: refuses without a user; otherwise the stored record is the
      payload plus the owner, both timestamps (`now`) and the new document id. */
  function AddTodoThunk(user: Option<AuthSlice.User>, newTodo: NewTodo, docId: string, now: string)
    : (r: Result<Todo, string>)
    ensures user == None <==> r == Failure(NotAuthenticatedMessage)
    ensures r.Success? ==>
      && r.value.id == docId && r.value.userId == Some(user.value.uid)
      && r.value.createdAt == Some(now) && r.value.updatedAt == now
      && NewTodo(r.value.title, r.value.description, r.value.dueDate, r.value.priority, r.value.completed) == newTodo
  {
    match user
    case None => Failure(NotAuthenticatedMessage)
    case Some(u) =>
      Success(Todo(docId, newTodo.title, newTodo.description, newTodo.dueDate, newTodo.priority,
                   newTodo.completed, Some(now), now, Some(u.uid)))
  }

  /** The `updateTodo` thunk: what it returns, and the reducer stores, is the patch itself
      with a fresh `updatedAt`; a field the patch does not carry is absent from the result. */
  function UpdateTodoThunk(patch: TodoPatch, now: string): (r: Todo)
    ensures r.id == patch.id && r.updatedAt == now
    ensures NewTodo(r.title, r.description, r.dueDate, r.priority, r.completed) == patch.fields
    ensures r.createdAt == patch.createdAt && r.userId == patch.userId
  {
    Todo(patch.id, patch.fields.title, patch.fields.description, patch.fields.dueDate,
         patch.fields.priority, patch.fields.completed, patch.createdAt, now, patch.userId)
  }
}
