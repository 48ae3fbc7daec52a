/** The create / edit / delete dialog for to-dos: its title and button texts, the form
    reset effect, and `handleSubmit`'s validation, choice of operation and outcome. */
module TodoDialog {
  import opened Wrappers
  import opened Strings
  import opened UiSlice
  import TodoSlice

  /** `getDialogTitle` */
  function DialogTitle(kind: Option<DialogType>): (r: string)
    ensures r == "" <==> kind.None?
  {
    match kind
    case Some(Create) => "新增待辦事項"
    case Some(Edit) => "編輯待辦事項"
    case Some(Delete) => "確認刪除"
    case None => ""
  }

  /** `getSubmitButtonText` */
  function SubmitButtonText(kind: Option<DialogType>): (r: string)
    ensures r == "" <==> kind.None?
  {
    match kind
    case Some(Create) => "新增"
    case Some(Edit) => "儲存"
    case Some(Delete) => "刪除"
    case None => ""
  }

  /** Each dialog kind has its own title and its own button. */
  lemma TextsTellKindsApart(a: Option<DialogType>, b: Option<DialogType>)
    ensures DialogTitle(a) == DialogTitle(b) <==> a == b
    ensures SubmitButtonText(a) == SubmitButtonText(b) <==> a == b
  {
    if a != b && a.Some? && b.Some? {
      assert DialogTitle(a)[0] != DialogTitle(b)[0];
      assert SubmitButtonText(a)[0] != SubmitButtonText(b)[0];
    }
  }

  const BlankTitleMessage := "標題不能為空"
  const MissingDueDateMessage := "到期日不能為空"
  const FailedMessage := "操作失敗"
  const DefaultPriority := 3

  /** What the dialog dispatches to the to-do thunks. */
  datatype TodoRequest =
    | AddRequest(todo: TodoSlice.NewTodo)
    | UpdateRequest(patch: TodoSlice.TodoPatch)
    | DeleteRequest(id: string)

  function SuccessMessage(request: TodoRequest): string {
    match request
    case AddRequest(_) => "待辦事項已新增"
    case UpdateRequest(_) => "待辦事項已更新"
    case DeleteRequest(_) => "待辦事項已刪除"
  }

  /** The checks before anything is dispatched: only create and edit are checked, the
      title (after trimming) before the due date. */
  function ValidationError(kind: Option<DialogType>, title: string, dueDate: Option<string>): (r: Option<string>)
    ensures r.Some? <==> (kind == Some(Create) || kind == Some(Edit)) && (IsBlank(title) || dueDate.None?)
    ensures r.Some? ==> r.value == (if IsBlank(title) then BlankTitleMessage else MissingDueDateMessage)
  {
    TrimIsEmptyIffBlank(title);
    if kind == Some(Create) || kind == Some(Edit) then
      if Trim(title) == "" then Some(BlankTitleMessage)
      else if dueDate.None? then Some(MissingDueDateMessage)
      else None
    else None
  }

  /** The operation `handleSubmit` dispatches, if any; `data?.id` is truthy when the id is non-empty. */
  function Request(kind: Option<DialogType>, data: Option<TodoSlice.Todo>, title: string,
                   description: string, dueDate: Option<string>, priority: int): (r: Option<TodoRequest>)
    ensures kind.None? ==> r.None?
    ensures r.Some? && r.value.AddRequest? ==>
      kind == Some(Create) && dueDate.Some? && !r.value.todo.completed
      && r.value.todo == TodoSlice.NewTodo(title, description, dueDate.value, priority, false)
    ensures r.Some? && r.value.UpdateRequest? ==>
      && kind == Some(Edit) && data.Some? && data.value.id != "" && dueDate.Some?
      && r.value.patch == TodoSlice.TodoPatch(data.value.id,
           TodoSlice.NewTodo(title, description, dueDate.value, priority, data.value.completed), None, None)
    ensures r.Some? && r.value.DeleteRequest? ==>
      kind == Some(Delete) && data.Some? && data.value.id != "" && r.value.id == data.value.id
    ensures kind == Some(Create) ==> (r.Some? <==> dueDate.Some?)
    ensures kind == Some(Edit) ==> (r.Some? <==> data.Some? && data.value.id != "" && dueDate.Some?)
    ensures kind == Some(Delete) ==> (r.Some? <==> data.Some? && data.value.id != "")
  {
    if kind == Some(Create) && dueDate.Some? then
      Some(AddRequest(TodoSlice.NewTodo(title, description, dueDate.value, priority, false)))
    else if kind == Some(Edit) && data.Some? && data.value.id != "" && dueDate.Some? then
      Some(UpdateRequest(TodoSlice.TodoPatch(data.value.id,
        TodoSlice.NewTodo(title, description, dueDate.value, priority, data.value.completed), None, None)))
    else if kind == Some(Delete) && data.Some? && data.value.id != "" then
      Some(DeleteRequest(data.value.id))
    else None
  }

  /** Whatever passes validation and is sent as a create or an edit has a non-blank title. */
  lemma SubmittedTitleIsNotBlank(kind: Option<DialogType>, data: Option<TodoSlice.Todo>, title: string,
                                 description: string, dueDate: Option<string>, priority: int)
    requires ValidationError(kind, title, dueDate).None?
    requires Request(kind, data, title, description, dueDate, priority).Some?
    ensures var request := Request(kind, data, title, description, dueDate, priority).value;
      (request.AddRequest? ==> !IsBlank(request.todo.title)) && (request.UpdateRequest? ==> !IsBlank(request.patch.fields.title))
  {
  }

  /** An edit sends only the form fields and the id, and the `updateTodo` result replaces
      the stored item: the item the store then holds has no owner and no creation time, so
      no owner filter matches it, although its id, form fields and `completed` are kept. */
  lemma EditDropsOwnerAndCreation(kind: Option<DialogType>, data: Option<TodoSlice.Todo>, title: string,
                                  description: string, dueDate: Option<string>, priority: int, now: string)
    requires Request(kind, data, title, description, dueDate, priority).Some?
    requires Request(kind, data, title, description, dueDate, priority).value.UpdateRequest?
    ensures var stored := TodoSlice.UpdateTodoThunk(Request(kind, data, title, description, dueDate, priority).value.patch, now);
      && stored.id == data.value.id && stored.completed == data.value.completed
      && stored.title == title && stored.updatedAt == now
      && stored.userId == None && stored.createdAt == None
      && forall uid :: !TodoSlice.OwnedBy(uid)(stored)
  {
  }

  /** The dialog's local form state. */
  class TodoDialogForm {
    var title: string
    var description: string
    /** The picked due date, already in ISO form; `None` is a cleared picker. */
    var dueDate: Option<string>
    var priority: int

    constructor (now: string)
      ensures title == "" && description == "" && dueDate == Some(now) && priority == DefaultPriority
    {
      title, description, dueDate, priority := "", "", Some(now), DefaultPriority;
    }

    /** The effect on `[open, type, data]`: an open edit dialog with data loads the to-do,
        anything else resets the form to its defaults. */
    method Reset(dialog: Dialog, now: string)
      modifies this
      ensures dialog.open && dialog.kind == Some(Edit) && dialog.data.Some? ==>
        var todo := dialog.data.value;
        title == todo.title && description == todo.description && dueDate == Some(todo.dueDate) && priority == todo.priority
      ensures !(dialog.open && dialog.kind == Some(Edit) && dialog.data.Some?) ==>
        title == "" && description == "" && dueDate == Some(now) && priority == DefaultPriority
    {
      if dialog.open && dialog.kind == Some(Edit) && dialog.data.Some? {
        var todo := dialog.data.value;
        title := todo.title;
        description := todo.description;
        dueDate := Some(todo.dueDate);
        priority := todo.priority;
      } else {
        title := "";
        description := "";
        dueDate := Some(now);
        priority := DefaultPriority;
      }
    }

    /** `handleSubmit`, with the dialog read from the store. `throws` is whether the
        dispatched thunk rejects. A validation error leaves the dialog open; otherwise the
        dialog closes unless the operation throws, even when no operation applied. */
    method HandleSubmit(ui: UiStore, throws: bool) returns (request: Option<TodoRequest>)
      modifies ui
      ensures var d := old(ui.dialog);
        var err := ValidationError(d.kind, title, dueDate);
        && (err.Some? ==> request.None? && ui.dialog == d && ui.snackbar == Snackbar(true, err.value, Error))
        && (err.None? ==> request == Request(d.kind, d.data, title, description, dueDate, priority))
        && (err.None? && request.Some? && throws ==>
              ui.dialog == d && ui.snackbar == Snackbar(true, FailedMessage, Error))
        && (err.None? && request.Some? && !throws ==>
              ui.dialog == InitialDialog && ui.snackbar == Snackbar(true, SuccessMessage(request.value), Severity.Success))
        && (err.None? && request.None? ==> ui.dialog == InitialDialog && ui.snackbar == old(ui.snackbar))
    {
      var kind := ui.dialog.kind;
      var err := ValidationError(kind, title, dueDate);
      if err.Some? {
        ui.ShowSnackbar(err.value, Error);
        return None;
      }
      request := Request(kind, ui.dialog.data, title, description, dueDate, priority);
      if request.Some? {
        if throws {
          ui.ShowSnackbar(FailedMessage, Error);
          return;
        }
        ui.ShowSnackbar(SuccessMessage(request.value), Severity.Success);
      }
      ui.HideDialog();
    }
  }
}
