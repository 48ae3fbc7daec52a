/** The `ui` slice of the Redux store: the global snackbar and the to-do dialog. */
module UiSlice {
  import opened Wrappers
  import TodoSlice

  /** MUI's `AlertColor`. */
  datatype Severity = Success | Info | Warning | Error

  /** The dialog kinds; `null` is `None` in `Option<DialogType>`. */
  datatype DialogType = Create | Edit | Delete

  datatype Snackbar = Snackbar(open: bool, message: string, severity: Severity)

  /** The dialog and the to-do it works on (`data` is `undefined` when `None`). */
  datatype Dialog = Dialog(kind: Option<DialogType>, open: bool, data: Option<TodoSlice.Todo>)

  const InitialSnackbar := Snackbar(false, "", Info)
  const InitialDialog := Dialog(None, false, None)

  class UiStore {
    var snackbar: Snackbar
    var dialog: Dialog

    /** `initialState` */
    constructor ()
      ensures snackbar == InitialSnackbar && dialog == InitialDialog
    {
      snackbar, dialog := InitialSnackbar, InitialDialog;
    }

    /** `showSnackbar`: opens the snackbar with the message and severity; the dialog is untouched. */
    method ShowSnackbar(message: string, severity: Severity)
      modifies this
      ensures snackbar == Snackbar(true, message, severity) && dialog == old(dialog)
    {
      snackbar := snackbar.(open := true);
      snackbar := snackbar.(message := message);
      snackbar := snackbar.(severity := severity);
    }

    /** `hideSnackbar`: closes it, keeping message and severity. */
    method HideSnackbar()
      modifies this
      ensures snackbar == old(snackbar).(open := false) && dialog == old(dialog)
    {
      snackbar := snackbar.(open := false);
    }

    /** `showDialog`: sets the kind, opens it and overwrites `data`, even with `undefined`. */
    method ShowDialog(kind: Option<DialogType>, data: Option<TodoSlice.Todo>)
      modifies this
      ensures dialog == Dialog(kind, true, data) && snackbar == old(snackbar)
    {
      dialog := dialog.(kind := kind);
      dialog := dialog.(open := true);
      dialog := dialog.(data := data);
    }

    /** `hideDialog`: back to the initial closed dialog, so hiding twice is hiding once. */
    method HideDialog()
      modifies this
      ensures dialog == InitialDialog && snackbar == old(snackbar)
    {
      dialog := dialog.(open := false);
      dialog := dialog.(kind := None);
      dialog := dialog.(data := None);
    }
  }
}
