/** The confirmation dialog: its slice (open flag and texts) and the
    container that keeps the confirm and cancel callbacks outside the store. */
module ConfirmModal {
  import opened Js

  const DefaultTitle: string := "Подтверждение"
  const DefaultConfirmText: string := "Подтвердить"
  const DefaultCancelText: string := "Отмена"

  datatype ModalState = ModalState(isOpen: bool, title: string, message: string, confirmText: string, cancelText: string)

  /** The closed dialog; note its title is empty, not the open default. */
  const Initial: ModalState := ModalState(false, "", "", DefaultConfirmText, DefaultCancelText)

  /** `value || fallback` for a text field: absent or empty falls back. */
  function OrText(value: Option<string>, fallback: string): (r: string)
    ensures value.Some? && value.value != "" ==> r == value.value
    ensures value.None? || value == Some("") ==> r == fallback
  {
    if value.Some? && value.value != "" then value.value else fallback
  }

  /** `openConfirmModal`: opens with the given texts, each falling back to its
      default when absent or empty. */
  function Open(s: ModalState, title: Option<string>, message: Option<string>,
                confirmText: Option<string>, cancelText: Option<string>): (r: ModalState)
    ensures r.isOpen
    ensures r.title != "" && r.confirmText != "" && r.cancelText != ""
    ensures title.Some? && title.value != "" ==> r.title == title.value
    ensures title.None? || title == Some("") ==> r.title == DefaultTitle
    ensures message.Some? ==> r.message == message.value
    ensures message.None? ==> r.message == ""
    ensures confirmText.Some? && confirmText.value != "" ==> r.confirmText == confirmText.value
    ensures confirmText.None? || confirmText == Some("") ==> r.confirmText == DefaultConfirmText
    ensures cancelText.Some? && cancelText.value != "" ==> r.cancelText == cancelText.value
    ensures cancelText.None? || cancelText == Some("") ==> r.cancelText == DefaultCancelText
  {
    ModalState(true, OrText(title, DefaultTitle), OrText(message, ""),
               OrText(confirmText, DefaultConfirmText), OrText(cancelText, DefaultCancelText))
  }

  /** `closeConfirmModal`: back to the initial state, whatever was open. */
  function Close(s: ModalState): (r: ModalState)
    ensures !r.isOpen && r == Initial
  {
    ModalState(false, "", "", DefaultConfirmText, DefaultCancelText)
  }

  /** The two callback slots; a callback is identified by a number. */
  datatype Callbacks = Callbacks(onConfirm: Option<nat>, onCancel: Option<nat>)

  /** The dialog's slice together with the callback registry. */
  datatype Dialog = Dialog(modal: ModalState, callbacks: Callbacks)

  /** `setConfirmModalCallbacks`. */
  function SetCallbacks(d: Dialog, onConfirm: Option<nat>, onCancel: Option<nat>): (r: Dialog)
    ensures r.callbacks == Callbacks(onConfirm, onCancel) && r.modal == d.modal
  {
    d.(callbacks := Callbacks(onConfirm, onCancel))
  }

  /** `handleConfirm`: runs the confirm callback if one is set (reported in
      the result), clears both slots and closes the dialog. */
  function HandleConfirm(d: Dialog): (r: (Dialog, Option<nat>))
    ensures r.1 == d.callbacks.onConfirm
    ensures r.0.callbacks == Callbacks(None, None) && r.0.modal == Initial
  {
    (Dialog(Close(d.modal), Callbacks(None, None)), d.callbacks.onConfirm)
  }

  /** `handleCancel`: the same with the cancel callback. */
  function HandleCancel(d: Dialog): (r: (Dialog, Option<nat>))
    ensures r.1 == d.callbacks.onCancel
    ensures r.0.callbacks == Callbacks(None, None) && r.0.modal == Initial
  {
    (Dialog(Close(d.modal), Callbacks(None, None)), d.callbacks.onCancel)
  }

  /** Open then close leaves nothing behind, and a callback runs at most once:
      a second confirm or cancel after the first finds no callback. */
  lemma CallbacksRunOnce(d: Dialog, t: Option<string>, m: Option<string>, c1: nat, c2: nat)
    ensures Close(Open(d.modal, t, m, None, None)) == Initial
    ensures var d1 := SetCallbacks(d, Some(c1), Some(c2));
      && HandleConfirm(d1).1 == Some(c1)
      && HandleConfirm(HandleConfirm(d1).0).1.None?
      && HandleCancel(HandleConfirm(d1).0).1.None?
      && HandleCancel(d1).1 == Some(c2)
      && HandleConfirm(HandleCancel(d1).0).1.None?
  {
  }
}
