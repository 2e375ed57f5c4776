/**
 * The page's single toast slot (pages/index.tsx:49-58): what a success or
 * error toast shows and after how many milliseconds its dismissal is scheduled.
 */
module Notifications {
  import opened Wrappers

  datatype ToastKind = SuccessToast | ErrorToast

  /** The `{ type, msg }` object held in the toast slot. */
  datatype Toast = Toast(kind: ToastKind, msg: string)

  /**
   * What the page reads from a caught error: the `message` of its response
   * body, None when the error has no response, body or message.
   */
  datatype Thrown = Thrown(message: Option<string>)

  const UnknownErrorMessage := "Unknown error"
  const SuccessDismissMs: nat := 3000
  const ErrorDismissMs: nat := 5000

  /** The text of an error toast: the error's message when it is non-empty, otherwise "Unknown error". */
  function ErrorText(e: Thrown): (msg: string)
    ensures msg != ""
    ensures e.message.Some? && e.message.value != "" ==> msg == e.message.value
    ensures e.message.None? || e.message.value == "" ==> msg == UnknownErrorMessage
  {
    match e.message
    case Some(m) => if m != "" then m else UnknownErrorMessage
    case None => UnknownErrorMessage
  }

  /** The delay of the `setTimeout` that clears the slot after a toast of this kind. */
  function DismissDelay(kind: ToastKind): (ms: nat)
    ensures kind == SuccessToast ==> ms == 3000
    ensures kind == ErrorToast ==> ms == 5000
    ensures ms > 0
  {
    match kind
    case SuccessToast => SuccessDismissMs
    case ErrorToast => ErrorDismissMs
  }
}
