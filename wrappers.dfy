/** Small value wrappers shared by every module of the model. */
module Wrappers {

  /** A value that may be absent: an optional TypeScript field, a `null`
      store entry, or a JavaScript number that is NaN. */
  datatype Option<+T> = None | Some(value: T) {
    function GetOr(default: T): T {
      match this
      case Some(v) => v
      case None => default
    }
  }

  /** The outcome of a form's submit handler.
      - Skipped: the handler returned before validating (no route id).
      - Invalid: validation failed; the page shows an alert and dispatches nothing.
      - Sent(payload): the payload handed to the store's async thunk. */
  datatype Submission<+P> = Skipped | Invalid | Sent(payload: P)
}
