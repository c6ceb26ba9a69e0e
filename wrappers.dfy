/** Option and outcome types shared by the whole model. */
module Wrappers {

  /** A value that may be missing (`undefined`/`null` in the source). */
  datatype Option<+T> = None | Some(value: T) {
    function GetOr(default: T): T {
      match this
      case Some(v) => v
      case None => default
    }
  }

  /** The result of a call into a service the model cannot see: it either answers or throws. */
  datatype Outcome<+T> = Answered(answer: T) | Threw
}
