/** The optional value used across the model: `None` stands for JavaScript's
    `undefined`/`null` or for a lookup that found nothing. */
module Wrappers {

  datatype Option<+T> = None | Some(value: T) {
    function GetOr(default: T): T {
      match this
      case Some(v) => v
      case None => default
    }
  }
}
