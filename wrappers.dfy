/** The optional value used for `Option<T>` returns and for the selection of a
    list or table widget (`ListState::selected`, `TableState::selected`). */
module Wrappers {

  datatype Option<+T> = None | Some(value: T) {

    /** The value, or `default` when there is none (`Option::unwrap_or`). */
    function UnwrapOr(default: T): T {
      match this
      case Some(v) => v
      case None => default
    }
  }
}
