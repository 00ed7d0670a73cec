/** A value that may be absent: JavaScript's `undefined` where the supervisor tests for it. */
module Optional {
  datatype Option<+T> = None | Some(value: T) {
    function GetOr(default: T): T {
      match this
      case Some(v) => v
      case None => default
    }
  }
}
