/** Optional values and pass/fail outcomes, used for the logger's optional
    arguments (name, version, step) and for its unsupported operations. */
module Options {

  datatype Option<+T> = None | Some(value: T) {
    function GetOr(default: T): T {
      match this
      case Some(v) => v
      case None => default
    }
  }

  datatype Outcome<+E> = Pass | Fail(error: E)
}
