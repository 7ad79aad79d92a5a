/** The optional values of the rules engine: a dictionary key that may be
    absent (`dict.get`), the `None` condition id of the no-match result, and
    the result of a parse that may fail. */
module Options {

  datatype Option<+T> = None | Some(value: T) {

    /** The wrapped value, or `default` when there is none (`dict.get(k, default)`). */
    function GetOr(default: T): (r: T)
    {
      match this
      case Some(v) => v
      case None => default
    }
  }
}
