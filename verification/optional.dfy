/** A value that may be absent: Python's `None` next to a present value. */
module Optional {

  datatype Option<+T> = None | Some(value: T) {

    /** The value if present, otherwise the given default (a `config(..., default=...)` lookup). */
    function GetOr(default: T): (r: T)
      ensures Some? ==> r == value
      ensures None? ==> r == default
    {
      match this
      case Some(v) => v
      case None => default
    }
  }
}
