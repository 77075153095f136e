/** The optional value used for JavaScript's `undefined`/`null` and for absent table entries. */
module Options {

  datatype Option<+T> = None | Some(value: T) {

    /** Returns the value held in Some, or the given default when None. */
    function GetOr(default: T): (r: T)
      ensures Some? ==> r == value
      ensures None? ==> r == default
    {
      match this
      case Some(v) => v
      case None => default
    }
  }
}
