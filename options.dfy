/** The optional value used for the source's `undefined` / `null` cases. */
module Options {

  datatype Option<+T> = None | Some(value: T) {

    /** The wrapped value, or `default` when there is none (the `??` operator). */
    function GetOr(default: T): (r: T)
      ensures Some? ==> r == value
      ensures None? ==> r == default
    {
      match this
      case Some(v) => v
      case None => default
    }

    /** This value if there is one, else `other` (the `??` operator on optional operands). */
    function OrElse(other: Option<T>): (r: Option<T>)
      ensures Some? ==> r == this
      ensures None? ==> r == other
    {
      if Some? then this else other
    }
  }
}
