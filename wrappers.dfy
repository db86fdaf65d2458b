/** The optional value used for JavaScript's `null`/`undefined`. */
module Wrappers {

  datatype Option<T> = None | Some(value: T)
  {
    /** `o ?? fallback` */
    function GetOr(fallback: T): T
    {
      match this
      case None => fallback
      case Some(v) => v
    }
  }
}
