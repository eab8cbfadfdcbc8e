/** Option and Result, the two wrapper types the model uses for absent values and raised errors. */
module Wrappers {
  datatype Option<+T> = None | Some(value: T)
  {
    function GetOr(default: T): (r: T)
      ensures this.Some? ==> r == value
      ensures this.None? ==> r == default
    {
      match this
      case None => default
      case Some(v) => v
    }
  }

  /** A Python exception is modelled as `Err` carrying the message kind. */
  datatype Result<+T> = Ok(value: T) | Err(error: string)

  /** Sequence concatenation regroups; stated once so that callers need not re-derive it element by element. */
  lemma ConcatAssoc<T>(x: seq<T>, y: seq<T>, z: seq<T>)
    ensures (x + y) + z == x + (y + z)
  {
  }
}
