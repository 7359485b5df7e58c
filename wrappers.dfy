/** The optional value of the model: JavaScript's `undefined`/`null` versus a present value. */
module Wrappers {
  datatype Option<T> = None | Some(value: T) {
    predicate IsSome() { this.Some? }

    /** `x ?? d` */
    function GetOr(d: T): (r: T)
      ensures this.Some? ==> r == this.value
      ensures this.None? ==> r == d
    {
      match this
      case Some(v) => v
      case None => d
    }
  }
}
