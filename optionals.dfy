/** The two platform notions of an absent value that the Result type converts from and to. */
module Optionals {

  /** An optional container: empty, or holding exactly one value. */
  datatype Optional<T> = Empty | Of(value: T) {

    /** Applies `mapper` to a present value; an empty optional stays empty. */
    function Map<U>(mapper: T -> U): Optional<U>
    {
      match this
      case Of(v) => Of(mapper(v))
      case Empty => Empty
    }

    /** The present value, or `other` when empty. */
    function OrElse(other: T): T
    {
      match this
      case Of(v) => v
      case Empty => other
    }
  }

  /** A reference that may be null. */
  datatype Nullable<T> = Null | NonNull(value: T)
}
