/** The misuse signals raised by the variant-specific accessors, and the
    outcome of a call that may raise instead of returning. */
module Exceptions {

  /** Raised by unwrap/unwrapError on the wrong variant: the accessor's name and the
      name of the variant actually found. The formatted message is not modelled. */
  datatype UnwrapException = UnwrapException(call: string, valType: string)

  /** Raised by expect/expectError on the wrong variant: the caller's message and the
      payload of the variant actually found. */
  datatype ExpectException<P> = ExpectException(message: string, payload: P)

  /** What a call did: returned a value, or raised an exception. */
  datatype Outcome<T, X> = Returned(value: T) | Threw(exception: X)
}
