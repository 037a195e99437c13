/**
 What a call of one of the scoring functions comes to, in Python's terms:
 it returns a value, it falls off the end of its body and so returns None,
 or it raises an exception.
 */
module Outcomes {

  /** The exceptions the scoring functions can raise. */
  datatype PyError =
    | ZeroDivisionError   // a float or int divided by zero
    | UnboundLocalError   // a local read on a path that never assigned it
    | TypeError           // numpy arithmetic on an array holding None
    | ValueError          // np.dot of two vectors of different lengths

  datatype Outcome<T> =
    | Returns(value: T)
    | ReturnsNone
    | Raises(error: PyError)
}
