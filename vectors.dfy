/** Outcome types standing for the exceptions the Python code raises. */
module Results {

  /** A computed value, or the error the computation raised instead. */
  datatype Result<+T, +E> = Success(value: T) | Failure(error: E)

  /** Completion of an operation that returns nothing, or the error it raised. */
  datatype Outcome<+E> = Pass | Fail(error: E)
}

/** The representation shared by both components: a shape is an ordered
    sequence of position vectors, a vector a sequence of coordinates. */
module Vectors {

  /** One n-dimensional position vector. Coordinates are exact reals: the
      floating-point rounding of the original is not modelled. */
  type Vector = seq<real>

  /** A shape: the caller's list of position vectors, in order. */
  type Shape = seq<Vector>
}
