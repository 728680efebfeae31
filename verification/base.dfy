/** Optional values and results with an error, the two wrappers the model
    uses for Go's nil pointers and `(value, error)` returns. */
module Base {

  /** A possibly absent value: Go's nil pointer or absent optional field. */
  datatype Option<+T> = None | Some(value: T)

  /** Either a value or an error, for Go's `(value, error)` pairs. */
  datatype Result<+T, +E> = Success(value: T) | Failure(error: E)

  /** The value of `o`, or the empty sequence when `o` is absent
      (how a nil Go slice reads). */
  function Elements<T>(o: Option<seq<T>>): seq<T>
  {
    match o
    case None => []
    case Some(s) => s
  }
}
