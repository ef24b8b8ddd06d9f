/** Small failure-carrying datatypes shared by the whole model. */
module Wrappers {

  /** A value that may be absent: PHP's `null` for a nullable scalar or array. */
  datatype Option<+T> = None | Some(value: T) {
    function GetOr(default: T): T
    {
      match this
      case Some(v) => v
      case None => default
    }
  }

  /** What a PHP call throws instead of returning. */
  datatype Error =
    | UninitializedProperty(property: string)  // reading a typed property that was never assigned
    | DeserializerError(message: string)       // the serializer rejected its input

  /** The outcome of a PHP call that may throw. */
  datatype Result<+T> = Ok(value: T) | Thrown(error: Error)

  /**
   * A PHP typed property declared without an initialiser: it holds no value
   * until it is first assigned, and reading it before then is an error.
   */
  datatype Slot<+T> = Uninitialized | Initialized(value: T) {
    function Read(property: string): Result<T>
    {
      match this
      case Initialized(v) => Ok(v)
      case Uninitialized => Thrown(UninitializedProperty(property))
    }
  }
}
