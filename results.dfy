/** Optional values and the outcome of a Python call that may raise. */
module Results {

  datatype Option<+T> = None | Some(value: T)

  /** A Python exception, by class name and message. */
  datatype Exception = Exception(kind: string, message: string)

  /** What a Python call did: returned a value or raised an exception. */
  datatype Result<+T> = Ok(value: T) | Raised(error: Exception)

  /** The exception Python raises for `x / 0.0`. */
  const ZeroDivision := Exception("ZeroDivisionError", "float division by zero")

  /** Python truthiness of an optional string: `None` and `""` are false. */
  predicate Truthy(s: Option<string>) {
    s.Some? && s.value != ""
  }
}
