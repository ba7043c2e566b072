/** Optional values, results of computations that may raise, and Python's
    truthiness of an optional string (a JSON string or null). */
module Wrappers {

  /** A value that may be absent: Python's None, or a JSON null. */
  datatype Option<+T> = None | Some(value: T)

  /** The Python exceptions the modelled code can raise. */
  datatype PyError =
    | NameError(name: string)     // a name used but never defined or imported
    | TypeError                   // e.g. subscripting None
    | AttributeError              // e.g. calling a str method on None
    | ValueError                  // e.g. int() of a non-numeric string

  /** The outcome of an expression that either yields a value or raises. */
  datatype Result<+T> = Ok(value: T) | Err(error: PyError)

  /** `bool(x)` for a value that is a string or None: None and "" are falsy. */
  predicate Truthy(o: Option<string>) {
    o.Some? && o.value != ""
  }

  /** `f"{x}"` for a value that is a string or None. */
  function PyStr(o: Option<string>): string {
    match o
    case None => "None"
    case Some(s) => s
  }
}
