/** Option and Result, the two failure-carrying shapes the model uses in
    place of Rust's `Option<T>` and `Result<T, dsync::Error>`. */
module Wrappers {

  datatype Option<+T> = None | Some(value: T) {

    predicate IsFailure() {
      None?
    }

    function PropagateFailure<U>(): Option<U>
      requires None?
    {
      None
    }

    function Extract(): T
      requires Some?
    {
      value
    }

    /** Rust's `unwrap_or`. */
    function GetOr(default: T): T {
      match this
      case Some(v) => v
      case None => default
    }

    /** Rust's `Option::or`: this value if present, otherwise `other`. */
    function Or(other: Option<T>): Option<T> {
      if Some? then this else other
    }
  }
}

/** The error kinds the modelled core reports. */
module Errors {

  datatype Error =
    | UnsupportedSchemaFormat(reason: string)
    | UnsupportedType(reason: string)
    | NoFileSignature(path: seq<string>)
    | NotADirectory(reason: string, path: seq<string>)
    | IoError(path: seq<string>)
    | Other(reason: string)
      /** a Rust `panic!`/`expect` in the source, made visible as a value */
    | Panic(reason: string)

  datatype Result<+T> = Ok(value: T) | Err(error: Error) {

    predicate IsFailure() {
      Err?
    }

    function PropagateFailure<U>(): Result<U>
      requires Err?
    {
      Err(error)
    }

    function Extract(): T
      requires Ok?
    {
      value
    }
  }
}
