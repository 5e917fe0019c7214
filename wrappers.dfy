/** Option and Result, and the exceptions the two compiler scripts can raise. */
module Wrappers {

  datatype Option<+T> = None | Some(value: T)

  /** The JavaScript exceptions raised on the modelled paths, named after their cause. */
  datatype Error =
    | NotIterable(what: string)   // `[...x]` where `x` is not iterable
    | NotAList(what: string)      // `x.map(...)` where `x` is not an array
    | NullProperty(what: string)  // a property read on `null` or `undefined`
    | NotAString(what: string)    // a string method called on something that is not a string
    | NoSuchMethod(what: string)  // a method called on a value whose type does not have it
    | MissingValue(line: string)  // `argKeyValue[1].trim()` when the line has no `=`
    | FetchFailed(url: string)    // a rejected remote template fetch

  /** A computation that either yields a value or throws. */
  datatype Result<+T> = Ok(value: T) | Err(error: Error) {
    predicate IsFailure() {
      Err?
    }

    function PropagateFailure<U>(): Result<U>
      requires Err?
    {
      Err(error)
    }

    function Extract(): T
      requires Ok?
    {
      value
    }
  }
}
