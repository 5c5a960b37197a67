/** Option and Result datatypes, and the Python exceptions the modelled code can raise. */
module Wrappers {

  datatype Option<+T> = None | Some(value: T)

  /** The Python exceptions that the modelled functions let escape to their callers. */
  datatype Error =
    | KeyError(key: string)      // a missing dictionary key or DataFrame column
    | MissingColumns(names: seq<string>)  // `KeyError` of `df[list]`: "[<names>] not in index"
    | NoColumns(names: seq<string>)       // `KeyError` of `df[list]` when none is present: "None of [<names>] are in the [columns]"
    | IndexError                 // an index past the end of a list
    | TypeError                  // an operator applied to a value of the wrong type
    | AttributeError             // an attribute looked up on a value that lacks it
    | ValueError(message: string)

  /** Either a value or the exception raised while computing it; usable with `:-`. */
  datatype Result<+R> = Success(value: R) | Failure(error: Error) {

    predicate IsFailure() {
      Failure?
    }

    function PropagateFailure<U>(): Result<U>
      requires Failure?
    {
      Failure(error)
    }

    function Extract(): R
      requires Success?
    {
      value
    }
  }
}
