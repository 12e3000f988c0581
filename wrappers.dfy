/** Failure-compatible datatypes shared by the model, and the exceptions the
    modelled Python code can raise (or, for a NaN accuracy, would go on with). */
module Wrappers {

  datatype Option<+T> = None | Some(value: T)

  /** The ways the modelled code stops instead of returning a value. */
  datatype Exception =
    | MaskIndexOutOfRange     // numpy IndexError: an adaptation index is past the batch
    | MaskShapeMismatch       // torch IndexError: boolean mask and labels differ in length
    | EmptyArgMax             // torch argmax over a row that holds no scores
    | ViewShapeMismatch       // predictions' row count differs from the number of targets
    | UndefinedAccuracy       // 0 / 0 matches: torch yields NaN, the model stops here
    | DivisionByZero          // Python ZeroDivisionError (meta_batch_size == 0)
    | UnboundLocal(name: string) // Python UnboundLocalError on a never-assigned local
    | RaiseNonException       // TypeError: `raise` applied to a str

  /** A value or the exception that stopped the computation; usable with `:-`. */
  datatype Result<+T> = Ok(value: T) | Err(error: Exception) {

    predicate IsFailure() {
      Err?
    }

    function PropagateFailure<U>(): Result<U>
      requires Err?
    {
      Err(error)
    }

    function Extract(): T
      requires Ok?
    {
      value
    }
  }
}
