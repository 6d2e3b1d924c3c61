/**
 * Failure values.  The source reports errors as `Result<_, String>` (and,
 * in two places, by panicking); the model keeps the kind of failure and
 * drops the message text.
 */
module Results {

  datatype Error =
    | WidthMismatch        // a value of the wrong byte width for the destination
    | ReadOnlyRegister     // a write to PC or SP
    | UnknownRegisterId
    | UnknownSourceId
    | UnknownAluOperation
    | UnknownInstruction
    | ArithmeticOverflow   // u8 `*` or `+=` overflowed (a panic in a debug build)
    | Panic                // `unwrap` of an absent value

  datatype Option<+T> = None | Some(value: T)

  datatype Result<+T> = Ok(value: T) | Err(error: Error) {

    predicate IsFailure() {
      Err?
    }

    function PropagateFailure<U>(): Result<U>
      requires Err?
    {
      Err(error)
    }

    function Extract(): T
      requires Ok?
    {
      value
    }
  }
}
