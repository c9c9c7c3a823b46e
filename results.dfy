/** Failure-compatible wrappers shared by every decoder and register operation. */
module Results {

  datatype Option<+T> = None | Some(value: T) {
    function GetOr(default: T): T {
      match this
      case Some(v) => v
      case None => default
    }
  }

  /** Why a decode or a register exchange failed. */
  datatype Error =
    | Exhausted                                  // the register cursor ran out (StopIteration)
    | InvalidValue(field: string, raw: int)      // a word outside an enumeration (ValueError)
    | ErrorResponse                              // the device answered with an exception response
    | CountOutOfRange(count: int)                // an alarm count beyond its documented maximum
    | NoSuchKey                                  // a lookup in a table without that key (KeyError)

  datatype Result<+T> = Ok(value: T) | Err(error: Error) {
    predicate IsFailure() {
      Err?
    }

    function PropagateFailure<U>(): Result<U>
      requires Err?
    {
      Err(error)
    }

    function Extract(): T
      requires Ok?
    {
      value
    }
  }

  /** A decoded value together with the registers left after it. */
  datatype Consumed<+T> = Consumed(value: T, rest: seq<int>)

  /** `r` is a decode of `regs` that, when it succeeds, used exactly the first `n` words,
      and that cannot succeed on fewer than `n` words. */
  predicate Advances<T>(r: Result<Consumed<T>>, regs: seq<int>, n: nat) {
    && (r.Ok? ==> n <= |regs| && r.value.rest == regs[n..])
    && (|regs| < n ==> r.Err?)
  }
}
