/** Option and Result, the two failure-aware wrappers the Rust and Java code use
    (`Option<T>`, `anyhow::Result<T>`, an escaping exception). Both work with `:-`. */
module Wrappers {

  datatype Option<+T> = None | Some(value: T) {
    predicate IsFailure() { None? }

    function PropagateFailure<U>(): Option<U>
      requires None?
    {
      None
    }

    function Extract(): T
      requires Some?
    {
      value
    }
  }

  datatype Result<+T, +E> = Ok(value: T) | Err(error: E) {
    predicate IsFailure() { Err? }

    function PropagateFailure<U>(): Result<U, E>
      requires Err?
    {
      Err(error)
    }

    function Extract(): T
      requires Ok?
    {
      value
    }
  }

  /** An IEEE-754 double, kept as its bit pattern: the model never computes with it. */
  datatype F64 = F64(bits: bv64)

  /** An IEEE-754 single (Java `float`), kept as its bit pattern. */
  datatype F32 = F32(bits: bv32)
}
