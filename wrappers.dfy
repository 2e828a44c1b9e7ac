/** Option and Result, the two failure-compatible wrappers the rest of the model uses
    for Swift optionals and for `throws`. */
module Wrappers {

  datatype Option<+T> = None | Some(value: T) {
    predicate IsFailure() { None? }

    function PropagateFailure<U>(): Option<U>
      requires None?
    {
      None
    }

    function Extract(): T
      requires Some?
    {
      value
    }
  }

  datatype Result<+T, +E> = Success(value: T) | Failure(error: E) {
    predicate IsFailure() { Failure? }

    function PropagateFailure<U>(): Result<U, E>
      requires Failure?
    {
      Failure(error)
    }

    function Extract(): T
      requires Success?
    {
      value
    }
  }
}

/** The few Swift and Foundation values the core passes around: `Data` as a byte sequence,
    `Float` as its bit pattern, and an opaque `Error`. */
module FoundationData {

  type byte = x: int | 0 <= x < 256

  /** Foundation's `Data`. */
  type Bytes = seq<byte>

  /** A Swift `Float`, as its IEEE 754 single-precision bit pattern. The model never does
      arithmetic on it. */
  type Float32 = bv32

  /** A Swift `Error` thrown by a framework call; its contents are never inspected. */
  datatype Error = Error(domain: string, code: int)
}
