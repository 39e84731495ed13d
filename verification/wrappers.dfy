/** Option and Result: nullable references and thrown exceptions of the
    modelled C# code become values of these two types. */
module Wrappers {

  datatype Option<+T> = None | Some(value: T) {

    predicate IsFailure() {
      None?
    }

    function PropagateFailure<U>(): Option<U>
      requires None?
    {
      None
    }

    function Extract(): T
      requires Some?
    {
      value
    }

    /** The C# `??` operator. */
    function GetOr(default: T): T {
      match this
      case Some(v) => v
      case None => default
    }
  }

  /** The errors the modelled code raises, by exception class. */
  datatype Error =
    | InvalidOperation(message: string)
    | NotImplemented
    | Argument       // ArgumentException, raised inside a library
    | NotSupported   // NotSupportedException, raised inside the JWT library
    | NoSigningKey   // InvalidOperationException of the issuer's key material: no key for the algorithm

  datatype Result<+R> = Success(value: R) | Failure(error: Error) {

    predicate IsFailure() {
      Failure?
    }

    function PropagateFailure<U>(): Result<U>
      requires Failure?
    {
      Failure(error)
    }

    function Extract(): R
      requires Success?
    {
      value
    }
  }
}
