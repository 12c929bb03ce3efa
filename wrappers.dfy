/**
 * Option, Result and the PHP exceptions the model raises as error values.
 */
module Wrappers {
  datatype Option<T> = None | Some(value: T)
  {
    function GetOr(default: T): T
    {
      match this
      case None => default
      case Some(v) => v
    }
  }

  /** The exception classes thrown by the modelled code (and by PHP itself). */
  datatype Exception =
    | InvalidArgumentException(message: string)
    | OutOfBoundsException
    | DomainException
    | BadMethodCallException
    | RuntimeException
    | LogicException
    | TypeError
    | UnhandledMatchError
    | DivisionByZeroError
    /** PHP's own \Error: a method called on null or on an object without it, an object cast to string. */
    | PhpError

  datatype Result<T> = Ok(value: T) | Err(error: Exception)

  /** The outcome of a call that returns nothing but may throw. */
  datatype Outcome = Pass | Fail(error: Exception)
}
