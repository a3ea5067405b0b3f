/** Small shared vocabulary: optional values (C# `null`, TypeScript `undefined`),
    results of operations that can throw, 32-bit integers, and the exceptions
    the backend raises. */
module Common {

  /** A value that may be absent: `null` in C#, `undefined` in TypeScript. */
  datatype Option<+T> = None | Some(value: T) {
    function GetOr(default: T): T {
      match this
      case Some(v) => v
      case None => default
    }
  }

  /** The outcome of an operation that either returns a value or throws. */
  datatype Result<+T, +E> = Success(value: T) | Failure(error: E)

  /** An exception as the error-handling middleware sees it: FluentValidation's
      `ValidationException`, or any other exception with its message. */
  datatype Exception =
    | ValidationException(message: string)
    | OtherException(message: string)
  {
    function Message(): string {
      match this
      case ValidationException(m) => m
      case OtherException(m) => m
    }
  }

  const Int32Min: int := -0x8000_0000
  const Int32Max: int := 0x7FFF_FFFF

  /** C#'s `int`. */
  type Int32 = x: int | Int32Min <= x <= Int32Max

  /** Unchecked 32-bit two's-complement wrap-around, as C# `int` arithmetic does
      outside a `checked` block. */
  function Wrap32(x: int): (r: Int32)
    ensures (r - x) % 0x1_0000_0000 == 0
    ensures Int32Min <= x <= Int32Max ==> r == x
  {
    (x - Int32Min) % 0x1_0000_0000 + Int32Min
  }
}
