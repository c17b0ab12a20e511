/** Option and Result, used for the null columns and the exceptions of the services. */
module Common {

  datatype Option<+T> = None | Some(value: T) {
    function GetOr(default: T): T {
      match this
      case Some(v) => v
      case None => default
    }
  }

  /** A value or the exception the source throws instead of returning it. */
  datatype Result<+R, +E> = Success(value: R) | Failure(error: E) {
    predicate IsFailure() {
      Failure?
    }

    function PropagateFailure<U>(): Result<U, E>
      requires Failure?
    {
      Failure(error)
    }

    function Extract(): R
      requires Success?
    {
      value
    }
  }

  /** The NestJS exceptions the services raise. */
  datatype ServiceError =
    | NotFound(id: string)     // NotFoundException: missing or soft-deleted row
    | BadRequest               // BadRequestException: recipe without items

  function Min(a: int, b: int): int {
    if a <= b then a else b
  }
}
