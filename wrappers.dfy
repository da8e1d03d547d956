/** Option and Result: the nullable values and kotlin.Result values of the application. */
module Wrappers {

  /** A Kotlin nullable value `T?`: None stands for null. */
  datatype Option<+T> = None | Some(value: T)

  /** kotlin.Result: a success value or a failure cause. */
  datatype Result<+R, +E> = Success(value: R) | Failure(error: E) {

    /** Result.map: transforms a success value, passes a failure through unchanged. */
    function Map<R2>(f: R -> R2): Result<R2, E>
    {
      match this
      case Success(v) => Success(f(v))
      case Failure(e) => Failure(e)
    }
  }
}
