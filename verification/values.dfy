/** Ruby's `nil`-or-value and raise-or-return, as plain datatypes. */
module Values {

  /** `None` stands for Ruby's `nil` (also what a Hash returns for a missing key). */
  datatype Option<+T> = None | Some(value: T) {

    /** The present value, or `default` for `nil`. */
    function GetOr(default: T): T {
      match this
      case Some(v) => v
      case None => default
    }
  }

  /** A constructor that either returns its object or raises. */
  datatype Result<+T, +E> = Success(value: T) | Failure(error: E)
}
