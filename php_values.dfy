/** The PHP values the bundle moves around: optional values, results with an
    error, the scalars a configuration tree holds, PHP's truthiness on them,
    and the parameter values a dependency-injection container stores. */
module PhpValues {

  /** A value that may be absent (PHP's null, or a key not given). */
  datatype Option<+T> = None | Some(value: T) {
    /** The value, or `default` when absent. */
    function GetOr(default: T): T {
      match this
      case Some(v) => v
      case None => default
    }
  }

  /** The outcome of an operation that may throw. */
  datatype Result<+R, +E> = Success(value: R) | Failure(error: E)

  /** A PHP scalar as a configuration leaf can hold it (floats are not modelled). */
  datatype Scalar = Null | Bool(b: bool) | Int(i: int) | Str(s: string)

  /** PHP's conversion of a scalar to boolean, as used by `if ($x)` and `(boolean) $x`. */
  predicate Truthy(x: Scalar) {
    match x
    case Null => false
    case Bool(b) => b
    case Int(i) => i != 0
    case Str(s) => s != "" && s != "0"
  }

  /** PHP's `empty()` on a scalar: the values that are not truthy. */
  predicate IsEmpty(x: Scalar) {
    !Truthy(x)
  }

  /** A container parameter: a scalar, a list of scalars or a string-keyed array of scalars. */
  datatype Value = ScalarValue(scalar: Scalar) | List(items: seq<Scalar>) | Dict(entries: map<string, Scalar>)
}
