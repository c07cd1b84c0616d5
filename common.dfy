/** Option and Result types used across the model, and the opaque JavaScript values it carries. */
module Common {

  /** A JavaScript optional parameter or property: `undefined` (None) or a value. */
  datatype Option<+T> = None | Some(value: T) {

    /** The value, or `default` when undefined (a TypeScript default parameter). */
    function GetOr(default: T): T {
      match this
      case Some(v) => v
      case None => default
    }
  }

  /** The outcome of an operation that may throw. */
  datatype Result<+R, +E> = Ok(value: R) | Err(error: E)

  /** A JavaScript `any` value whose contents the library never inspects; only its truthiness matters. */
  datatype Opaque = Undefined | Value(id: nat, truthy: bool)

  predicate Truthy(v: Opaque) {
    v.Value? && v.truthy
  }
}
