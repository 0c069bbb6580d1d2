/** Optional values, results and the error taxonomy shared by the model. */
module Results {

  /** A value that may be absent: TypeScript's `T | undefined`. */
  datatype Option<+T> = None | Some(value: T)

  /** Why an operation of the resource-group step failed. */
  datatype Error =
    | FetchFailed(reason: string)  // a page fetch of the management API rejected
    | Cancelled                    // the user dismissed the quick pick

  /** The settled value of a promise: fulfilled with a value or rejected with an error. */
  datatype Result<+T> = Success(value: T) | Failure(error: Error)

  /** JavaScript truthiness of a `boolean | undefined`. */
  predicate IsTruthy(b: Option<bool>) {
    b == Some(true)
  }

  /** JavaScript truthiness of a `string | undefined`: the empty string is falsy. */
  predicate IsNonEmpty(s: Option<string>) {
    s.Some? && s.value != ""
  }
}
