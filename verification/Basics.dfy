/** Vocabulary shared by every module: identities, instants, optional values and
    the stable error codes a caller can observe. */
module Basics {

  /** A UUID. Only equality and the canonical textual order matter. */
  datatype Id = Id(key: int) {
    predicate Below(other: Id) { key < other.key }
  }

  /** A database instant; all clocks of the model read the same monotone value. */
  type Time = int

  const DAY: int := 86400

  datatype Option<+T> = None | Some(value: T)

  datatype Error =
    | Unauthenticated
    | NotFound
    | Banned
    | Forbidden
    | Invalid
    | FeatureDisabled
    | Conflict
    | IdempotencyConflict
    | Resync
    | Rejected
    | Unsupported
    | LastModerator
    | TooLarge
    | Lifecycle
    | Crypto       // a missing key or a ciphertext from another context
    | Unavailable  // the database refused the statement, for instance a duplicate primary key

  datatype Result<+T> = Ok(value: T) | Err(error: Error)

  function Max(a: int, b: int): int {
    if a >= b then a else b
  }

  function Min(a: int, b: int): int {
    if a <= b then a else b
  }
}
