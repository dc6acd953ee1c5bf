/** Values shared by every module of the model: optional values, results, and the
    panics of the crate, which the model returns as values instead of aborting. */
module Outcomes {

  datatype Option<+T> = None | Some(value: T)

  datatype Result<+T, +E> = Success(value: T) | Failure(error: E)

  /** Why the crate would panic. */
  datatype Panic =
    | IndexOutOfBounds(index: nat, len: nat)   // indexing a vector past its end
    | Expect(message: string)                  // `Option::expect` on `None`
    | Explicit(message: string)                // an explicit `panic!`
    | AccessOutOfRange(len: nat, index: nat)   // "Attempted to access vector of length {len} at index {index}"
    | NotYetImplemented                        // `todo!()`
}
