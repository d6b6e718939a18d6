/** Option, Result and the error type shared by the protocol functions
    (`src/functionality/utils_dep.rs`). */
module Wrappers {
  datatype Option<+T> = None | Some(value: T)

  datatype Result<+T, +E> = Ok(value: T) | Err(error: E)

  datatype ProtocolError =
    | InvalidMessage
    | InconsistentMessage
    | CommitmentVerificationFailed
    | InvalidShare
    | InvalidLength
    | MissingMessage
    | SendMessage
    | VerificationError
    | AbortProtocol(party: nat)
}
