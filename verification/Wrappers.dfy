/** Optional values and results that carry one of the failures the program distinguishes. */
module Wrappers {

  datatype Option<+T> = None | Some(value: T) {
    function GetOr(default: T): T {
      if Some? then value else default
    }
  }

  /** What can go wrong while a cassette is read, written or searched. */
  datatype Fault =
    | NameRequired
    | StoreUnreadable
    | MarshalFailed
    | MkdirFailed
    | WriteFailed
    | NonceFailed
    | NonceDuplicated
    | KindTooLong
    | NonceTooLong
    | MarkerWithoutCrypter
    | MarkerMissing
    | MarkerUnknown
    | KindMismatch
    | Undecipherable
    | OutOfRange
    | NoCrypter
    | NotGzip
    | NotJson
    | InvalidTrackNumber

  datatype Result<+T> = Ok(value: T) | Err(fault: Fault)
}
