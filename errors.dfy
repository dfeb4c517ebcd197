/** Failure-carrying values shared by the adapters and the reconciler. */
module Errors {

  datatype Option<+T> = None | Some(value: T)

  /** Why a tick was aborted: one constructor per fallible remote call. */
  datatype Error =
    | PlaybackUnavailable   // the currently-playing request failed
    | ProfileUnavailable    // the profile request failed or its body did not decode
    | PresenceUnavailable   // the presence request failed or its body did not decode
    | StatusNotSet          // the status update request could not be sent

  datatype Result<+T> = Ok(value: T) | Err(error: Error)

  /** The result of an operation that yields nothing on success. */
  datatype Outcome = Pass | Fail(error: Error)
}
