/** Failure-carrying results used where the service raises or swallows an exception. */
module Wrappers {

  datatype Option<+T> = None | Some(value: T) {
    function GetOr(default: T): T {
      match this
      case Some(v) => v
      case None => default
    }
  }

  /** The exceptions the modelled services raise, by the condition that raises them. */
  datatype Error =
    | InvalidInput(reason: string)   // ValueError on bad build arguments
    | NotIndexed                     // ValueError: search before any build/load
    | CollaboratorFailure            // an exception from a collaborator call
    | EmptyPlaylist                  // "No videos found in playlist"
    | PrivateVideos                  // the playlist holds private videos
    | UnavailableVideos              // some videos of the playlist are unavailable
    | AuthenticationRequired         // the playlist needs a signed-in user
    | ExtractionFailed(message: string) // any other extraction failure, with its message

  datatype Result<+T> = Ok(value: T) | Err(error: Error)
}
