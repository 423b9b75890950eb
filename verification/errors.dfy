/** The failures the client reports, one constructor per place the source
    returns an error (or panics, in the command-line front end). */
module Errors {
  import opened Wrappers
  import Text
  import Constants

  datatype Failure =
    | RequestFailed                 // an HTTP request could not be sent
    | BodyUndecodable               // a reply body did not decode as the expected record
    | LoginFailed
    | ConfigUnavailable
    | ApiInfoUnavailable
    | SpaceStatusUnavailable
    | SpacePaused(spaceId: string)
    | UnknownStage(stage: string, spaceId: string)
    | SpaceTooSlow(spaceId: string)
    | FileUnreadable                // reading a file to upload failed
    | InvalidFilePath               // the path has no final file-name component
    | UploadFailed
    | InvalidUploadResponse
    | InvalidRoute
    | QueueJoinFailed
    | MessageUndecodable            // a stream message was not JSON (in `predict`)
    | StreamFailed                  // the event stream reported an error (in `predict`)
    | RemoteError(message: string)  // the server completed the job with an error
    | StreamEnded
    | ServerError                   // a stream message was not JSON (in `next`)
    | ClientError                   // the event stream reported an error (in `next`)
    | ExpectedFile
    | ExpectedValue
    | RouteNotFound(route: string)
    | MissingParameter(expected: nat, got: nat)
    | InvalidNumber
    | InvalidBool
    | UnsupportedParameterType(typeTag: string)
    | MissingReturnValue

  type Outcome<T> = Result<T, Failure>

  /** The text the source reports. Where the source appends a library
      diagnostic, this is the fixed part before it; where the whole text is a
      library diagnostic, it is empty. */
  function Message(f: Failure): string {
    match f
    case RequestFailed => ""
    case BodyUndecodable => ""
    case LoginFailed => "Login failed"
    case ConfigUnavailable => "Could not resolve app config"
    case ApiInfoUnavailable => "Could not get API info"
    case SpaceStatusUnavailable => Constants.SpaceStatusErrorMsg
    case SpacePaused(id) => "Space " + id + " is paused by the author."
    case UnknownStage(stage, id) => "Unknown runtime stage " + stage + " for space " + id
    case SpaceTooSlow(id) => "Space " + id + " is taking too long to start."
    case FileUnreadable => ""
    case InvalidFilePath => "Invalid file path"
    case UploadFailed => "Error uploading file"
    case InvalidUploadResponse => "Invalid file upload response"
    case InvalidRoute => "Invalid route"
    case QueueJoinFailed => "Cannot join task queue"
    case MessageUndecodable => ""
    case StreamFailed => "Error: "
    case RemoteError(message) => message
    case StreamEnded => "Stream ended unexpectedly"
    case ServerError => "Server Error: "
    case ClientError => "Client Error: "
    case ExpectedFile => "Expected file output"
    case ExpectedValue => "Expected value output"
    case RouteNotFound(route) => "Route " + route + " not found"
    case MissingParameter(expected, got) =>
      "Missing parameter, expected " + Text.NatToString(expected) + " parameters, got " + Text.NatToString(got)
    case InvalidNumber => "invalid float literal"
    case InvalidBool => "provided string was not `true` or `false`"
    case UnsupportedParameterType(tag) => "Unsupported parameter type: " + tag
    case MissingReturnValue => "Missing return value"
  }
}
