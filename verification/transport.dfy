/**
 The boundary to the network. Every reply, stream event and sleep is an input
 the caller supplies; every request the client makes is recorded as an `Effect`.
 */
module Transport {
  import opened Wrappers
  import opened Json

  /** The reply to one HTTP request. `Unreachable` when sending failed;
      otherwise whether the status was a success, and the body decoded as `T`
      (`None` when it does not decode). */
  datatype Response<T> =
    | Unreachable
    | Reply(success: bool, body: Option<T>)

  /** One item of the server-sent event stream: the connection opened, a
      message whose data text was parsed as JSON (`None` when it is not JSON),
      or a transport error. */
  datatype Event =
    | StreamOpened
    | StreamMessage(data: Option<Json>)
    | StreamError

  /** An observable action of the client, in the order performed. */
  datatype Effect =
    | RegistryLookup(url: string)
    | Login(url: string, username: string, password: string)
    | StatusPoll(url: string)
    | Sleep(millis: nat)
    | GetConfig(url: string)
    | GetInfo(url: string)
    | UploadFile(url: string, path: string)
    | JoinQueue(url: string, payload: Json)
    | Subscribe(url: string)
    | CloseStream
    | PostCancel(url: string, payload: Json)
    | PostReset(url: string, payload: Json)
}
