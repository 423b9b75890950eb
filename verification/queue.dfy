/** Joining the server-side execution queue, shared by `predict` and by the
    prediction stream: the join request, its reply, and the stream's address. */
module Queue {
  import opened Wrappers
  import opened Json
  import opened Errors
  import opened Transport
  import opened Structs

  function JoinUrl(apiRoot: string): string {
    apiRoot + "/queue/join"
  }

  /** The event stream of one session. */
  function DataUrl(apiRoot: string, sessionHash: string): string {
    apiRoot + "/queue/data?session_hash=" + sessionHash
  }

  /** The join body: exactly the execution index, the positional data and the
      session hash. */
  function JoinPayload(fnIndex: int, data: seq<Json>, sessionHash: string): (j: Json)
    ensures j.Obj? && j.fields.Keys == {"fn_index", "data", "session_hash"}
    ensures j.fields["fn_index"] == Int(fnIndex)
    ensures j.fields["data"] == Arr(data)
    ensures j.fields["session_hash"] == Str(sessionHash)
  {
    Obj(map["fn_index" := Int(fnIndex), "data" := Arr(data), "session_hash" := Str(sessionHash)])
  }

  /** One result with the effects that produced it. */
  datatype Traced<T> = Traced(result: Outcome<T>, effects: seq<Effect>)

  /** Post the join request: a non-success status fails, otherwise the reply's
      event id is the invocation's identifier from then on. */
  function Join(apiRoot: string, payload: Json, reply: Response<Json>): (r: Traced<string>)
    ensures r.effects == [JoinQueue(JoinUrl(apiRoot), payload)]
    ensures reply.Reply? && !reply.success ==> r.result == Err(QueueJoinFailed)
    ensures r.result.Ok? <==> reply.Reply? && reply.success && reply.body.Some? && DecodeJoinResponse(reply.body.value).Some?
    ensures r.result.Ok? ==> r.result.value == DecodeJoinResponse(reply.body.value).value
  {
    var effects := [JoinQueue(JoinUrl(apiRoot), payload)];
    match reply
    case Unreachable => Traced(Err(RequestFailed), effects)
    case Reply(success, body) =>
      if !success then Traced(Err(QueueJoinFailed), effects)
      else if body.None? then Traced(Err(BodyUndecodable), effects)
      else match DecodeJoinResponse(body.value)
        case None => Traced(Err(BodyUndecodable), effects)
        case Some(eventId) => Traced(Ok(eventId), effects)
  }
}
