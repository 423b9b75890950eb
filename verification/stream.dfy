/**
 A prediction stream: a queue job joined under a fresh session of its own,
 whose raw events the caller pulls one at a time and may cancel.
 */
module Stream {
  import opened Wrappers
  import opened Json
  import opened Text
  import opened Errors
  import opened Transport
  import opened Structs
  import opened Queue
  import SessionHash
  import Client

  /** The stream's state: where the job was submitted, under which session,
      event and execution index; the events still to arrive; and whether the
      event source has been closed. */
  datatype PredictionStream = PredictionStream(
    apiRoot: string,
    sessionHash: string,
    eventId: string,
    fnIndex: int,
    pending: seq<Event>,
    closed: bool)

  /** `PredictionStream::new`: draw a session hash, join the queue with
      exactly `{fn_index, data, session_hash}`, and subscribe to that
      session's event stream once the join succeeded. */
  function New(apiRoot: string, fnIndex: int, data: seq<Json>, draws: seq<SessionHash.Draw>,
               join: Response<Json>, events: seq<Event>): (r: Traced<PredictionStream>)
    requires IsI64(fnIndex)
    requires |SessionHash.Sampled(draws)| >= SessionHash.Length
    ensures |r.effects| >= 1 && r.effects[0].JoinQueue? && r.effects[0].url == JoinUrl(apiRoot)
    ensures r.effects[0].payload.Obj? && r.effects[0].payload.fields.Keys == {"fn_index", "data", "session_hash"}
    ensures r.effects[0].payload.fields["fn_index"] == Int(fnIndex)
    ensures r.effects[0].payload.fields["data"] == Arr(data)
    ensures r.effects[0].payload.fields["session_hash"].Str?
    ensures join.Reply? && !join.success ==> r.result == Err(QueueJoinFailed)
    ensures r.result.Ok? <==> join.Reply? && join.success && join.body.Some? && DecodeJoinResponse(join.body.value).Some?
    ensures r.result.Ok? ==>
              var s := r.result.value;
              && s.eventId == DecodeJoinResponse(join.body.value).value
              && |s.sessionHash| == SessionHash.Length
              && (forall i :: 0 <= i < |s.sessionHash| ==> IsAsciiAlphanumeric(s.sessionHash[i]))
              && r.effects[0].payload.fields["session_hash"] == Str(s.sessionHash)
              && r.effects == [r.effects[0], Subscribe(DataUrl(apiRoot, s.sessionHash))]
              && s.apiRoot == apiRoot && s.fnIndex == fnIndex && s.pending == events && !s.closed
    ensures r.result.Err? ==> r.effects == [r.effects[0]]
    ensures r.result.Err? ==>
              r.result.error == Join(apiRoot, JoinPayload(fnIndex, data, SessionHash.Generate(draws)), join).result.error
  {
    var sessionHash := SessionHash.Generate(draws);
    var payload := JoinPayload(fnIndex, data, sessionHash);
    var joined := Join(apiRoot, payload, join);
    match joined.result
    case Err(f) => Traced(Err(f), joined.effects)
    case Ok(eventId) =>
      Traced(Ok(PredictionStream(apiRoot, sessionHash, eventId, fnIndex, events, false)),
             joined.effects + [Subscribe(DataUrl(apiRoot, sessionHash))])
  }

  /** What `next` hands back for one raw event. */
  function Translate(e: Event): (r: Outcome<QueueDataMessage>)
    ensures r == Ok(Open) <==> e.StreamOpened?
    ensures r.Err? <==> e.StreamError? || e == StreamMessage(None)
    ensures e.StreamError? ==> r == Err(ClientError)
    ensures e == StreamMessage(None) ==> r == Err(ServerError)
    ensures e.StreamMessage? && e.data.Some? ==> r == Ok(DecodeMessage(e.data.value))
  {
    match e
    case StreamOpened => Ok(Open)
    case StreamMessage(None) => Err(ServerError)
    case StreamMessage(Some(j)) => Ok(DecodeMessage(j))
    case StreamError => Err(ClientError)
  }

  /** `next`: take the next raw event. The source unwraps the end of the
      stream, so an event must be pending; the stream must not be closed. */
  function Next(s: PredictionStream): (r: (Outcome<QueueDataMessage>, PredictionStream))
    requires !s.closed && |s.pending| > 0
    ensures r.0 == Translate(s.pending[0])
    ensures r.1 == s.(pending := s.pending[1..])
  {
    (Translate(s.pending[0]), s.(pending := s.pending[1..]))
  }

  /** `next` hands back messages of every event, not only the stream's own. */
  lemma NextDoesNotFilter(s: PredictionStream, m: QueueDataMessage)
    requires !s.closed && |s.pending| > 0
    requires WellFormed(m) && !m.Open? && !m.Unknown?
    requires s.pending[0] == StreamMessage(Some(EncodeMessage(m)))
    ensures Next(s).0 == Ok(m)
  {
    MessageRoundTrip(m);
  }

  /** The stream and `predict` read events alike: a raw event that completes
      the job in `predict` is handed back by `next` as that completion. */
  lemma NextAgreesWithPredict(e: Event, eventId: string)
    requires Client.StepOn(eventId, e).Finish? && Client.StepOn(eventId, e).result.Ok?
    ensures Translate(e).Ok? && Translate(e).value.Completed?
    ensures Translate(e).value.eventId == eventId && Translate(e).value.output.Success?
  {
  }

  /** `cancel`: close the event source first, then post the cancellation and
      the reset, ignoring both replies; cancelling always succeeds. */
  function Cancel(s: PredictionStream, cancelReply: Response<Json>, resetReply: Response<Json>): (r: (Traced<()>, PredictionStream))
    ensures r.0.result == Ok(())
    ensures r.1 == s.(closed := true)
    ensures |r.0.effects| == 3 && r.0.effects[0] == CloseStream
    ensures r.0.effects[1] == PostCancel(s.apiRoot + "/cancel",
              Obj(map["event_id" := Str(s.eventId), "session_hash" := Str(s.sessionHash), "fn_index" := Int(s.fnIndex)]))
    ensures r.0.effects[2] == PostReset(s.apiRoot + "/reset", Obj(map["event_id" := Str(s.eventId)]))
  {
    var cancel := Obj(map["event_id" := Str(s.eventId), "session_hash" := Str(s.sessionHash), "fn_index" := Int(s.fnIndex)]);
    var reset := Obj(map["event_id" := Str(s.eventId)]);
    (Traced(Ok(()), [CloseStream, PostCancel(s.apiRoot + "/cancel", cancel), PostReset(s.apiRoot + "/reset", reset)]),
     s.(closed := true))
  }
}
