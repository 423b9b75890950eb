/**
 The records exchanged with the server, and how serde's derived decoders read
 them: the route table, the capability schema, the queue-join reply, and the
 untagged queue messages with their fixed first-match variant order.
 */
module Structs {
  import opened Wrappers
  import opened Json

  // ---------------------------------------------------------------------------
  // Configuration and capability schema
  // ---------------------------------------------------------------------------

  /** One route of the configuration's dependency list. */
  datatype Dependency = Dependency(apiName: string, id: int, queue: Option<bool>)

  /** The id a dependency gets when its `id` field is absent. */
  const DefaultId: int := -1

  /** The negotiated configuration. Only the route table is interpreted; every
      other field is passed through untouched and not modelled. */
  datatype AppConfig = AppConfig(dependencies: seq<Dependency>)

  /** A parameter or return descriptor: display label, parameter name, the
      wire-level type tag (`type.type`) and the Python type (`python_type.type`). */
  datatype ApiData = ApiData(labelText: Option<string>, parameterName: Option<string>, typeTag: string, pythonType: string)

  datatype EndpointInfo = EndpointInfo(parameters: seq<ApiData>, results: seq<ApiData>)

  /** The capability schema: named endpoints, keyed by route with its leading slash. */
  datatype ApiInfo = ApiInfo(namedEndpoints: map<string, EndpointInfo>)

  /** `Dependency`'s decoder: `api_name` is required, a missing `id` takes the
      default, `queue` is optional. */
  function DecodeDependency(j: Json): (r: Option<Dependency>)
    ensures r.Some? ==> StructShaped(j, 3)
    ensures r.Some? && j.Obj? && "id" !in j.fields ==> r.value.id == DefaultId
    ensures r.Some? && j.Obj? && "id" in j.fields ==> j.fields["id"] == Int(r.value.id) && IsI64(r.value.id)
    ensures j.Obj? && "api_name" in j.fields && j.fields["api_name"].Str? && "id" !in j.fields && "queue" !in j.fields
            ==> r == Some(Dependency(j.fields["api_name"].s, DefaultId, None))
  {
    if !StructShaped(j, 3) then None
    else
      var name := Required(Field(j, "api_name", 0, 3), AsString);
      var id := match Field(j, "id", 1, 3)
        case None => Some(DefaultId)
        case Some(v) => AsI64(v);
      var queue := Optional(Field(j, "queue", 2, 3), AsBool);
      if name.Some? && id.Some? && queue.Some? then Some(Dependency(name.value, id.value, queue.value))
      else None
  }

  /** What serde writes for a dependency: every field, `null` for no `queue`. */
  function EncodeDependency(d: Dependency): Json {
    Obj(map["api_name" := Str(d.apiName), "id" := Int(d.id), "queue" := OptionToJson(d.queue, (b: bool) => Bool(b))])
  }

  /** Writing a dependency and reading it back gives the same dependency. */
  lemma DependencyRoundTrip(d: Dependency)
    requires IsI64(d.id)
    ensures DecodeDependency(EncodeDependency(d)) == Some(d)
  {
  }

  /** A theme hash or component id: a string or a 64-bit integer. */
  datatype StringOrI64 = String(s: string) | I64(i: int)

  /** The untagged decoder: the `String` variant is tried first, then `I64`. */
  function DecodeStringOrI64(j: Json): (r: Option<StringOrI64>)
    ensures j.Str? ==> r == Some(String(j.s))
    ensures r.Some? && r.value.String? ==> j == Str(r.value.s)
    ensures r.Some? && r.value.I64? <==> j.Int? && IsI64(j.i)
    ensures r.Some? && r.value.I64? ==> j == Int(r.value.i)
  {
    match j
    case Str(s) => Some(String(s))
    case Int(i) => if IsI64(i) then Some(I64(i)) else None
    case _ => None
  }

  // ---------------------------------------------------------------------------
  // Queue join
  // ---------------------------------------------------------------------------

  /** The queue-join reply's single field, the event id. */
  function DecodeJoinResponse(j: Json): (r: Option<string>)
    ensures j.Obj? && "event_id" in j.fields && j.fields["event_id"].Str? ==> r == Some(j.fields["event_id"].s)
    ensures r.Some? ==> Field(j, "event_id", 0, 1) == Some(Str(r.value))
  {
    if StructShaped(j, 1) then Required(Field(j, "event_id", 0, 1), AsString) else None
  }

  // ---------------------------------------------------------------------------
  // Queue data messages
  // ---------------------------------------------------------------------------

  /** One progress tuple of a processing message. */
  datatype ProgressData = ProgressData(index: nat, length: Option<nat>, unit: string)

  function DecodeProgress(j: Json): Option<ProgressData> {
    if !StructShaped(j, 3) then None
    else
      var index := Required(Field(j, "index", 0, 3), AsUsize);
      var length := Optional(Field(j, "length", 1, 3), AsUsize);
      var unit := Required(Field(j, "unit", 2, 3), AsString);
      if index.Some? && length.Some? && unit.Some? then Some(ProgressData(index.value, length.value, unit.value))
      else None
  }

  /** A `Vec<ProcessingProgressData>`: an array whose every element decodes. */
  function DecodeProgressList(j: Json): (r: Option<seq<ProgressData>>)
    ensures r.Some? ==> j.Arr? && |r.value| == |j.items|
    ensures r.Some? ==> forall i :: 0 <= i < |j.items| ==> DecodeProgress(j.items[i]) == Some(r.value[i])
  {
    if j.Arr? then DecodeAll(j.items) else None
  }

  function DecodeAll(items: seq<Json>): (r: Option<seq<ProgressData>>)
    ensures r.Some? ==> |r.value| == |items|
    ensures r.Some? ==> forall i :: 0 <= i < |items| ==> DecodeProgress(items[i]) == Some(r.value[i])
    ensures r.None? ==> exists i :: 0 <= i < |items| && DecodeProgress(items[i]).None?
  {
    if |items| == 0 then Some([])
    else match (DecodeProgress(items[0]), DecodeAll(items[1..]))
      case (Some(p), Some(ps)) => Some([p] + ps)
      case (None, _) => None
      case (_, None) => None
  }

  /** The `output` of a completed message. Numbers the source reads as `f64`
      are kept as the JSON that held them. */
  datatype QueueDataMessageOutput =
    | Success(data: seq<Json>, duration: Json)
    | Error(error: Option<string>)

  /** The untagged decoder: `Success` needs an array `data` and a numeric
      `duration`; otherwise any object whose `error` is absent, null or a string
      is an `Error`. Only objects decode. */
  function DecodeOutput(j: Json): (r: Option<QueueDataMessageOutput>)
    ensures r.Some? ==> j.Obj?
  {
    var data := Member(j, "data");
    var duration := Member(j, "duration");
    if data.Some? && data.value.Arr? && duration.Some? && IsNumber(duration.value) then
      Some(Success(data.value.items, duration.value))
    else if j.Obj? then
      match Optional(Member(j, "error"), AsString)
      case Some(e) => Some(Error(e))
      case None => None
    else None
  }

  /** One message of the queue's event stream. `Open` is never produced by
      decoding: it follows the catch-all `Unknown` in the variant order. */
  datatype QueueDataMessage =
    | InQueue(eventId: string, msg: string, rank: int, queueSize: int, rankEta: Json)
    | Completed(eventId: string, msg: string, output: QueueDataMessageOutput, success: bool)
    | Processing(eventId: string, msg: string, eta: Option<Json>, progressData: Option<seq<ProgressData>>)
    | Unknown(value: Json)
    | Open

  function DecodeInQueue(j: Json): Option<QueueDataMessage> {
    var eventId := Required(Member(j, "event_id"), AsString);
    var msg := Required(Member(j, "msg"), AsString);
    var rank := Required(Member(j, "rank"), AsI64);
    var queueSize := Required(Member(j, "queue_size"), AsI64);
    var rankEta := Required(Member(j, "rank_eta"), AsNumber);
    if eventId.Some? && msg.Some? && rank.Some? && queueSize.Some? && rankEta.Some? then
      Some(InQueue(eventId.value, msg.value, rank.value, queueSize.value, rankEta.value))
    else None
  }

  function DecodeCompleted(j: Json): Option<QueueDataMessage> {
    var eventId := Required(Member(j, "event_id"), AsString);
    var msg := Required(Member(j, "msg"), AsString);
    var output := Required(Member(j, "output"), DecodeOutput);
    var success := Required(Member(j, "success"), AsBool);
    if eventId.Some? && msg.Some? && output.Some? && success.Some? then
      Some(Completed(eventId.value, msg.value, output.value, success.value))
    else None
  }

  function DecodeProcessing(j: Json): Option<QueueDataMessage> {
    var eventId := Required(Member(j, "event_id"), AsString);
    var msg := Required(Member(j, "msg"), AsString);
    var eta := Optional(Member(j, "eta"), AsNumber);
    var progress := Optional(Member(j, "progress_data"), DecodeProgressList);
    if j.Obj? && eventId.Some? && msg.Some? && eta.Some? && progress.Some? then
      Some(Processing(eventId.value, msg.value, eta.value, progress.value))
    else None
  }

  /** The untagged decoder, trying `InQueue`, `Completed`, `Processing` and then
      the catch-all `Unknown`, which accepts any JSON: decoding a message never
      fails once its text is JSON. */
  function DecodeMessage(j: Json): (r: QueueDataMessage)
    ensures !r.Open?
    ensures r.Unknown? ==> r.value == j
    ensures !j.Obj? ==> r == Unknown(j)
    ensures DecodeInQueue(j).Some? ==> r == DecodeInQueue(j).value
    ensures DecodeInQueue(j).None? && DecodeCompleted(j).Some? ==> r == DecodeCompleted(j).value
    ensures DecodeInQueue(j).None? && DecodeCompleted(j).None? && DecodeProcessing(j).Some? ==> r == DecodeProcessing(j).value
    ensures DecodeInQueue(j).None? && DecodeCompleted(j).None? && DecodeProcessing(j).None? ==> r == Unknown(j)
  {
    match DecodeInQueue(j)
    case Some(m) => m
    case None =>
      match DecodeCompleted(j)
      case Some(m) => m
      case None =>
        match DecodeProcessing(j)
        case Some(m) => m
        case None => Unknown(j)
  }

  // ---------------------------------------------------------------------------
  // Serialisation, for the round trips
  // ---------------------------------------------------------------------------

  function EncodeProgress(p: ProgressData): Json {
    Obj(map["index" := Int(p.index), "length" := OptionToJson(p.length, (n: nat) => Int(n)), "unit" := Str(p.unit)])
  }

  function EncodeProgressList(ps: seq<ProgressData>): Json {
    Arr(seq(|ps|, i requires 0 <= i < |ps| => EncodeProgress(ps[i])))
  }

  function EncodeOutput(o: QueueDataMessageOutput): Json {
    match o
    case Success(data, duration) => Obj(map["data" := Arr(data), "duration" := duration])
    case Error(e) => Obj(map["error" := OptionToJson(e, (s: string) => Str(s))])
  }

  /** What serde writes for a message: the variant's fields as an object,
      `null` for absent options; `Unknown` writes its value, `Open` writes `null`. */
  function EncodeMessage(m: QueueDataMessage): Json {
    match m
    case InQueue(e, msg, rank, size, eta) =>
      Obj(map["event_id" := Str(e), "msg" := Str(msg), "rank" := Int(rank), "queue_size" := Int(size), "rank_eta" := eta])
    case Completed(e, msg, output, success) =>
      Obj(map["event_id" := Str(e), "msg" := Str(msg), "output" := EncodeOutput(output), "success" := Bool(success)])
    case Processing(e, msg, eta, progress) =>
      Obj(map["event_id" := Str(e), "msg" := Str(msg), "eta" := OptionToJson(eta, (x: Json) => x),
               "progress_data" := OptionToJson(progress, EncodeProgressList)])
    case Unknown(v) => v
    case Open => Null
  }

  /** The values a Rust message can hold: integers within their types and
      numbers where the record declares `f64`. */
  predicate WellFormed(m: QueueDataMessage) {
    match m
    case InQueue(_, _, rank, size, eta) => IsI64(rank) && IsI64(size) && IsNumber(eta)
    case Completed(_, _, output, _) => output.Success? ==> IsNumber(output.duration)
    case Processing(_, _, eta, progress) =>
      (eta.Some? ==> IsNumber(eta.value))
      && (progress.Some? ==> forall i :: 0 <= i < |progress.value| ==> ProgressWellFormed(progress.value[i]))
    case Unknown(_) => true
    case Open => true
  }

  predicate ProgressWellFormed(p: ProgressData) {
    IsUsize(p.index) && (p.length.Some? ==> IsUsize(p.length.value))
  }

  // ---------------------------------------------------------------------------
  // Properties of the decoders
  // ---------------------------------------------------------------------------

  lemma ProgressRoundTrip(p: ProgressData)
    requires ProgressWellFormed(p)
    ensures DecodeProgress(EncodeProgress(p)) == Some(p)
  {
  }

  lemma {:induction false} ProgressListRoundTrip(ps: seq<ProgressData>)
    requires forall i :: 0 <= i < |ps| ==> ProgressWellFormed(ps[i])
    ensures DecodeProgressList(EncodeProgressList(ps)) == Some(ps)
  {
    var items := seq(|ps|, i requires 0 <= i < |ps| => EncodeProgress(ps[i]));
    if |ps| > 0 {
      ProgressRoundTrip(ps[0]);
      assert items[1..] == EncodeProgressList(ps[1..]).items;
      ProgressListRoundTrip(ps[1..]);
      assert [ps[0]] + ps[1..] == ps;
    }
  }

  lemma InQueueRoundTrip(e: string, msg: string, rank: int, size: int, eta: Json)
    requires IsI64(rank) && IsI64(size) && IsNumber(eta)
    ensures DecodeInQueue(EncodeMessage(InQueue(e, msg, rank, size, eta))) == Some(InQueue(e, msg, rank, size, eta))
  {
  }

  lemma CompletedRoundTrip(e: string, msg: string, output: QueueDataMessageOutput, success: bool)
    requires output.Success? ==> IsNumber(output.duration)
    ensures DecodeMessage(EncodeMessage(Completed(e, msg, output, success))) == Completed(e, msg, output, success)
  {
    var j := EncodeMessage(Completed(e, msg, output, success));
    assert "rank" !in j.fields;
    assert DecodeInQueue(j).None?;
    assert DecodeOutput(EncodeOutput(output)) == Some(output);
    assert DecodeCompleted(j) == Some(Completed(e, msg, output, success));
  }

  lemma ProcessingRoundTrip(e: string, msg: string, eta: Option<Json>, progress: Option<seq<ProgressData>>)
    requires WellFormed(Processing(e, msg, eta, progress))
    ensures DecodeMessage(EncodeMessage(Processing(e, msg, eta, progress))) == Processing(e, msg, eta, progress)
  {
    var j := EncodeMessage(Processing(e, msg, eta, progress));
    assert "rank" !in j.fields;
    assert DecodeInQueue(j).None?;
    assert "output" !in j.fields;
    assert DecodeCompleted(j).None?;
    assert Optional(Member(j, "eta"), AsNumber) == Some(eta);
    if progress.Some? {
      ProgressListRoundTrip(progress.value);
    }
    assert Optional(Member(j, "progress_data"), DecodeProgressList) == Some(progress);
    assert DecodeProcessing(j) == Some(Processing(e, msg, eta, progress));
  }

  /** Writing a message serde's way and decoding it gives it back, for every
      variant a server sends: the field sets of `InQueue`, `Completed` and
      `Processing` are told apart by the first-match order. */
  lemma MessageRoundTrip(m: QueueDataMessage)
    requires WellFormed(m) && !m.Unknown? && !m.Open?
    ensures DecodeMessage(EncodeMessage(m)) == m
  {
    match m
    case InQueue(e, msg, rank, size, eta) => InQueueRoundTrip(e, msg, rank, size, eta);
    case Completed(e, msg, output, success) => CompletedRoundTrip(e, msg, output, success);
    case Processing(e, msg, eta, progress) => ProcessingRoundTrip(e, msg, eta, progress);
  }

  /** An object with string `event_id` and `msg` that carries neither the
      `rank_eta` of a queue position nor the `success` of a completion decodes
      as `Processing`: its own optional fields may all be missing. This is how
      a completion message without `success` is read. */
  lemma ProcessingCatchesIncomplete(m: map<string, Json>)
    requires "event_id" in m && m["event_id"].Str? && "msg" in m && m["msg"].Str?
    requires "rank_eta" !in m && "success" !in m && "eta" !in m && "progress_data" !in m
    ensures DecodeMessage(Obj(m)) == Processing(m["event_id"].s, m["msg"].s, None, None)
  {
  }

  /** When both shapes are present, the first variant wins: an output with a
      `data` array and a numeric `duration` is a success even if it also
      carries an `error`. */
  lemma SuccessShadowsError(m: map<string, Json>)
    requires "data" in m && m["data"].Arr? && "duration" in m && IsNumber(m["duration"])
    ensures DecodeOutput(Obj(m)) == Some(Success(m["data"].items, m["duration"]))
  {
  }

  /** The output decoder's cases, both directions: a success exactly when `data`
      is an array and `duration` a number; otherwise an error exactly when the
      value is an object whose `error` is absent, `null` or a string. */
  lemma OutputVariants(j: Json)
    ensures (DecodeOutput(j).Some? && DecodeOutput(j).value.Success?)
            <==> j.Obj? && "data" in j.fields && j.fields["data"].Arr? && "duration" in j.fields && IsNumber(j.fields["duration"])
    ensures (DecodeOutput(j).Some? && DecodeOutput(j).value.Error?)
            <==> j.Obj? && !("data" in j.fields && j.fields["data"].Arr? && "duration" in j.fields && IsNumber(j.fields["duration"]))
                 && ("error" !in j.fields || j.fields["error"].Null? || j.fields["error"].Str?)
  {
  }

  /** `j` is an object whose field `name` is a string. */
  ghost predicate HasString(j: Json, name: string) {
    j.Obj? && name in j.fields && j.fields[name].Str?
  }

  /** `j` is an object whose field `name` is an integer within `i64`. */
  ghost predicate HasI64(j: Json, name: string) {
    j.Obj? && name in j.fields && j.fields[name].Int? && IsI64(j.fields[name].i)
  }

  /** The fields of `InQueue`, with their types. */
  ghost predicate InQueueShaped(j: Json) {
    HasString(j, "event_id") && HasString(j, "msg") && HasI64(j, "rank") && HasI64(j, "queue_size")
    && "rank_eta" in j.fields && IsNumber(j.fields["rank_eta"])
  }

  /** The fields of `Completed`, with their types. */
  ghost predicate CompletedShaped(j: Json) {
    HasString(j, "event_id") && HasString(j, "msg")
    && "output" in j.fields && DecodeOutput(j.fields["output"]).Some?
    && "success" in j.fields && j.fields["success"].Bool?
  }

  /** The fields of `Processing`: the two options may be absent or `null`. */
  ghost predicate ProcessingShaped(j: Json) {
    HasString(j, "event_id") && HasString(j, "msg")
    && ("eta" !in j.fields || j.fields["eta"].Null? || IsNumber(j.fields["eta"]))
    && ("progress_data" !in j.fields || j.fields["progress_data"].Null?
        || DecodeProgressList(j.fields["progress_data"]).Some?)
  }

  /** Which variant any JSON decodes to, by the fields it has: the first of
      InQueue, Completed and Processing whose fields all fit, and otherwise
      `Unknown` holding the JSON itself. Extra fields are ignored. */
  lemma MessageVariants(j: Json)
    ensures DecodeMessage(j).InQueue? <==> InQueueShaped(j)
    ensures DecodeMessage(j).Completed? <==> !InQueueShaped(j) && CompletedShaped(j)
    ensures DecodeMessage(j).Processing? <==> !InQueueShaped(j) && !CompletedShaped(j) && ProcessingShaped(j)
    ensures DecodeMessage(j) == Unknown(j) <==> !InQueueShaped(j) && !CompletedShaped(j) && !ProcessingShaped(j)
    ensures DecodeMessage(j).InQueue? ==>
              DecodeMessage(j) == InQueue(j.fields["event_id"].s, j.fields["msg"].s, j.fields["rank"].i,
                                          j.fields["queue_size"].i, j.fields["rank_eta"])
    ensures DecodeMessage(j).Completed? ==>
              DecodeMessage(j) == Completed(j.fields["event_id"].s, j.fields["msg"].s,
                                            DecodeOutput(j.fields["output"]).value, j.fields["success"].b)
  {
  }

  /** The `success` flag of a completion is recorded but decides nothing:
      flipping it changes neither which variant a message decodes to nor its
      event id and output. */
  lemma SuccessFlagDecidesNothing(m: map<string, Json>, b1: bool, b2: bool)
    ensures var r1 := DecodeMessage(Obj(m["success" := Bool(b1)]));
            var r2 := DecodeMessage(Obj(m["success" := Bool(b2)]));
            && (r1.Completed? <==> r2.Completed?)
            && (r1.Completed? ==> r1.eventId == r2.eventId && r1.output == r2.output)
  {
    var j1 := Obj(m["success" := Bool(b1)]);
    var j2 := Obj(m["success" := Bool(b2)]);
    assert DecodeInQueue(j1) == DecodeInQueue(j2);
    assert DecodeCompleted(j1).Some? <==> DecodeCompleted(j2).Some?;
  }
}
