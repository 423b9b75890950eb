/**
 The hosted application's runtime stage, and the bounded wake-up poller that
 waits for a sleeping application to start.
 */
module Space {
  import opened Wrappers
  import opened Json
  import opened Errors
  import opened Transport
  import Constants

  /** A runtime stage: seven known names, and any other name as `Unknown`. */
  datatype Stage =
    | Stopped
    | Sleeping
    | Paused
    | Running
    | RunningBuilding
    | Building
    | AppStarting
    | Unknown(name: string)

  /** The wire name of a stage; an unknown stage is written as its own name. */
  function StageName(st: Stage): string {
    match st
    case Stopped => "STOPPED"
    case Sleeping => "SLEEPING"
    case Paused => "PAUSED"
    case Running => "RUNNING"
    case RunningBuilding => "RUNNING_BUILDING"
    case Building => "BUILDING"
    case AppStarting => "APP_STARTING"
    case Unknown(s) => s
  }

  const KnownStageNames: set<string> :=
    {"STOPPED", "SLEEPING", "PAUSED", "RUNNING", "RUNNING_BUILDING", "BUILDING", "APP_STARTING"}

  /** The stage a status reply names: a known name maps to its stage, any other
      text is kept as `Unknown`. */
  function ParseStage(s: string): (st: Stage)
    ensures st.Unknown? <==> s !in KnownStageNames
    ensures StageName(st) == s
  {
    if s == "STOPPED" then Stopped
    else if s == "SLEEPING" then Sleeping
    else if s == "PAUSED" then Paused
    else if s == "RUNNING" then Running
    else if s == "RUNNING_BUILDING" then RunningBuilding
    else if s == "BUILDING" then Building
    else if s == "APP_STARTING" then AppStarting
    else Unknown(s)
  }

  /** Every known stage reads back from its wire name. */
  lemma StageRoundTrip(st: Stage)
    requires !st.Unknown?
    ensures ParseStage(StageName(st)) == st
  {
  }

  /** The space-status reply `{runtime: {stage}, id}`; only the stage is kept. */
  function DecodeSpaceStatus(j: Json): Option<Stage> {
    if !StructShaped(j, 2) then None
    else
      var runtime := Field(j, "runtime", 0, 2);
      var id := Required(Field(j, "id", 1, 2), AsString);
      if runtime.None? || id.None? || !StructShaped(runtime.value, 1) then None
      else match Field(runtime.value, "stage", 0, 1)
        case Some(Str(s)) => Some(ParseStage(s))
        case _ => None
  }

  /** The stages that mean "not ready yet, keep polling". */
  predicate Waiting(st: Stage) {
    st.Stopped? || st.Sleeping? || st.Building? || st.AppStarting?
  }

  const MaxRetries: nat := 12
  const CheckIntervalMs: nat := 5000

  /** The status endpoint of a space. */
  function StatusUrl(spaceId: string): string {
    Constants.SpacesApi + spaceId
  }

  /** What one status reply decides: keep waiting, or stop with a result. */
  datatype Verdict = KeepWaiting | Decided(result: Result<(), Failure>)

  function Judge(spaceId: string, reply: Response<Json>): (v: Verdict)
    ensures v.Decided? && v.result.Ok? <==>
            reply.Reply? && reply.success && reply.body.Some?
            && DecodeSpaceStatus(reply.body.value) in {Some(Running), Some(RunningBuilding)}
    ensures reply.Unreachable? ==> v == Decided(Err(RequestFailed))
    ensures reply.Reply? && !reply.success ==> v == Decided(Err(SpaceStatusUnavailable))
    ensures reply.Reply? && reply.success && (reply.body.None? || DecodeSpaceStatus(reply.body.value).None?)
            ==> v == Decided(Err(BodyUndecodable))
    ensures reply.Reply? && reply.success && reply.body.Some? && DecodeSpaceStatus(reply.body.value) == Some(Paused)
            ==> v == Decided(Err(SpacePaused(spaceId)))
    ensures reply.Reply? && reply.success && reply.body.Some? && DecodeSpaceStatus(reply.body.value).Some?
            && DecodeSpaceStatus(reply.body.value).value.Unknown?
            ==> v == Decided(Err(UnknownStage(DecodeSpaceStatus(reply.body.value).value.name, spaceId)))
    ensures v.KeepWaiting? <==>
            reply.Reply? && reply.success && reply.body.Some? && DecodeSpaceStatus(reply.body.value).Some?
            && Waiting(DecodeSpaceStatus(reply.body.value).value)
  {
    match reply
    case Unreachable => Decided(Err(RequestFailed))
    case Reply(success, body) =>
      if !success then Decided(Err(SpaceStatusUnavailable))
      else if body.None? then Decided(Err(BodyUndecodable))
      else match DecodeSpaceStatus(body.value)
        case None => Decided(Err(BodyUndecodable))
        case Some(st) =>
          match st
          case Paused => Decided(Err(SpacePaused(spaceId)))
          case Running => Decided(Ok(()))
          case RunningBuilding => Decided(Ok(()))
          case Unknown(s) => Decided(Err(UnknownStage(s, spaceId)))
          case _ => KeepWaiting
  }

  /** The poller's outcome and how many status requests it made; it sleeps
      `CheckIntervalMs` between consecutive polls. */
  datatype WakeReport = WakeReport(result: Result<(), Failure>, polls: nat)

  /** The poll loop from the poll with retry count `retries` on; `replies[k]`
      answers the k-th poll. */
  function PollFrom(spaceId: string, replies: seq<Response<Json>>, retries: nat): (r: WakeReport)
    requires retries <= MaxRetries && |replies| > MaxRetries
    ensures retries < r.polls <= MaxRetries + 1
    ensures Judge(spaceId, replies[r.polls - 1]).Decided? ==> r.result == Judge(spaceId, replies[r.polls - 1]).result
    ensures Judge(spaceId, replies[r.polls - 1]).KeepWaiting? ==> r.polls == MaxRetries + 1 && r.result == Err(SpaceTooSlow(spaceId))
    ensures forall i :: retries <= i < r.polls - 1 ==> Judge(spaceId, replies[i]).KeepWaiting?
    decreases MaxRetries - retries
  {
    match Judge(spaceId, replies[retries])
    case Decided(result) => WakeReport(result, retries + 1)
    case KeepWaiting =>
      if retries >= MaxRetries then WakeReport(Err(SpaceTooSlow(spaceId)), retries + 1)
      else PollFrom(spaceId, replies, retries + 1)
  }

  /** `wake_up_space`: poll until the space runs, fails, or the retry budget
      is spent. */
  function WakeUp(spaceId: string, replies: seq<Response<Json>>): (r: WakeReport)
    requires |replies| > MaxRetries
    ensures 1 <= r.polls <= MaxRetries + 1
  {
    PollFrom(spaceId, replies, 0)
  }

  /** The requests and sleeps of a wake-up that polled `polls` times: a poll,
      then a sleep and a poll for each later poll. */
  function WakeEffects(spaceId: string, polls: nat): (es: seq<Effect>)
    requires polls >= 1
    ensures |es| == 2 * polls - 1
    ensures forall i :: 0 <= i < |es| ==> es[i] == (if i % 2 == 0 then StatusPoll(StatusUrl(spaceId)) else Sleep(CheckIntervalMs))
  {
    if polls == 1 then [StatusPoll(StatusUrl(spaceId))]
    else WakeEffects(spaceId, polls - 1) + [Sleep(CheckIntervalMs), StatusPoll(StatusUrl(spaceId))]
  }

  // ---------------------------------------------------------------------------
  // The loop as the source writes it
  // ---------------------------------------------------------------------------

  /** The source's loop, sleeping recorded as durations: its result and poll
      count are those of `WakeUp`, and it sleeps once fewer than it polls. */
  method WakeUpSpace(spaceId: string, replies: seq<Response<Json>>) returns (result: Result<(), Failure>, polls: nat, sleeps: seq<nat>)
    requires |replies| > MaxRetries
    ensures WakeReport(result, polls) == WakeUp(spaceId, replies)
    ensures |sleeps| == polls - 1
    ensures forall i :: 0 <= i < |sleeps| ==> sleeps[i] == CheckIntervalMs
  {
    var retries: nat := 0;
    sleeps := [];
    while true
      invariant retries <= MaxRetries
      invariant |sleeps| == retries
      invariant forall i :: 0 <= i < |sleeps| ==> sleeps[i] == CheckIntervalMs
      invariant PollFrom(spaceId, replies, retries) == WakeUp(spaceId, replies)
      decreases MaxRetries - retries
    {
      var verdict := Judge(spaceId, replies[retries]);
      if verdict.Decided? {
        return verdict.result, retries + 1, sleeps;
      }
      if retries >= MaxRetries {
        return Err(SpaceTooSlow(spaceId)), retries + 1, sleeps;
      }
      retries := retries + 1;
      sleeps := sleeps + [CheckIntervalMs];
    }
  }

  // ---------------------------------------------------------------------------
  // Properties of the poller
  // ---------------------------------------------------------------------------

  /** The first reply that decides anything decides the outcome, after exactly
      that many polls: nothing after it is looked at. */
  lemma {:induction false} FirstDecisiveReplyDecides(spaceId: string, replies: seq<Response<Json>>, retries: nat, k: nat)
    requires retries <= k <= MaxRetries && |replies| > MaxRetries
    requires forall i :: retries <= i < k ==> Judge(spaceId, replies[i]).KeepWaiting?
    requires Judge(spaceId, replies[k]).Decided?
    ensures PollFrom(spaceId, replies, retries) == WakeReport(Judge(spaceId, replies[k]).result, k + 1)
    decreases k - retries
  {
    if retries < k {
      FirstDecisiveReplyDecides(spaceId, replies, retries + 1, k);
    }
  }

  /** Thirteen consecutive not-ready replies exhaust the budget: a timeout,
      never a success, after thirteen polls and so twelve sleeps. */
  lemma {:induction false} WaitingExhaustsBudget(spaceId: string, replies: seq<Response<Json>>, retries: nat)
    requires retries <= MaxRetries && |replies| > MaxRetries
    requires forall i :: retries <= i <= MaxRetries ==> Judge(spaceId, replies[i]).KeepWaiting?
    ensures PollFrom(spaceId, replies, retries) == WakeReport(Err(SpaceTooSlow(spaceId)), MaxRetries + 1)
    decreases MaxRetries - retries
  {
    if retries < MaxRetries {
      WaitingExhaustsBudget(spaceId, replies, retries + 1);
    }
  }

  /** A reply with the given stage, as the status endpoint sends it. */
  function StageReply(st: Stage): Response<Json> {
    Reply(true, Some(Obj(map["runtime" := Obj(map["stage" := Str(StageName(st))]), "id" := Str("")])))
  }

  /** A running space is ready on the first poll, with no sleep. */
  lemma RunningAtOnce(spaceId: string, replies: seq<Response<Json>>)
    requires |replies| > MaxRetries && replies[0] == StageReply(Running)
    ensures WakeUp(spaceId, replies) == WakeReport(Ok(()), 1)
  {
    assert DecodeSpaceStatus(replies[0].body.value) == Some(Running);
  }

  /** A paused space fails at once, whatever the later replies. */
  lemma PausedAtOnce(spaceId: string, replies: seq<Response<Json>>)
    requires |replies| > MaxRetries && replies[0] == StageReply(Paused)
    ensures WakeUp(spaceId, replies) == WakeReport(Err(SpacePaused(spaceId)), 1)
  {
    assert DecodeSpaceStatus(replies[0].body.value) == Some(Paused);
  }

  /** A space that sleeps through every poll times out after thirteen polls. */
  lemma SleepingTimesOut(spaceId: string, replies: seq<Response<Json>>)
    requires |replies| > MaxRetries
    requires forall i :: 0 <= i <= MaxRetries ==> replies[i] == StageReply(Sleeping)
    ensures WakeUp(spaceId, replies) == WakeReport(Err(SpaceTooSlow(spaceId)), MaxRetries + 1)
  {
    forall i | 0 <= i <= MaxRetries
      ensures Judge(spaceId, replies[i]).KeepWaiting?
    {
      assert DecodeSpaceStatus(replies[i].body.value) == Some(Sleeping);
    }
    WaitingExhaustsBudget(spaceId, replies, 0);
  }

  /** A success means the last poll saw the space running and every earlier
      poll saw it not yet ready. */
  lemma SuccessMeansRunning(spaceId: string, replies: seq<Response<Json>>)
    requires |replies| > MaxRetries && WakeUp(spaceId, replies).result.Ok?
    ensures var n := WakeUp(spaceId, replies).polls;
            && replies[n - 1].Reply? && replies[n - 1].body.Some?
            && DecodeSpaceStatus(replies[n - 1].body.value) in {Some(Running), Some(RunningBuilding)}
            && forall i :: 0 <= i < n - 1 ==> Judge(spaceId, replies[i]).KeepWaiting?
  {
  }
}
