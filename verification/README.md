# gradio-rs client core in Dafny

This project models the protocol and session layer of `gradio-rs`, a Rust
client for Gradio applications, and proves properties of that model. The
modelled parts are:

- **Connecting** (`Client::new`). The client draws a session hash. It trims the
  application reference and resolves it to an API root and an optional space
  id: an `owner/name` registry reference, a `*.hf.space` URL, or a direct root.
  It then logs in, wakes the space, and fetches the configuration and the API
  schema, in that order.
- **`predict`**. Inputs are marshalled in order, and files are uploaded first.
  The route is looked up in the dependency table. The client joins the queue
  and then drains the session's event stream until the invocation completes.
- **Decoding** of the serde records: the dependency table, the join reply,
  the untagged queue messages and completion outputs with their first-match
  variant order, and prediction outputs with the `is_*`/`as_*` accessors.
- **Wake-up**: a bounded status poller with thirteen polls at most.
- **`PredictionStream`**: joining under a fresh session, `next`, and `cancel`.
- **The `gr` command line's `run`**: route normalisation, endpoint lookup,
  coercion of string arguments, and output display names.

The network, the file system, randomness and the clock are inputs. A
`Response<T>` is either `Unreachable` (sending failed) or a `Reply` with a
success flag and the body decoded as `T` (`None` when it does not decode).
Stream events are `StreamOpened`, `StreamMessage` (the data parsed as JSON, or
`None`) and `StreamError`. Random draws are six-bit values. Every request and
sleep the client makes is recorded as an `Effect`, in order. JSON is an
abstract `Json` datatype. Integers are unbounded, with explicit `i64`/`usize`
range checks. Floating-point numbers are kept as uninterpreted `Float(real)`
values.

Modules follow the source files: `Client` (client.rs), `Structs`
(structs.rs), `Data` (data.rs), `Space` (space.rs), `Stream` (stream.rs) and
`Gr` (bin/gr.rs). `Queue` holds the join step that client.rs and stream.rs
share. `Wrappers`, `Json`, `Text`, `Errors`, `Transport`, `Constants` and
`SessionHash` are support modules.

Behaviour of the code worth noting:

- A dependency whose `id` is absent gets `-1`, and `predict` joins the queue
  with `-1`, not with the dependency's position in the list.
- `PredictionStream::next` hands back every message, whatever its event id.
- Inputs are values or files only; there is no nested-list input.
- Untagged messages are tried in the order InQueue, Completed, Processing,
  Unknown.
- No API-path prefix is appended to the root, and the protocol version is not
  checked.
- The registry lookup never checks the reply's status code.
- There are no heartbeat, log or server-error message kinds.
- `predict` uses the client's session hash; only a stream draws a fresh one.

## Model

| member | source | states |
|---|---|---|
| SessionHash.Generate | src/client.rs:78-82 | the session hash is exactly ten characters, each an ASCII letter or digit |
| SessionHash.Sampled | src/client.rs:78-81 | rejection sampling yields at most one character per draw, every one alphanumeric |
| SessionHash.CharsetIsAlphanumeric | src/client.rs:79 | the charset a draw indexes holds exactly the ASCII letters and digits |
| Text.TrimEnd | src/client.rs:98 | every trailing `/` is removed: the result is a prefix with no trailing `/`, and only `/` was cut |
| Text.IsRegistryReference | src/client.rs:101 | true exactly when the text is name characters, one `/`, then name characters (both parts non-empty) |
| Text.RemoveAllAbsent | src/client.rs:111 | removing `.hf.space` changes nothing when the text has no occurrence of it |
| Client.Resolve | src/client.rs:97-112 | a registry reference costs one lookup and succeeds exactly when the reply has a body naming a host, which becomes the API root with the reference as space id; an unreachable registry fails the request and a reply without a host fails as undecodable; a hosted URL keeps its root and drops `.hf.space` for the space id; anything else has no space id; only the registry form makes a request |
| Client.RegistryStatusIgnored | src/client.rs:106-107 | the lookup's status code is not examined: an error status with a host body resolves like a success |
| Client.HostedMeansHfSpaceSuffix | src/client.rs:98-112 | after trimming, the hosted pattern's optional slash never matters: it matches exactly the texts ending in `hf.space` |
| Client.HostedSpaceId | src/client.rs:110-111 | the space id of `p.hf.space`, where `p` has no `.hf.space`, is `p` with its scheme and everything else kept |
| Client.LoginStep | src/client.rs:115-124 | without credentials nothing happens; with them one login post is made, and a non-success status fails with "Login failed" |
| Client.WakeStep | src/client.rs:126-128 | the space is woken only when there is a space id, with the poller's result and effects |
| Client.Fetch | src/client.rs:131-148 | a fetch succeeds exactly on a success status with a decodable body; a non-success status fails with the endpoint's own failure |
| Client.FetchSession | src/client.rs:130-148 | the configuration is always fetched, and the schema only after a good configuration. Success means both replies succeeded with those bodies, and two good replies always give the session built from them. The first failing fetch's error is the result, a non-success status giving the matching error |
| Client.Connect | src/client.rs:114-148 | a failed login ends the connection with the login's error, and a failed wake-up ends it with the wake-up's error after the login and polls; otherwise good configuration and schema replies give the session built from them, and success ends with the config fetch then the info fetch; login, config and info rejections are "Login failed", "Could not resolve app config" and "Could not get API info" |
| Client.New | src/client.rs:77-159 | a failed resolution fails the creation with its error and requests; after resolution the requests are the resolution's then the connection's, a failed connection fails the creation with its error, and a good one gives the client with the drawn 10-character alphanumeric hash, the resolved root and space id, and the fetched configuration and schema |
| Client.TrailingSlashIgnored | src/client.rs:98 | a reference with a trailing `/` creates the same client with the same requests |
| Client.DirectReferenceConnectsAtOnce | src/client.rs:110-132 | a direct root without credentials makes no lookup, login or poll: its first request is the config fetch, and it has no space id |
| Client.ConnectInPhaseOrder | src/client.rs:114-148 | after resolution, requests come in stages: login, then polls and sleeps, then config, then info |
| Client.NewInPhaseOrder | src/client.rs:97-148 | client creation never returns to an earlier stage: registry lookup, login, wake-up, config, info |
| Client.WakeUpOnlyForSpaces | src/client.rs:126-128 | a connected client polled the status endpoint exactly when it has a space id |
| Client.LastSegment | src/client.rs:181 | the text after the last `/`, which contains no `/` |
| Client.FileName | src/client.rs:181-182 | a file name is never empty, `.`, `..` or contains `/`; none means "Invalid file path" |
| Client.FileNameOfJoin | src/client.rs:181-182 | a plain name, alone or under any directory, is that path's file name |
| Client.UploadOne | src/client.rs:178-211 | the file is read, named and posted in that order. It fails unreadable, "Invalid file path", "Error uploading file" on a non-success status, or "Invalid file upload response" unless exactly one path comes back. On success it yields the envelope with that path and the full local path as `orig_name` |
| Client.Marshal | src/client.rs:174-215 | succeeds exactly when every input marshals; the result has one element per input, in order, each what that input marshals to; a failure is the first failing input's failure; the requests are each input's uploads in order, up to and including the first failure, and nothing but uploads |
| Client.ValuesPassThrough | src/client.rs:213 | value inputs are sent unchanged and cause no request |
| Client.FirstMatch | src/client.rs:218-222 | the position of the first dependency with that name, or none when no dependency has it |
| Client.FindRoute | src/client.rs:217-224 | leading slashes are stripped; the result is the `id` of the first dependency with that name, unchanged; "Invalid route" when none matches |
| Client.FindRouteTakesFirst | src/client.rs:218-224 | whichever dependency is first to carry the name gives the index, whatever its position |
| Client.SentinelNotReplaced | src/client.rs:218-224 | a dependency without `id` gives index -1, not its position |
| Client.LeadingSlashesIgnored | src/client.rs:217 | any number of leading slashes finds the same route |
| Client.DecodeOutputs | src/client.rs:260-266 | each data element is decoded independently, in order |
| Client.StepOn | src/client.rs:246-280 | Open and non-completion messages are skipped, and so are completions of other events. A transport error or non-JSON message ends the wait with an error. A completion of the joined event ends it: successfully exactly on a Success output, yielding the decoded data, and otherwise with the server's error text or "Unknown error" |
| Client.Drain | src/client.rs:246-283 | a stream in which nothing ends the wait fails with "Stream ended unexpectedly" |
| Client.FirstFinishOrNone | src/client.rs:246-283 | either some stream item ends the wait first, or none does |
| Client.DrainFirstFinish | src/client.rs:246-281 | the first item that ends the wait decides the outcome |
| Client.DrainEvents | src/client.rs:246-283 | the loop returns the first finishing item's result, or "Stream ended unexpectedly" when none finishes |
| Client.DrainStopsAtFirstFinish | src/client.rs:258-271 | items after the first finishing one are never read |
| Client.SuccessFlagIgnored | src/client.rs:259-271 | a completion's `success` flag does not affect `predict` |
| Client.OtherEventsSkipped | src/client.rs:258 | completions of other event ids are skipped, whatever their output |
| Client.Submit | src/client.rs:226-283 | the queue join always comes first. A failed join ends the call with the join's error and no subscription. An accepted join is followed by a subscription, and the outcome is that of draining the stream for the assigned event id |
| Client.Predict | src/client.rs:169-284 | a failed marshalling ends the call with its error and its uploads; after good uploads a missing route fails with no further request; otherwise the requests are the uploads then those of the join and subscription step, a failed join gives its error, and an accepted one gives the outcome of draining the stream for the assigned event id. On success, uploads came first, then one join with `{fn_index, data, session_hash}` built from the route's id, the marshalled inputs and the client's hash, then one subscription to that session's stream |
| Client.PredictSuccess | src/client.rs:234-283 | a prediction succeeds exactly when the inputs marshal, the route exists, the join is accepted and the first item that finishes the wait for the joined event id is a successful completion; its outputs are then the prediction's result |
| Queue.JoinPayload | src/client.rs:227-232 | the join body has exactly the keys `fn_index`, `data`, `session_hash`, with the given values |
| Queue.Join | src/client.rs:234-239 | one join post; a non-success status fails "Cannot join task queue"; success exactly when the reply decodes, and the event id is taken unchanged |
| Structs.DecodeDependency | src/structs.rs:62-72 | a dependency without `id` gets -1; a present `id` is a 64-bit integer kept as is |
| Structs.DependencyRoundTrip | src/structs.rs:62-72 | a dependency written by serde reads back unchanged |
| Structs.DecodeStringOrI64 | src/structs.rs:74-79 | strings decode as `String` and 64-bit integers as `I64`, nothing else as `I64` |
| Structs.DecodeJoinResponse | src/structs.rs:119-122 | the join reply's `event_id` string is the event id |
| Structs.DecodeProgressList | src/structs.rs:162-167 | a progress list decodes exactly element by element |
| Structs.DecodeOutput | src/structs.rs:150-160 | only objects decode as completion outputs |
| Structs.DecodeMessage | src/structs.rs:124-148 | decoding a queue message never fails and never yields `Open`; the first of InQueue, Completed and Processing that decodes is taken, in that order, and non-objects and objects matching none are `Unknown` holding the JSON |
| Structs.MessageVariants | src/structs.rs:124-148 | any JSON is InQueue exactly when it is an object with string `event_id` and `msg`, i64 `rank` and `queue_size` and a numeric `rank_eta`; otherwise Completed exactly when it has string `event_id` and `msg`, a decodable `output` and a boolean `success`; otherwise Processing exactly when it has string `event_id` and `msg` and an `eta` and `progress_data` that are absent, null or well typed; otherwise `Unknown` holding itself. The InQueue and Completed values are read from those fields |
| Structs.MessageRoundTrip | src/structs.rs:124-145 | every InQueue, Completed or Processing message written by serde decodes back to itself under the first-match order |
| Structs.ProgressListRoundTrip | src/structs.rs:162-167 | a progress list written by serde reads back unchanged |
| Structs.ProcessingCatchesIncomplete | src/structs.rs:127-145 | an object with `event_id` and `msg` but without `rank_eta` and `success` decodes as Processing |
| Structs.SuccessShadowsError | src/structs.rs:152-159 | an output with a `data` array and numeric `duration` is a success even when it carries `error` |
| Structs.OutputVariants | src/structs.rs:150-160 | both directions: Success exactly when `data` is an array and `duration` a number; Error exactly for other objects whose `error` is absent, null or a string |
| Structs.SuccessFlagDecidesNothing | src/structs.rs:134-139 | the `success` flag changes neither the decoded variant nor the event id or output |
| Data.FromFile | src/data.rs:12-14 | `from_file` yields a file input with that path |
| Data.FromValue | src/data.rs:16-18 | `from_value` yields a value input that keeps the argument's kind and content: strings, booleans, integers and floats become the matching JSON value, and raw JSON is passed unchanged |
| Data.DecodeFileData | src/data.rs:52-64 | only five-field struct shapes decode as file descriptors |
| Data.DecodePrediction | src/data.rs:21-26 | File is tried first; decoding never fails, and a non-file is kept unchanged as Value |
| Data.IsFile | src/data.rs:29-35 | exactly one of `is_file` and `is_value` holds |
| Data.AsFile | src/data.rs:37-42 | succeeds exactly for files and returns the contained descriptor, else "Expected file output" |
| Data.AsValue | src/data.rs:44-49 | succeeds exactly for values and returns the JSON, else "Expected value output" |
| Data.EnvelopeDecodesAsFile | src/client.rs:205-211 | the upload envelope decodes as a file with that path and name, the file marker, and no url or size |
| Data.FileDataRoundTrip | src/data.rs:52-64 | a file descriptor written by serde reads back as the same file |
| Data.ObjectClassification | src/data.rs:21-64 | an object is a file exactly when `meta._type` is a string and the optional fields are absent, null or well typed, whatever else it carries |
| Data.NonStructIsValue | src/data.rs:23-25 | JSON that is neither an object nor a five-element array is a Value of itself |
| Space.ParseStage | src/space.rs:16-34 | the seven stage names map to their stages, any other text to `Unknown` of it, and the name reads back |
| Space.StageRoundTrip | src/space.rs:16-31 | every known stage is recovered from its name |
| Space.Judge | src/space.rs:46-72 | a reply ends the wait successfully exactly when it has a success status and names RUNNING or RUNNING_BUILDING; an unreachable server, a non-success status, an undecodable body, PAUSED and an unknown stage each end it with their own error, and the waiting stages keep it waiting |
| Space.PollFrom | src/space.rs:41-84 | at most thirteen polls; the last reply decides the outcome or the budget ran out ("taking too long"); every earlier reply was not ready |
| Space.WakeUp | src/space.rs:36-85 | wake-up polls between one and thirteen times |
| Space.WakeEffects | src/space.rs:41-83 | a poll first, then a 5000 ms sleep before each further poll |
| Space.WakeUpSpace | src/space.rs:36-85 | the loop agrees with the recursive poller, and sleeps 5000 ms once fewer than it polls |
| Space.FirstDecisiveReplyDecides | src/space.rs:51-73 | the first reply that decides anything decides the outcome, after that many polls |
| Space.WaitingExhaustsBudget | src/space.rs:75-83 | thirteen not-ready replies time out after thirteen polls and twelve sleeps |
| Space.RunningAtOnce | src/space.rs:64-66 | a running space is ready on the first poll |
| Space.PausedAtOnce | src/space.rs:58-63 | a paused space fails at once with "paused by the author", using no retry |
| Space.SleepingTimesOut | src/space.rs:51-83 | a space asleep at every poll times out |
| Space.SuccessMeansRunning | src/space.rs:64-66 | a successful wake-up saw the space running on its last poll and not ready before |
| Stream.New | src/stream.rs:18-58 | a stream joins once with exactly `{fn_index, data, session_hash}`, under a fresh 10-character alphanumeric hash. It subscribes to that session only after a successful join, and keeps the event id; a failed join makes no other request and fails with the join's error, a non-success status giving "Cannot join task queue" |
| Stream.Translate | src/stream.rs:64-71 | transport Open gives `Open`; a JSON message gives its decoding; non-JSON gives "Server Error"; a transport error gives "Client Error" |
| Stream.Next | src/stream.rs:60-72 | `next` takes exactly one pending event, which must exist, and changes nothing else |
| Stream.NextDoesNotFilter | src/stream.rs:60-72 | messages of any event id are handed back as they are |
| Stream.NextAgreesWithPredict | src/stream.rs:60-72 | an event that completes `predict` is a matching Success completion to `next` too |
| Stream.Cancel | src/stream.rs:74-92 | cancel always succeeds, whatever the replies; it closes the source first, then posts cancel `{event_id, session_hash, fn_index}` and reset `{event_id}` |
| Gr.NormaliseRoute | src/bin/gr.rs:74 | exactly one leading `/` followed by the route without its leading slashes |
| Gr.NormaliseIdempotent | src/bin/gr.rs:74 | normalising twice is normalising once |
| Gr.NormalisedRouteFindsSameDependency | src/bin/gr.rs:74 | the normalised route finds the same dependency as the typed one |
| Gr.LookupEndpoint | src/bin/gr.rs:84-89 | the schema entry exactly when the route is a key, else "Route ... not found" |
| Gr.ParseI64 | src/bin/gr.rs:105 | a text is accepted exactly when it is digits, or a sign followed by digits, whose value fits in 64 bits; the value is that of the digits, negated after a minus |
| Gr.ParseI64RoundTrip | src/bin/gr.rs:105 | every 64-bit integer parses back from its decimal text |
| Gr.ParseI64PlusSign | src/bin/gr.rs:105 | a leading `+` is accepted and changes nothing |
| Gr.ParseBool | src/bin/gr.rs:111 | accepts exactly `true` and `false`, with their meaning |
| Gr.CoerceOne | src/bin/gr.rs:100-116 | `filepath` yields a file and wins over the type tag. `string` passes the text as a JSON string. `number` succeeds exactly when it parses as an integer, which is preferred, or else as a float, whose value is passed on; otherwise it fails as an invalid number. `boolean` succeeds exactly on `true`/`false` and otherwise fails as an invalid boolean. Any other tag fails "Unsupported parameter type" naming it |
| Gr.IntegerArgumentsStayIntegers | src/bin/gr.rs:104-106 | a number parameter given an integer's text receives that integer |
| Gr.CoerceFrom | src/bin/gr.rs:92-118 | succeeds exactly when every parameter from that position on has an argument that coerces; one input per parameter, in order |
| Gr.CoerceReportsFirstBadParameter | src/bin/gr.rs:92-117 | a failure reports the first parameter without an argument or with one that does not coerce |
| Gr.Coerce | src/bin/gr.rs:91-118 | one input per declared parameter, in order, each that argument's coercion; fewer arguments than parameters fails |
| Gr.ExtraArgumentsIgnored | src/bin/gr.rs:92-99 | arguments beyond the parameters change nothing |
| Gr.DisplayName | src/bin/gr.rs:168-174 | the label, else the parameter name, else "unnamed" |
| Gr.NameOutputs | src/bin/gr.rs:122-130 | succeeds exactly when there is an output for every declared return, pairing each with its display name in order; else "Missing return value" |

## Left out

- HTTP itself, cookies, the bearer-token header, building the HTTP client,
  multipart forms and MIME guessing are not modelled. Their results are inputs:
  a success flag and a decoded body per request.
- Reading a file is an input: a readable flag per upload.
- The event source's framing, reconnection and internals are left out. The
  stream is a finite sequence of events, and its end is the sequence's end.
- Randomness is a sequence of six-bit draws. The generator itself is not
  modelled.
- Sleeping is recorded as a duration in milliseconds; there is no clock.
- Floating-point values (`rank_eta`, `eta`, `duration`, the `f64` fallback of
  number arguments) are uninterpreted. Only "a number is present" is checked,
  and the float parse is a function parameter. serde's treatment of NaN and
  infinities is not modelled.
- Error messages that include Rust debug output (`{:#?}`), and library errors
  (sending, decoding, reading), are distinct failure kinds without text.
- The space-status stage also decodes from serde's map form
  (`{"RUNNING": null}`); only the string form is modelled.
- `AppConfig` and `ComponentMeta` metadata is opaque: the configuration is
  handed over already decoded, and only its route table is read.
- `ApiData` keeps only the label, the parameter name and the two type tags.
- src/sync.rs only wraps the asynchronous calls in a runtime per call.
- Downloading and saving files, `suggest_extension`, and all printing in
  src/bin/gr.rs are left out. The source panics on a missing route, parameter
  or return value; here these are error outcomes.
- The `run` command's glue is not modelled as one operation. Its steps are
  modelled individually: creating the client, looking up the endpoint,
  coercing, predicting and naming outputs.
- src/constants.rs and src/lib.rs hold constants and re-exports. The
  constants used are copied into `Constants`.
- Stream.Cancel: the two posts' replies are parameters that are never read.
  Failures of the posts cannot be observed.
- Client.UploadOne: one upload oracle per input position. Two inputs naming
  the same file are answered independently.
- Stream.Next: the source unwraps the stream's next item, and so panics once
  the stream has ended or was closed. The model requires an open stream with a
  pending event instead of modelling the panic.
