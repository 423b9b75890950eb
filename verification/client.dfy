/**
 The client session: resolving an application reference, connecting
 (login, wake-up, configuration and schema), and `predict`: marshalling
 inputs, looking up the route, joining the queue and draining the event
 stream to the invocation's completion.
 */
module Client {
  import opened Wrappers
  import opened Json
  import opened Text
  import opened Errors
  import opened Transport
  import opened Structs
  import opened Data
  import opened Queue
  import Space
  import SessionHash
  import Constants

  /** A connected client. */
  datatype Client = Client(
    sessionHash: string,
    apiRoot: string,
    spaceId: Option<string>,
    config: AppConfig,
    apiInfo: ApiInfo)

  datatype Credentials = Credentials(username: string, password: string)

  // ===========================================================================
  // Reference resolution
  // ===========================================================================

  /** The suffix removed from a hosted reference to form its space id. */
  const HostedDomain: string := ".hf.space"

  /** The three forms of application reference, tried in this order. */
  datatype ReferenceKind = Registry | Hosted | Direct

  function Classify(reference: string): ReferenceKind {
    if IsRegistryReference(reference) then Registry
    else if MatchesHostedPattern(reference) then Hosted
    else Direct
  }

  /** Where the API lives, and the space id when there is one to wake. */
  datatype Endpoint = Endpoint(apiRoot: string, spaceId: Option<string>)

  function RegistryUrl(reference: string): string {
    Constants.SpacesApi + reference + "/" + Constants.HostUrl
  }

  /** The registry's `{host}` reply. */
  function DecodeHost(j: Json): Option<string> {
    if StructShaped(j, 1) then Required(Field(j, "host", 0, 1), AsString) else None
  }

  /** Resolve a trimmed reference. An `owner/name` reference costs one registry
      lookup and names its own space; a hosted reference keeps its URL as API
      root and names the space by deleting `.hf.space`; anything else is an API
      root with no space. The lookup's status code is never examined. */
  function Resolve(reference: string, registry: Response<Json>): (r: Traced<Endpoint>)
    ensures Classify(reference) == Registry ==> r.effects == [RegistryLookup(RegistryUrl(reference))]
    ensures Classify(reference) != Registry ==> r.effects == [] && r.result.Ok?
    ensures Classify(reference) == Registry ==>
              (r.result.Ok? <==> registry.Reply? && registry.body.Some? && DecodeHost(registry.body.value).Some?)
    ensures Classify(reference) == Registry && r.result.Ok? ==>
              r.result.value == Endpoint(DecodeHost(registry.body.value).value, Some(reference))
    ensures Classify(reference) == Registry && registry.Unreachable? ==> r.result == Err(RequestFailed)
    ensures (Classify(reference) == Registry && registry.Reply?
             && (registry.body.None? || DecodeHost(registry.body.value).None?)) ==> r.result == Err(BodyUndecodable)
    ensures Classify(reference) == Hosted ==> r.result.value == Endpoint(reference, Some(RemoveAll(reference, HostedDomain)))
    ensures Classify(reference) == Direct ==> r.result.value == Endpoint(reference, None)
  {
    if Classify(reference) == Registry then
      var effects := [RegistryLookup(RegistryUrl(reference))];
      match registry
      case Unreachable => Traced(Err(RequestFailed), effects)
      case Reply(_, body) =>
        var host := if body.Some? then DecodeHost(body.value) else None;
        if host.None? then Traced(Err(BodyUndecodable), effects)
        else Traced(Ok(Endpoint(host.value, Some(reference))), effects)
    else if Classify(reference) == Hosted then
      Traced(Ok(Endpoint(reference, Some(RemoveAll(reference, HostedDomain)))), [])
    else
      Traced(Ok(Endpoint(reference, None)), [])
  }

  /** The registry answers with a host even under an error status: only
      sending and decoding can fail the lookup. */
  lemma RegistryStatusIgnored(reference: string, body: Option<Json>)
    requires Classify(reference) == Registry
    ensures Resolve(reference, Reply(false, body)) == Resolve(reference, Reply(true, body))
  {
  }

  /** Trimming leaves no trailing slash, so the optional slash of the hosted
      pattern never matters: a trimmed reference is hosted exactly when it ends
      in `hf.space`. */
  lemma HostedMeansHfSpaceSuffix(reference: string)
    ensures MatchesHostedPattern(TrimEnd(reference, '/')) <==> EndsWith(TrimEnd(reference, '/'), "hf.space")
  {
  }

  /** A text without `.hf.space` does not start an occurrence of it either
      when the domain is appended: no proper suffix of `.hf.space` is also a
      prefix of it, so an occurrence cannot straddle the join. */
  lemma HostedDomainHasNoBorder(p: string)
    requires 0 < |p| && !Contains(p, HostedDomain)
    ensures !StartsWith(p + HostedDomain, HostedDomain)
  {
    var s := p + HostedDomain;
    if |p| < |HostedDomain| {
      // The first character of the appended domain, or the one after it,
      // falls on a different character of the domain's own prefix.
      var w := if |p| == 3 then 4 else |p|;
      assert s[w] == HostedDomain[w - |p|];
      assert s[w] != HostedDomain[w];
      assert s[..|HostedDomain|][w] == s[w];
    } else {
      assert s[..|HostedDomain|] == p[0..|HostedDomain|];
      assert !MatchAt(p, HostedDomain, 0);
    }
  }

  /** The space id of a hosted URL `p.hf.space`, where `p` has no `.hf.space`
      of its own, is `p`: the scheme and everything before the domain are kept. */
  lemma {:induction false} HostedSpaceId(p: string)
    requires !Contains(p, HostedDomain)
    ensures RemoveAll(p + HostedDomain, HostedDomain) == p
    decreases |p|
  {
    var s := p + HostedDomain;
    if |p| == 0 {
      assert s == HostedDomain;
      assert StartsWith(s, HostedDomain);
      assert s[|HostedDomain|..] == "";
    } else {
      HostedDomainHasNoBorder(p);
      ContainsTail(p, HostedDomain);
      HostedSpaceId(p[1..]);
      assert s[1..] == p[1..] + HostedDomain;
    }
  }

  // ===========================================================================
  // Connecting
  // ===========================================================================

  /** The replies the network gives while connecting: the registry lookup, the
      login, the status polls in order, and the configuration and schema
      fetches (their bodies already decoded, `None` when they do not decode). */
  datatype Network = Network(
    registry: Response<Json>,
    login: Response<()>,
    status: seq<Response<Json>>,
    config: Response<AppConfig>,
    info: Response<ApiInfo>)

  function LoginUrl(apiRoot: string): string {
    apiRoot + "/" + Constants.LoginUrl
  }

  function ConfigUrl(apiRoot: string): string {
    apiRoot + "/" + Constants.ConfigUrl
  }

  function InfoUrl(apiRoot: string): string {
    apiRoot + "/" + Constants.ApiInfoUrl
  }

  /** Log in when credentials were given; a non-success status fails. */
  function LoginStep(apiRoot: string, auth: Option<Credentials>, reply: Response<()>): (r: Traced<()>)
    ensures auth.None? ==> r == Traced(Ok(()), [])
    ensures auth.Some? ==> r.effects == [Login(LoginUrl(apiRoot), auth.value.username, auth.value.password)]
    ensures auth.Some? ==> (r.result.Ok? <==> reply.Reply? && reply.success)
    ensures auth.Some? && reply.Reply? && !reply.success ==> r.result == Err(LoginFailed)
  {
    match auth
    case None => Traced(Ok(()), [])
    case Some(c) =>
      var effects := [Login(LoginUrl(apiRoot), c.username, c.password)];
      match reply
      case Unreachable => Traced(Err(RequestFailed), effects)
      case Reply(success, _) => Traced(if success then Ok(()) else Err(LoginFailed), effects)
  }

  /** Wake the space when there is one; otherwise nothing happens. */
  function WakeStep(spaceId: Option<string>, replies: seq<Response<Json>>): (r: Traced<()>)
    requires |replies| > Space.MaxRetries
    ensures spaceId.None? ==> r == Traced(Ok(()), [])
    ensures spaceId.Some? ==> r.result == Space.WakeUp(spaceId.value, replies).result
    ensures spaceId.Some? ==> r.effects == Space.WakeEffects(spaceId.value, Space.WakeUp(spaceId.value, replies).polls)
  {
    match spaceId
    case None => Traced(Ok(()), [])
    case Some(id) =>
      var report := Space.WakeUp(id, replies);
      Traced(report.result, Space.WakeEffects(id, report.polls))
  }

  /** A schema fetch: a non-success status fails with `failure`. */
  function Fetch<T>(reply: Response<T>, failure: Failure): (r: Outcome<T>)
    ensures r.Ok? <==> reply.Reply? && reply.success && reply.body.Some?
    ensures r.Ok? ==> r.value == reply.body.value
    ensures reply.Reply? && !reply.success ==> r == Err(failure)
  {
    match reply
    case Unreachable => Err(RequestFailed)
    case Reply(success, body) =>
      if !success then Err(failure)
      else if body.None? then Err(BodyUndecodable)
      else Ok(body.value)
  }

  /** What connecting to a resolved endpoint yields. */
  datatype Session = Session(config: AppConfig, apiInfo: ApiInfo)

  /** Fetch the configuration and then the schema, stopping at the first
      failure. */
  function FetchSession(apiRoot: string, net: Network): (r: Traced<Session>)
    ensures r.effects == [GetConfig(ConfigUrl(apiRoot))] || r.effects == [GetConfig(ConfigUrl(apiRoot)), GetInfo(InfoUrl(apiRoot))]
    ensures r.result.Ok? ==> net.config == Reply(true, Some(r.result.value.config)) && net.info == Reply(true, Some(r.result.value.apiInfo))
    ensures r.result.Ok? ==> r.effects == [GetConfig(ConfigUrl(apiRoot)), GetInfo(InfoUrl(apiRoot))]
    ensures net.config.Reply? && !net.config.success ==> r.result == Err(ConfigUnavailable)
    ensures net.config.Reply? && net.config.success && net.config.body.Some? && net.info.Reply? && !net.info.success
            ==> r.result == Err(ApiInfoUnavailable)
    ensures Fetch(net.config, ConfigUnavailable).Err? ==> r == Traced(Err(Fetch(net.config, ConfigUnavailable).error), [GetConfig(ConfigUrl(apiRoot))])
    ensures Fetch(net.config, ConfigUnavailable).Ok? && Fetch(net.info, ApiInfoUnavailable).Err?
            ==> r.result == Err(Fetch(net.info, ApiInfoUnavailable).error)
    ensures (net.config.Reply? && net.config.success && net.config.body.Some?
             && net.info.Reply? && net.info.success && net.info.body.Some?)
            ==> r.result == Ok(Session(net.config.body.value, net.info.body.value))
  {
    var e3 := [GetConfig(ConfigUrl(apiRoot))];
    match Fetch(net.config, ConfigUnavailable)
    case Err(f) => Traced(Err(f), e3)
    case Ok(config) =>
      var e4 := e3 + [GetInfo(InfoUrl(apiRoot))];
      match Fetch(net.info, ApiInfoUnavailable)
      case Err(f) => Traced(Err(f), e4)
      case Ok(info) => Traced(Ok(Session(config, info)), e4)
  }

  /** Everything after resolution: log in, wake the space when there is one,
      then fetch the configuration and then the schema, stopping at the first
      failure. */
  function Connect(endpoint: Endpoint, auth: Option<Credentials>, net: Network): (r: Traced<Session>)
    requires |net.status| > Space.MaxRetries
    ensures r.result.Ok? ==> net.config == Reply(true, Some(r.result.value.config)) && net.info == Reply(true, Some(r.result.value.apiInfo))
    ensures r.result.Ok? ==> |r.effects| >= 2 && r.effects[|r.effects| - 2..]
                             == [GetConfig(ConfigUrl(endpoint.apiRoot)), GetInfo(InfoUrl(endpoint.apiRoot))]
    ensures auth.Some? && net.login.Reply? && !net.login.success ==> r == Traced(Err(LoginFailed), LoginStep(endpoint.apiRoot, auth, net.login).effects)
    ensures (LoginStep(endpoint.apiRoot, auth, net.login).result.Ok? && WakeStep(endpoint.spaceId, net.status).result.Ok?
             && net.config.Reply? && !net.config.success) ==> r.result == Err(ConfigUnavailable)
    ensures (LoginStep(endpoint.apiRoot, auth, net.login).result.Ok? && WakeStep(endpoint.spaceId, net.status).result.Ok?
             && net.config.Reply? && net.config.success && net.config.body.Some?
             && net.info.Reply? && !net.info.success) ==> r.result == Err(ApiInfoUnavailable)
    ensures var login := LoginStep(endpoint.apiRoot, auth, net.login);
            login.result.Err? ==> r == Traced(Err(login.result.error), login.effects)
    ensures var login := LoginStep(endpoint.apiRoot, auth, net.login);
            var wake := WakeStep(endpoint.spaceId, net.status);
            login.result.Ok? && wake.result.Err? ==> r == Traced(Err(wake.result.error), login.effects + wake.effects)
    ensures (LoginStep(endpoint.apiRoot, auth, net.login).result.Ok? && WakeStep(endpoint.spaceId, net.status).result.Ok?
             && net.config.Reply? && net.config.success && net.config.body.Some?
             && net.info.Reply? && net.info.success && net.info.body.Some?)
            ==> r.result == Ok(Session(net.config.body.value, net.info.body.value))
  {
    var login := LoginStep(endpoint.apiRoot, auth, net.login);
    if login.result.Err? then Traced(Err(login.result.error), login.effects)
    else
      var wake := WakeStep(endpoint.spaceId, net.status);
      var e2 := login.effects + wake.effects;
      if wake.result.Err? then Traced(Err(wake.result.error), e2)
      else
        var fetched := FetchSession(endpoint.apiRoot, net);
        assert fetched.result.Ok? ==> (e2 + fetched.effects)[|e2 + fetched.effects| - 2..] == fetched.effects;
        Traced(fetched.result, e2 + fetched.effects)
  }


  /** `Client::new`: draw the session hash, resolve the reference without its
      trailing slashes, then connect. */
  function New(reference: string, auth: Option<Credentials>, draws: seq<SessionHash.Draw>, net: Network): (r: Traced<Client>)
    requires |SessionHash.Sampled(draws)| >= SessionHash.Length
    requires |net.status| > Space.MaxRetries
    ensures r.result.Ok? ==> |r.result.value.sessionHash| == SessionHash.Length
    ensures r.result.Ok? ==> forall i :: 0 <= i < |r.result.value.sessionHash| ==> IsAsciiAlphanumeric(r.result.value.sessionHash[i])
    ensures r.result.Ok? ==> net.config == Reply(true, Some(r.result.value.config)) && net.info == Reply(true, Some(r.result.value.apiInfo))
    ensures r.result.Ok? ==> Resolve(TrimEnd(reference, '/'), net.registry).result
                             == Ok(Endpoint(r.result.value.apiRoot, r.result.value.spaceId))
    ensures r.result.Ok? ==> |r.effects| >= 2 && r.effects[|r.effects| - 2..]
                             == [GetConfig(ConfigUrl(r.result.value.apiRoot)), GetInfo(InfoUrl(r.result.value.apiRoot))]
    ensures auth.Some? && net.login.Reply? && !net.login.success && Resolve(TrimEnd(reference, '/'), net.registry).result.Ok?
            ==> r.result == Err(LoginFailed)
    ensures var resolved := Resolve(TrimEnd(reference, '/'), net.registry);
            resolved.result.Err? ==> r == Traced(Err(resolved.result.error), resolved.effects)
    ensures var resolved := Resolve(TrimEnd(reference, '/'), net.registry);
            resolved.result.Ok? && Connect(resolved.result.value, auth, net).result.Err?
            ==> r.result == Err(Connect(resolved.result.value, auth, net).result.error)
    ensures var resolved := Resolve(TrimEnd(reference, '/'), net.registry);
            resolved.result.Ok? && Connect(resolved.result.value, auth, net).result.Ok?
            ==> var connected := Connect(resolved.result.value, auth, net);
                r.result == Ok(Client(SessionHash.Generate(draws), resolved.result.value.apiRoot, resolved.result.value.spaceId,
                                      connected.result.value.config, connected.result.value.apiInfo))
    ensures var resolved := Resolve(TrimEnd(reference, '/'), net.registry);
            resolved.result.Ok? ==> r.effects == resolved.effects + Connect(resolved.result.value, auth, net).effects
  {
    Start(SessionHash.Generate(draws), Resolve(TrimEnd(reference, '/'), net.registry), auth, net)
  }

  /** Connect to the endpoint that resolution gave, if it gave one, and hold
      the session under the given hash. */
  function Start(sessionHash: string, resolved: Traced<Endpoint>, auth: Option<Credentials>, net: Network): (r: Traced<Client>)
    requires |net.status| > Space.MaxRetries
    ensures r.result.Ok? ==> r.result.value.sessionHash == sessionHash
    ensures r.result.Ok? ==> net.config == Reply(true, Some(r.result.value.config)) && net.info == Reply(true, Some(r.result.value.apiInfo))
    ensures r.result.Ok? ==> resolved.result == Ok(Endpoint(r.result.value.apiRoot, r.result.value.spaceId))
    ensures r.result.Ok? ==> |r.effects| >= 2 && r.effects[|r.effects| - 2..]
                             == [GetConfig(ConfigUrl(r.result.value.apiRoot)), GetInfo(InfoUrl(r.result.value.apiRoot))]
    ensures resolved.result.Err? ==> r == Traced(Err(resolved.result.error), resolved.effects)
    ensures resolved.result.Ok? ==> r.effects == resolved.effects + Connect(resolved.result.value, auth, net).effects
    ensures resolved.result.Ok? && Connect(resolved.result.value, auth, net).result.Err?
            ==> r.result == Err(Connect(resolved.result.value, auth, net).result.error)
    ensures resolved.result.Ok? && Connect(resolved.result.value, auth, net).result.Ok?
            ==> var connected := Connect(resolved.result.value, auth, net);
                r.result == Ok(Client(sessionHash, resolved.result.value.apiRoot, resolved.result.value.spaceId,
                                      connected.result.value.config, connected.result.value.apiInfo))
  {
    match resolved.result
    case Err(f) => Traced(Err(f), resolved.effects)
    case Ok(endpoint) =>
      var connected := Connect(endpoint, auth, net);
      var effects := resolved.effects + connected.effects;
      match connected.result
      case Err(f) => Traced(Err(f), effects)
      case Ok(session) =>
        assert effects[|effects| - 2..] == connected.effects[|connected.effects| - 2..];
        Traced(Ok(Client(sessionHash, endpoint.apiRoot, endpoint.spaceId, session.config, session.apiInfo)), effects)
  }

  // ===========================================================================
  // Marshalling inputs
  // ===========================================================================

  function UploadUrl(apiRoot: string): string {
    apiRoot + "/" + Constants.UploadUrl
  }

  /** The characters after the last `/` of `s` (all of `s` when it has none). */
  function LastSegment(s: string): (r: string)
    ensures |r| <= |s| && r == s[|s| - |r|..]
    ensures forall i :: 0 <= i < |r| ==> r[i] != '/'
    ensures |r| < |s| ==> s[|s| - |r| - 1] == '/'
  {
    if |s| == 0 || s[|s| - 1] == '/' then ""
    else LastSegment(s[..|s| - 1]) + [s[|s| - 1]]
  }

  /** Rust's `Path::file_name`: the last component, after trailing slashes and
      `.` components are skipped, unless there is none or it is `..`. */
  function FileName(path: string): (r: Option<string>)
    ensures r.Some? ==> |r.value| > 0 && r.value != "." && r.value != ".."
    ensures r.Some? ==> forall i :: 0 <= i < |r.value| ==> r.value[i] != '/'
    decreases |path|
  {
    var t := TrimEnd(path, '/');
    var last := LastSegment(t);
    if |t| == 0 then None
    else if last == "." then FileName(t[..|t| - 1])
    else if last == ".." then None
    else Some(last)
  }

  /** A plain name under any directory is that file's name. */
  lemma FileNameOfJoin(dir: string, name: string)
    requires |name| > 0 && name != "." && name != ".."
    requires forall i :: 0 <= i < |name| ==> name[i] != '/'
    ensures FileName(name) == Some(name)
    ensures FileName(dir + "/" + name) == Some(name)
  {
    LastSegmentOfName(name);
    NamedPath(name, name);
    var p := dir + "/" + name;
    assert p[|p| - 1] == name[|name| - 1];
    NoTrailingSlash(p);
    LastSegmentOfJoin(dir, name);
    NamedPath(p, name);
  }

  /** A path with no trailing slash whose last segment is a plain name has
      that name as its file name. */
  lemma NamedPath(p: string, name: string)
    requires |name| > 0 && name != "." && name != ".."
    requires TrimEnd(p, '/') == p && LastSegment(p) == name
    ensures FileName(p) == Some(name)
  {
  }

  lemma NoTrailingSlash(p: string)
    requires |p| > 0 && p[|p| - 1] != '/'
    ensures TrimEnd(p, '/') == p
  {
  }

  lemma {:induction false} LastSegmentOfName(name: string)
    requires forall i :: 0 <= i < |name| ==> name[i] != '/'
    ensures TrimEnd(name, '/') == name
    ensures LastSegment(name) == name
    decreases |name|
  {
    if |name| > 0 {
      var init := name[..|name| - 1];
      assert forall i :: 0 <= i < |init| ==> init[i] == name[i];
      LastSegmentOfName(init);
      assert init + [name[|name| - 1]] == name;
    }
  }


  lemma LastSegmentOfJoin(dir: string, name: string)
    requires forall i :: 0 <= i < |name| ==> name[i] != '/'
    ensures LastSegment(dir + "/" + name) == name
  {
    var p := dir + "/" + name;
    assert p[|dir|] == '/';
    assert p[|p| - |name|..] == name;
  }

  /** What the file system and the server give for one file input: whether
      the file could be read, and the reply to the upload (its body decoded as
      a list of server paths). */
  datatype Upload = Upload(readable: bool, reply: Response<seq<string>>)

  /** Upload one file: read it, name it, post it, and wrap the single server
      path the reply must hold in a file envelope naming the local path. */
  function UploadOne(apiRoot: string, path: string, u: Upload): (r: Traced<Json>)
    ensures r.effects == if u.readable && FileName(path).Some? then [UploadFile(UploadUrl(apiRoot), path)] else []
    ensures r.result.Ok? <==> u.readable && FileName(path).Some? && u.reply.Reply? && u.reply.success
                              && u.reply.body.Some? && |u.reply.body.value| == 1
    ensures r.result.Ok? ==> r.result.value == Envelope(u.reply.body.value[0], path)
    ensures !u.readable ==> r.result == Err(FileUnreadable)
    ensures u.readable && FileName(path).None? ==> r.result == Err(InvalidFilePath)
    ensures u.readable && FileName(path).Some? && u.reply.Reply? && !u.reply.success ==> r.result == Err(UploadFailed)
    ensures (u.readable && FileName(path).Some? && u.reply.Reply? && u.reply.success && u.reply.body.Some?
             && |u.reply.body.value| != 1) ==> r.result == Err(InvalidUploadResponse)
  {
    if !u.readable then Traced(Err(FileUnreadable), [])
    else if FileName(path).None? then Traced(Err(InvalidFilePath), [])
    else
      var effects := [UploadFile(UploadUrl(apiRoot), path)];
      match u.reply
      case Unreachable => Traced(Err(RequestFailed), effects)
      case Reply(success, body) =>
        if !success then Traced(Err(UploadFailed), effects)
        else if body.None? then Traced(Err(BodyUndecodable), effects)
        else if |body.value| != 1 then Traced(Err(InvalidUploadResponse), effects)
        else Traced(Ok(Envelope(body.value[0], path)), effects)
  }

  /** What one input becomes in the request, with the upload it costs: a
      value is sent as it is, a file as the envelope of its upload. */
  function MarshalOne(apiRoot: string, d: PredictionInput, u: Upload): (r: Traced<Json>)
    ensures forall e :: e in r.effects ==> e.UploadFile?
  {
    match d
    case Value(v) => Traced(Ok(v), [])
    case File(p) => UploadOne(apiRoot, p, u)
  }

  /** One marshalled input in front of the rest. */
  function Prepend(first: Traced<Json>, rest: Traced<seq<Json>>): Traced<seq<Json>>
    requires first.result.Ok?
  {
    match rest.result
    case Err(f) => Traced(Err(f), first.effects + rest.effects)
    case Ok(vs) => Traced(Ok([first.result.value] + vs), first.effects + rest.effects)
  }

  /** The requests of marshalling every one of `data`, in order. */
  function UploadEffects(apiRoot: string, data: seq<PredictionInput>, uploads: seq<Upload>): seq<Effect>
    requires |uploads| == |data|
    decreases |data|
  {
    if |data| == 0 then []
    else MarshalOne(apiRoot, data[0], uploads[0]).effects + UploadEffects(apiRoot, data[1..], uploads[1..])
  }

  /** Input `i` is the first one that cannot be marshalled. */
  ghost predicate FirstFailure(apiRoot: string, data: seq<PredictionInput>, uploads: seq<Upload>, i: int) {
    |uploads| == |data| && 0 <= i < |data| && MarshalOne(apiRoot, data[i], uploads[i]).result.Err?
    && forall j :: 0 <= j < i ==> MarshalOne(apiRoot, data[j], uploads[j]).result.Ok?
  }

  /** Marshal the inputs in order, `uploads[i]` answering for input `i`,
      stopping at the first file that cannot be uploaded. */
  function Marshal(apiRoot: string, data: seq<PredictionInput>, uploads: seq<Upload>): (r: Traced<seq<Json>>)
    requires |uploads| == |data|
    ensures r.result.Ok? <==> forall i :: 0 <= i < |data| ==> MarshalOne(apiRoot, data[i], uploads[i]).result.Ok?
    ensures r.result.Ok? ==> |r.result.value| == |data|
    ensures r.result.Ok? ==> forall i :: 0 <= i < |data| ==> MarshalOne(apiRoot, data[i], uploads[i]).result == Ok(r.result.value[i])
    ensures r.result.Ok? ==> r.effects == UploadEffects(apiRoot, data, uploads)
    ensures r.result.Err? ==> exists i :: FirstFailure(apiRoot, data, uploads, i)
                                          && MarshalOne(apiRoot, data[i], uploads[i]).result == Err(r.result.error)
                                          && r.effects == UploadEffects(apiRoot, data[..i + 1], uploads[..i + 1])
    ensures forall e :: e in r.effects ==> e.UploadFile?
    decreases |data|
  {
    if |data| == 0 then Traced(Ok([]), [])
    else
      var first := MarshalOne(apiRoot, data[0], uploads[0]);
      if first.result.Err? then
        FailsFirst(apiRoot, data, uploads);
        Traced(Err(first.result.error), first.effects)
      else
        var rest := Marshal(apiRoot, data[1..], uploads[1..]);
        PrependMarshalled(apiRoot, data, uploads, first, rest);
        Prepend(first, rest)
  }

  /** When the first input fails, it is the first failure, and its own
      requests are all that marshalling makes. */
  lemma FailsFirst(apiRoot: string, data: seq<PredictionInput>, uploads: seq<Upload>)
    requires |uploads| == |data| > 0 && MarshalOne(apiRoot, data[0], uploads[0]).result.Err?
    ensures FirstFailure(apiRoot, data, uploads, 0)
    ensures UploadEffects(apiRoot, data[..1], uploads[..1]) == MarshalOne(apiRoot, data[0], uploads[0]).effects
  {
    assert data[..1][1..] == [] && uploads[..1][1..] == [];
  }

  /** The step of `Marshal` that puts a successful first input in front of
      the rest keeps its contract. */
  lemma PrependMarshalled(apiRoot: string, data: seq<PredictionInput>, uploads: seq<Upload>,
                          first: Traced<Json>, rest: Traced<seq<Json>>)
    requires |uploads| == |data| > 0
    requires first == MarshalOne(apiRoot, data[0], uploads[0]) && first.result.Ok?
    requires rest.result.Ok? <==> forall i :: 0 <= i < |data| - 1 ==> MarshalOne(apiRoot, data[1..][i], uploads[1..][i]).result.Ok?
    requires rest.result.Ok? ==> |rest.result.value| == |data| - 1
    requires rest.result.Ok? ==> forall i :: 0 <= i < |data| - 1 ==> MarshalOne(apiRoot, data[1..][i], uploads[1..][i]).result == Ok(rest.result.value[i])
    requires rest.result.Ok? ==> rest.effects == UploadEffects(apiRoot, data[1..], uploads[1..])
    requires rest.result.Err? ==> exists i :: FirstFailure(apiRoot, data[1..], uploads[1..], i)
                                             && MarshalOne(apiRoot, data[1..][i], uploads[1..][i]).result == Err(rest.result.error)
                                             && rest.effects == UploadEffects(apiRoot, data[1..][..i + 1], uploads[1..][..i + 1])
    ensures var r := Prepend(first, rest);
            (r.result.Ok? <==> forall i :: 0 <= i < |data| ==> MarshalOne(apiRoot, data[i], uploads[i]).result.Ok?)
            && (r.result.Ok? ==> |r.result.value| == |data|)
            && (r.result.Ok? ==> forall i :: 0 <= i < |data| ==> MarshalOne(apiRoot, data[i], uploads[i]).result == Ok(r.result.value[i]))
            && (r.result.Ok? ==> r.effects == UploadEffects(apiRoot, data, uploads))
            && (r.result.Err? ==> exists i :: FirstFailure(apiRoot, data, uploads, i)
                                              && MarshalOne(apiRoot, data[i], uploads[i]).result == Err(r.result.error)
                                              && r.effects == UploadEffects(apiRoot, data[..i + 1], uploads[..i + 1]))
  {
    if rest.result.Ok? {
      RestSucceeded(apiRoot, data, uploads, first, rest);
    } else {
      var i :| FirstFailure(apiRoot, data[1..], uploads[1..], i)
               && MarshalOne(apiRoot, data[1..][i], uploads[1..][i]).result == Err(rest.result.error)
               && rest.effects == UploadEffects(apiRoot, data[1..][..i + 1], uploads[1..][..i + 1]);
      FailureShifts(apiRoot, data, uploads, i);
      UploadEffectsOfPrefix(apiRoot, data, uploads, i + 2);
      assert !MarshalOne(apiRoot, data[i + 1], uploads[i + 1]).result.Ok?;
    }
  }

  /** A successful first input in front of successfully marshalled others
      gives all the values, and all the requests in order. */
  lemma RestSucceeded(apiRoot: string, data: seq<PredictionInput>, uploads: seq<Upload>,
                      first: Traced<Json>, rest: Traced<seq<Json>>)
    requires |uploads| == |data| > 0
    requires first == MarshalOne(apiRoot, data[0], uploads[0]) && first.result.Ok?
    requires rest.result.Ok? && |rest.result.value| == |data| - 1
    requires forall i :: 0 <= i < |data| - 1 ==> MarshalOne(apiRoot, data[1..][i], uploads[1..][i]).result == Ok(rest.result.value[i])
    requires rest.effects == UploadEffects(apiRoot, data[1..], uploads[1..])
    ensures Prepend(first, rest).result == Ok([first.result.value] + rest.result.value)
    ensures forall i :: 0 <= i < |data| ==> MarshalOne(apiRoot, data[i], uploads[i]).result == Ok(([first.result.value] + rest.result.value)[i])
    ensures Prepend(first, rest).effects == UploadEffects(apiRoot, data, uploads)
  {
    forall i | 1 <= i < |data|
      ensures MarshalOne(apiRoot, data[i], uploads[i]).result == Ok(([first.result.value] + rest.result.value)[i])
    {
      assert data[1..][i - 1] == data[i] && uploads[1..][i - 1] == uploads[i];
    }
  }

  /** A first failure of the inputs after a successful first one is the first
      failure of all of them, one position later. */
  lemma FailureShifts(apiRoot: string, data: seq<PredictionInput>, uploads: seq<Upload>, i: nat)
    requires |uploads| == |data| > 0 && MarshalOne(apiRoot, data[0], uploads[0]).result.Ok?
    requires FirstFailure(apiRoot, data[1..], uploads[1..], i)
    ensures FirstFailure(apiRoot, data, uploads, i + 1)
    ensures MarshalOne(apiRoot, data[i + 1], uploads[i + 1]) == MarshalOne(apiRoot, data[1..][i], uploads[1..][i])
  {
    forall j | 0 < j < i + 1
      ensures MarshalOne(apiRoot, data[j], uploads[j]).result.Ok?
    {
      assert data[1..][j - 1] == data[j] && uploads[1..][j - 1] == uploads[j];
    }
  }

  /** The requests of the first `n` inputs are the first input's, then those
      of the next `n - 1`. */
  lemma UploadEffectsOfPrefix(apiRoot: string, data: seq<PredictionInput>, uploads: seq<Upload>, n: nat)
    requires |uploads| == |data| && 0 < n <= |data|
    ensures UploadEffects(apiRoot, data[..n], uploads[..n])
            == MarshalOne(apiRoot, data[0], uploads[0]).effects + UploadEffects(apiRoot, data[1..][..n - 1], uploads[1..][..n - 1])
  {
    assert data[..n][0] == data[0] && uploads[..n][0] == uploads[0];
    assert data[..n][1..] == data[1..][..n - 1] && uploads[..n][1..] == uploads[1..][..n - 1];
  }

  /** Value inputs are never uploaded and pass through unchanged. */
  lemma {:induction false} ValuesPassThrough(apiRoot: string, data: seq<PredictionInput>, uploads: seq<Upload>)
    requires |uploads| == |data|
    requires forall i :: 0 <= i < |data| ==> data[i].Value?
    ensures Marshal(apiRoot, data, uploads).effects == []
    ensures Marshal(apiRoot, data, uploads).result.Ok?
    ensures forall i :: 0 <= i < |data| ==> Marshal(apiRoot, data, uploads).result.value[i] == data[i].value
    decreases |data|
  {
    if |data| > 0 {
      ValuesPassThrough(apiRoot, data[1..], uploads[1..]);
      assert forall i :: 1 <= i < |data| ==> data[1..][i - 1] == data[i];
    }
  }

  // ===========================================================================
  // Route lookup
  // ===========================================================================

  /** Position of the first dependency named `name`. */
  function FirstMatch(deps: seq<Dependency>, name: string): (r: Option<nat>)
    ensures r.Some? ==> r.value < |deps| && deps[r.value].apiName == name
    ensures r.Some? ==> forall k :: 0 <= k < r.value ==> deps[k].apiName != name
    ensures r.None? ==> forall k :: 0 <= k < |deps| ==> deps[k].apiName != name
  {
    if |deps| == 0 then None
    else if deps[0].apiName == name then Some(0)
    else match FirstMatch(deps[1..], name)
      case None => None
      case Some(k) => Some(k + 1)
  }

  /** The execution index of a route: leading slashes are dropped and the
      first dependency with that name gives its `id`, used as it is, even the
      absent-id default. */
  function FindRoute(deps: seq<Dependency>, route: string): (r: Outcome<int>)
    ensures r.Ok? <==> exists k :: 0 <= k < |deps| && deps[k].apiName == TrimStart(route, '/')
    ensures r.Ok? ==> exists k :: 0 <= k < |deps| && deps[k].apiName == TrimStart(route, '/') && r.value == deps[k].id
                       && forall j :: 0 <= j < k ==> deps[j].apiName != TrimStart(route, '/')
    ensures r.Err? ==> r.error == InvalidRoute
  {
    match FirstMatch(deps, TrimStart(route, '/'))
    case None => Err(InvalidRoute)
    case Some(k) => Ok(deps[k].id)
  }

  /** The first dependency carrying the route's name decides the index. */
  lemma FindRouteTakesFirst(deps: seq<Dependency>, route: string, k: nat)
    requires k < |deps| && deps[k].apiName == TrimStart(route, '/')
    requires forall j :: 0 <= j < k ==> deps[j].apiName != TrimStart(route, '/')
    ensures FindRoute(deps, route) == Ok(deps[k].id)
  {
  }

  /** A route whose dependency has no `id` joins the queue with index -1: the
      position in the list does not stand in for it. */
  lemma SentinelNotReplaced()
    ensures FindRoute([Dependency("a", 0, None), Dependency("b", DefaultId, None)], "/b") == Ok(-1)
  {
    var deps := [Dependency("a", 0, None), Dependency("b", DefaultId, None)];
    assert TrimStart("/b", '/') == "b" by {
      assert "/b"[1..] == "b";
    }
    FindRouteTakesFirst(deps, "/b", 1);
  }

  /** The number of leading slashes does not matter. */
  lemma LeadingSlashesIgnored(deps: seq<Dependency>, route: string)
    ensures FindRoute(deps, "/" + route) == FindRoute(deps, route)
  {
    assert TrimStart("/" + route, '/') == TrimStart(route, '/') by {
      assert ("/" + route)[1..] == route;
    }
  }

  // ===========================================================================
  // Draining the event stream
  // ===========================================================================

  /** What one stream item does to a waiting `predict`. */
  datatype Step = Continue | Finish(result: Outcome<seq<PredictionOutput>>)

  /** The outputs of a successful completion, each decoded independently. */
  function DecodeOutputs(data: seq<Json>): (r: seq<PredictionOutput>)
    ensures |r| == |data| && forall i :: 0 <= i < |data| ==> r[i] == DecodePrediction(data[i])
  {
    seq(|data|, i requires 0 <= i < |data| => DecodePrediction(data[i]))
  }

  /** React to one stream item while waiting for event `eventId`. Only a
      completion of that event ends the wait; transport errors and non-JSON
      messages end it with an error. */
  function StepOn(eventId: string, e: Event): (r: Step)
    ensures e.StreamOpened? ==> r == Continue
    ensures e.StreamError? ==> r == Finish(Err(StreamFailed))
    ensures e == StreamMessage(None) ==> r == Finish(Err(MessageUndecodable))
    ensures r.Finish? && r.result.Ok? <==>
              e.StreamMessage? && e.data.Some? && DecodeMessage(e.data.value).Completed?
              && DecodeMessage(e.data.value).eventId == eventId && DecodeMessage(e.data.value).output.Success?
    ensures r.Finish? && r.result.Ok? ==> r.result.value == DecodeOutputs(DecodeMessage(e.data.value).output.data)
    ensures (e.StreamMessage? && e.data.Some? && DecodeMessage(e.data.value).Completed?
             && DecodeMessage(e.data.value).eventId == eventId && DecodeMessage(e.data.value).output.Error?)
            ==> r == Finish(Err(RemoteError(DecodeMessage(e.data.value).output.error.GetOr("Unknown error"))))
    ensures (e.StreamMessage? && e.data.Some? && DecodeMessage(e.data.value).Completed?
             && DecodeMessage(e.data.value).eventId != eventId) ==> r == Continue
    ensures e.StreamMessage? && e.data.Some? && !DecodeMessage(e.data.value).Completed? ==> r == Continue
  {
    match e
    case StreamOpened => Continue
    case StreamError => Finish(Err(StreamFailed))
    case StreamMessage(None) => Finish(Err(MessageUndecodable))
    case StreamMessage(Some(j)) =>
      match DecodeMessage(j)
      case Completed(id, _, output, _) =>
        if id != eventId then Continue
        else (match output
          case Success(data, _) => Finish(Ok(DecodeOutputs(data)))
          case Error(error) => Finish(Err(RemoteError(error.GetOr("Unknown error")))))
      case _ => Continue
  }

  /** `k` is the first stream item that ends the wait. */
  ghost predicate FirstFinish(eventId: string, events: seq<Event>, k: int) {
    0 <= k < |events| && StepOn(eventId, events[k]).Finish?
    && forall j :: 0 <= j < k ==> StepOn(eventId, events[j]).Continue?
  }

  /** Consume the stream until an item ends the wait; a stream that runs out
      first ends `predict` with an error. */
  function Drain(eventId: string, events: seq<Event>): (r: Outcome<seq<PredictionOutput>>)
    ensures (forall k :: 0 <= k < |events| ==> StepOn(eventId, events[k]).Continue?) ==> r == Err(StreamEnded)
    decreases |events|
  {
    if |events| == 0 then Err(StreamEnded)
    else match StepOn(eventId, events[0])
      case Finish(result) => result
      case Continue =>
        assert forall k :: 0 <= k < |events| - 1 ==> events[1..][k] == events[k + 1];
        Drain(eventId, events[1..])
  }

  /** Either some item ends the wait or none does. */
  lemma {:induction false} FirstFinishOrNone(eventId: string, events: seq<Event>)
    ensures (exists k :: FirstFinish(eventId, events, k))
            || forall k :: 0 <= k < |events| ==> StepOn(eventId, events[k]).Continue?
    decreases |events|
  {
    if |events| > 0 {
      if StepOn(eventId, events[0]).Finish? {
        assert FirstFinish(eventId, events, 0);
      } else {
        FirstFinishOrNone(eventId, events[1..]);
        if k :| FirstFinish(eventId, events[1..], k) {
          assert forall j :: 0 <= j < k ==> events[1..][j] == events[j + 1];
          assert FirstFinish(eventId, events, k + 1);
        } else {
          assert forall j :: 1 <= j < |events| ==> events[j] == events[1..][j - 1];
        }
      }
    }
  }

  /** The first item that ends the wait decides the outcome. */
  lemma {:induction false} DrainFirstFinish(eventId: string, events: seq<Event>, k: nat)
    requires FirstFinish(eventId, events, k)
    ensures Drain(eventId, events) == StepOn(eventId, events[k]).result
    decreases k
  {
    if k > 0 {
      assert StepOn(eventId, events[0]).Continue?;
      assert forall j :: 0 <= j < k - 1 ==> events[1..][j] == events[j + 1];
      assert FirstFinish(eventId, events[1..], k - 1);
      DrainFirstFinish(eventId, events[1..], k - 1);
    }
  }

  /** The loop of `predict` over the stream, as the source writes it. */
  method DrainEvents(eventId: string, events: seq<Event>) returns (r: Outcome<seq<PredictionOutput>>)
    ensures (forall k :: 0 <= k < |events| ==> StepOn(eventId, events[k]).Continue?) ==> r == Err(StreamEnded)
    ensures forall k :: FirstFinish(eventId, events, k) ==> r == StepOn(eventId, events[k]).result
  {
    var i := 0;
    while i < |events|
      invariant 0 <= i <= |events|
      invariant forall j :: 0 <= j < i ==> StepOn(eventId, events[j]).Continue?
    {
      var step := StepOn(eventId, events[i]);
      if step.Finish? {
        return step.result;
      }
      i := i + 1;
    }
    return Err(StreamEnded);
  }

  /** Items before the first finishing one do not matter, and nothing after it
      is read. */
  lemma DrainStopsAtFirstFinish(eventId: string, events: seq<Event>, k: nat, rest: seq<Event>)
    requires FirstFinish(eventId, events, k)
    ensures Drain(eventId, events + rest) == StepOn(eventId, events[k]).result
  {
    var all := events + rest;
    assert forall j :: 0 <= j <= k ==> all[j] == events[j];
    assert FirstFinish(eventId, all, k);
    DrainFirstFinish(eventId, all, k);
  }

  /** Whether the server reported success does not matter: only the output's
      variant decides. */
  lemma SuccessFlagIgnored(eventId: string, msg: string, output: QueueDataMessageOutput, b1: bool, b2: bool)
    requires WellFormed(Completed(eventId, msg, output, b1))
    ensures StepOn(eventId, StreamMessage(Some(EncodeMessage(Completed(eventId, msg, output, b1)))))
         == StepOn(eventId, StreamMessage(Some(EncodeMessage(Completed(eventId, msg, output, b2)))))
  {
    MessageRoundTrip(Completed(eventId, msg, output, b1));
    MessageRoundTrip(Completed(eventId, msg, output, b2));
  }

  /** Completions of other events are skipped, whatever their output. */
  lemma OtherEventsSkipped(eventId: string, m: QueueDataMessage)
    requires WellFormed(m) && m.Completed? && m.eventId != eventId
    ensures StepOn(eventId, StreamMessage(Some(EncodeMessage(m)))) == Continue
  {
    MessageRoundTrip(m);
  }

  // ===========================================================================
  // predict
  // ===========================================================================

  /** Join the queue for one invocation under the client's session hash,
      subscribe to the session's event stream and wait for the completion. */
  function Submit(client: Client, fnIndex: int, inputs: seq<Json>, join: Response<Json>, events: seq<Event>)
    : (r: Traced<seq<PredictionOutput>>)
    ensures |r.effects| > 0 && r.effects[0] == JoinQueue(JoinUrl(client.apiRoot), JoinPayload(fnIndex, inputs, client.sessionHash))
    ensures r.result.Ok? ==> r.effects == [JoinQueue(JoinUrl(client.apiRoot), JoinPayload(fnIndex, inputs, client.sessionHash)),
                                           Subscribe(DataUrl(client.apiRoot, client.sessionHash))]
    ensures r.result.Ok? ==> join.Reply? && join.success && join.body.Some? && DecodeJoinResponse(join.body.value).Some?
                             && r.result == Drain(DecodeJoinResponse(join.body.value).value, events)
    ensures var joined := Join(client.apiRoot, JoinPayload(fnIndex, inputs, client.sessionHash), join);
            joined.result.Err? ==> r == Traced(Err(joined.result.error), joined.effects)
    ensures var joined := Join(client.apiRoot, JoinPayload(fnIndex, inputs, client.sessionHash), join);
            joined.result.Ok? ==> r.result == Drain(joined.result.value, events)
                                  && r.effects == joined.effects + [Subscribe(DataUrl(client.apiRoot, client.sessionHash))]
  {
    var joined := Join(client.apiRoot, JoinPayload(fnIndex, inputs, client.sessionHash), join);
    match joined.result
    case Err(f) => Traced(Err(f), joined.effects)
    case Ok(eventId) =>
      Traced(Drain(eventId, events), joined.effects + [Subscribe(DataUrl(client.apiRoot, client.sessionHash))])
  }

  /** `predict`: marshal the inputs (uploading files), look up the route, join
      the queue under the client's session hash, subscribe to the session's
      event stream and wait for this invocation's completion. */
  function Predict(client: Client, route: string, data: seq<PredictionInput>, uploads: seq<Upload>,
                   join: Response<Json>, events: seq<Event>): (r: Traced<seq<PredictionOutput>>)
    requires |uploads| == |data|
    ensures r.result.Ok? ==> Marshal(client.apiRoot, data, uploads).result.Ok?
                             && FindRoute(client.config.dependencies, route).Ok?
    ensures r.result.Ok? ==> r.effects == Marshal(client.apiRoot, data, uploads).effects + [
              JoinQueue(JoinUrl(client.apiRoot), JoinPayload(FindRoute(client.config.dependencies, route).value,
                                                             Marshal(client.apiRoot, data, uploads).result.value,
                                                             client.sessionHash)),
              Subscribe(DataUrl(client.apiRoot, client.sessionHash))]
    ensures r.result.Ok? ==> join.Reply? && join.success && join.body.Some? && DecodeJoinResponse(join.body.value).Some?
                             && r.result == Drain(DecodeJoinResponse(join.body.value).value, events)
    ensures Marshal(client.apiRoot, data, uploads).result.Ok? && FindRoute(client.config.dependencies, route).Err?
            ==> r == Traced(Err(InvalidRoute), Marshal(client.apiRoot, data, uploads).effects)
    ensures Marshal(client.apiRoot, data, uploads).result.Err?
            ==> r == Traced(Err(Marshal(client.apiRoot, data, uploads).result.error), Marshal(client.apiRoot, data, uploads).effects)
    ensures var marshal := Marshal(client.apiRoot, data, uploads);
            var found := FindRoute(client.config.dependencies, route);
            marshal.result.Ok? && found.Ok? ==>
              var joined := Join(client.apiRoot, JoinPayload(found.value, marshal.result.value, client.sessionHash), join);
              (joined.result.Err? ==> r.result == Err(joined.result.error))
              && (joined.result.Ok? ==> r.result == Drain(joined.result.value, events))
    ensures var marshal := Marshal(client.apiRoot, data, uploads);
            var found := FindRoute(client.config.dependencies, route);
            marshal.result.Ok? && found.Ok? ==>
              r.effects == marshal.effects + Submit(client, found.value, marshal.result.value, join, events).effects
  {
    var marshal := Marshal(client.apiRoot, data, uploads);
    if marshal.result.Err? then Traced(Err(marshal.result.error), marshal.effects)
    else
      var found := FindRoute(client.config.dependencies, route);
      if found.Err? then Traced(Err(found.error), marshal.effects)
      else
        var sent := Submit(client, found.value, marshal.result.value, join, events);
        Traced(sent.result, marshal.effects + sent.effects)
  }

  /** A prediction succeeds exactly when the inputs marshal, the route exists,
      the queue accepts the job and the first stream item that ends the wait
      is a successful completion of the assigned event; its outputs are then
      the prediction's result. */
  lemma PredictSuccess(client: Client, route: string, data: seq<PredictionInput>, uploads: seq<Upload>,
                       join: Response<Json>, events: seq<Event>)
    requires |uploads| == |data|
    ensures Predict(client, route, data, uploads, join, events).result.Ok?
            <==> Marshal(client.apiRoot, data, uploads).result.Ok? && FindRoute(client.config.dependencies, route).Ok?
                 && join.Reply? && join.success && join.body.Some? && DecodeJoinResponse(join.body.value).Some?
                 && exists k :: FirstFinish(DecodeJoinResponse(join.body.value).value, events, k)
                                && StepOn(DecodeJoinResponse(join.body.value).value, events[k]).result.Ok?
    ensures Predict(client, route, data, uploads, join, events).result.Ok? ==>
              join.Reply? && join.success && join.body.Some? && DecodeJoinResponse(join.body.value).Some?
              && exists k :: FirstFinish(DecodeJoinResponse(join.body.value).value, events, k)
                             && Predict(client, route, data, uploads, join, events).result
                                == StepOn(DecodeJoinResponse(join.body.value).value, events[k]).result
  {
    var r := Predict(client, route, data, uploads, join, events);
    if r.result.Ok? {
      var eventId := DecodeJoinResponse(join.body.value).value;
      assert r.result == Drain(eventId, events);
      FirstFinishOrNone(eventId, events);
      var k :| FirstFinish(eventId, events, k);
      DrainFirstFinish(eventId, events, k);
    } else if Marshal(client.apiRoot, data, uploads).result.Ok? && FindRoute(client.config.dependencies, route).Ok?
              && join.Reply? && join.success && join.body.Some? && DecodeJoinResponse(join.body.value).Some? {
      var eventId := DecodeJoinResponse(join.body.value).value;
      assert r.result == Drain(eventId, events);
      forall k | FirstFinish(eventId, events, k)
        ensures StepOn(eventId, events[k]).result.Err?
      {
        DrainFirstFinish(eventId, events, k);
      }
    }
  }

  /** Trailing slashes on the reference make no difference. */
  lemma TrailingSlashIgnored(reference: string, auth: Option<Credentials>, draws: seq<SessionHash.Draw>, net: Network)
    requires |SessionHash.Sampled(draws)| >= SessionHash.Length
    requires |net.status| > Space.MaxRetries
    ensures New(reference + "/", auth, draws, net) == New(reference, auth, draws, net)
  {
    assert (reference + "/")[..|reference|] == reference;
  }

  /** A direct URL, without credentials, costs no lookup, no login and no
      status poll: the client goes straight to the configuration. */
  lemma DirectReferenceConnectsAtOnce(reference: string, draws: seq<SessionHash.Draw>, net: Network)
    requires |SessionHash.Sampled(draws)| >= SessionHash.Length
    requires |net.status| > Space.MaxRetries
    requires Classify(TrimEnd(reference, '/')) == Direct
    ensures New(reference, None, draws, net).effects[0] == GetConfig(ConfigUrl(TrimEnd(reference, '/')))
    ensures New(reference, None, draws, net).result.Ok? ==> New(reference, None, draws, net).result.value.spaceId.None?
  {
  }

  /** The stage of connecting an effect belongs to. */
  function Phase(e: Effect): nat {
    match e
    case RegistryLookup(_) => 0
    case Login(_, _, _) => 1
    case StatusPoll(_) => 2
    case Sleep(_) => 2
    case GetConfig(_) => 3
    case GetInfo(_) => 4
    case _ => 5
  }

  /** Effects happen stage by stage, never returning to an earlier stage. */
  ghost predicate InPhaseOrder(es: seq<Effect>) {
    forall i, j :: 0 <= i < j < |es| ==> Phase(es[i]) <= Phase(es[j])
  }

  ghost predicate AllInPhase(es: seq<Effect>, p: nat) {
    forall i :: 0 <= i < |es| ==> Phase(es[i]) == p
  }

  lemma AppendPhase(a: seq<Effect>, b: seq<Effect>, p: nat)
    requires InPhaseOrder(a) && (forall i :: 0 <= i < |a| ==> Phase(a[i]) <= p)
    requires AllInPhase(b, p)
    ensures InPhaseOrder(a + b) && forall i :: 0 <= i < |a + b| ==> Phase((a + b)[i]) <= p
  {
    var ab := a + b;
    forall i, j | 0 <= i < j < |ab|
      ensures Phase(ab[i]) <= Phase(ab[j])
    {
      if j < |a| {
        assert ab[i] == a[i] && ab[j] == a[j];
      } else if i < |a| {
        assert ab[i] == a[i] && ab[j] == b[j - |a|];
      } else {
        assert ab[i] == b[i - |a|] && ab[j] == b[j - |a|];
      }
    }
    forall i | 0 <= i < |ab|
      ensures Phase(ab[i]) <= p
    {
      if i < |a| {
        assert ab[i] == a[i];
      } else {
        assert ab[i] == b[i - |a|];
      }
    }
  }

  /** A connection stops after login, after the wake-up, after the
      configuration fetch, or gets all the way to the schema. */
  lemma ConnectEffectsCases(endpoint: Endpoint, auth: Option<Credentials>, net: Network)
    requires |net.status| > Space.MaxRetries
    ensures var e1 := LoginStep(endpoint.apiRoot, auth, net.login).effects;
            var e2 := e1 + WakeStep(endpoint.spaceId, net.status).effects;
            var e3 := e2 + [GetConfig(ConfigUrl(endpoint.apiRoot))];
            var es := Connect(endpoint, auth, net).effects;
            (es == e1 || es == e2 || es == e3 || es == e3 + [GetInfo(InfoUrl(endpoint.apiRoot))])
            && (Connect(endpoint, auth, net).result.Ok? ==> es == e3 + [GetInfo(InfoUrl(endpoint.apiRoot))])
  {
  }

  /** A wake-up only polls and sleeps. */
  lemma WakeStepPhase(spaceId: Option<string>, replies: seq<Response<Json>>)
    requires |replies| > Space.MaxRetries
    ensures AllInPhase(WakeStep(spaceId, replies).effects, 2)
  {
    if spaceId.Some? {
      var es := WakeStep(spaceId, replies).effects;
      forall i | 0 <= i < |es|
        ensures Phase(es[i]) == 2
      {
        if i % 2 == 0 {
          assert es[i].StatusPoll?;
        } else {
          assert es[i].Sleep?;
        }
      }
    }
  }

  /** Requests of stages 1 to 4, appended in that order, are in stage order. */
  lemma StagesInPhaseOrder(e1: seq<Effect>, w: seq<Effect>, c: Effect, i: Effect)
    requires AllInPhase(e1, 1) && AllInPhase(w, 2) && Phase(c) == 3 && Phase(i) == 4
    ensures forall es | es in [e1, e1 + w, e1 + w + [c], e1 + w + [c] + [i]] ::
              InPhaseOrder(es) && forall k :: 0 <= k < |es| ==> 1 <= Phase(es[k])
  {
    assert InPhaseOrder(e1);
    AppendPhase(e1, w, 2);
    AppendPhase(e1 + w, [c], 3);
    AppendPhase(e1 + w + [c], [i], 4);
    forall es | es in [e1, e1 + w, e1 + w + [c], e1 + w + [c] + [i]]
      ensures forall k :: 0 <= k < |es| ==> 1 <= Phase(es[k])
    {
      forall k | 0 <= k < |es|
        ensures 1 <= Phase(es[k])
      {
        if k >= |e1| {
          assert es[k] in w + [c] + [i] by {
            assert es[k] == (w + [c] + [i])[k - |e1|];
          }
        }
      }
    }
  }

  /** Connecting goes stage by stage: login, wake-up polls and sleeps,
      configuration, schema. */
  lemma ConnectInPhaseOrder(endpoint: Endpoint, auth: Option<Credentials>, net: Network)
    requires |net.status| > Space.MaxRetries
    ensures InPhaseOrder(Connect(endpoint, auth, net).effects)
    ensures forall i :: 0 <= i < |Connect(endpoint, auth, net).effects| ==> 1 <= Phase(Connect(endpoint, auth, net).effects[i])
  {
    var e1 := LoginStep(endpoint.apiRoot, auth, net.login).effects;
    var w := WakeStep(endpoint.spaceId, net.status).effects;
    assert AllInPhase(e1, 1);
    WakeStepPhase(endpoint.spaceId, net.status);
    ConnectEffectsCases(endpoint, auth, net);
    StagesInPhaseOrder(e1, w, GetConfig(ConfigUrl(endpoint.apiRoot)), GetInfo(InfoUrl(endpoint.apiRoot)));
  }

  /** Creating a client goes stage by stage: registry lookup, login, wake-up
      polls and sleeps, configuration, schema. */
  lemma NewInPhaseOrder(reference: string, auth: Option<Credentials>, draws: seq<SessionHash.Draw>, net: Network)
    requires |SessionHash.Sampled(draws)| >= SessionHash.Length
    requires |net.status| > Space.MaxRetries
    ensures InPhaseOrder(New(reference, auth, draws, net).effects)
  {
    var resolved := Resolve(TrimEnd(reference, '/'), net.registry);
    assert AllInPhase(resolved.effects, 0);
    if resolved.result.Ok? {
      var connected := Connect(resolved.result.value, auth, net);
      ConnectInPhaseOrder(resolved.result.value, auth, net);
      assert New(reference, auth, draws, net).effects == resolved.effects + connected.effects;
      PrependPhaseZero(resolved.effects, connected.effects);
    }
  }

  lemma PrependPhaseZero(a: seq<Effect>, b: seq<Effect>)
    requires AllInPhase(a, 0) && InPhaseOrder(b)
    ensures InPhaseOrder(a + b)
  {
    var ab := a + b;
    forall i, j | 0 <= i < j < |ab|
      ensures Phase(ab[i]) <= Phase(ab[j])
    {
      if i >= |a| {
        assert ab[i] == b[i - |a|] && ab[j] == b[j - |a|];
      } else {
        assert ab[i] == a[i];
      }
    }
  }

  /** The space is polled exactly when a connection to a space gets that far:
      a client with a space id has polled it, one without never polls. */
  lemma WakeUpOnlyForSpaces(endpoint: Endpoint, auth: Option<Credentials>, net: Network)
    requires |net.status| > Space.MaxRetries
    requires Connect(endpoint, auth, net).result.Ok?
    ensures endpoint.spaceId.Some?
            <==> exists i :: 0 <= i < |Connect(endpoint, auth, net).effects| && Connect(endpoint, auth, net).effects[i].StatusPoll?
  {
    var r := Connect(endpoint, auth, net);
    var login := LoginStep(endpoint.apiRoot, auth, net.login);
    var wake := WakeStep(endpoint.spaceId, net.status);
    assert r.effects == login.effects + wake.effects + [GetConfig(ConfigUrl(endpoint.apiRoot)), GetInfo(InfoUrl(endpoint.apiRoot))];
    if endpoint.spaceId.Some? {
      assert wake.effects[0].StatusPoll?;
      assert r.effects[|login.effects|] == wake.effects[0];
    } else {
      forall i | 0 <= i < |r.effects|
        ensures !r.effects[i].StatusPoll?
      {
        if i < |login.effects| {
          assert r.effects[i] == login.effects[i];
        }
      }
    }
  }
}
