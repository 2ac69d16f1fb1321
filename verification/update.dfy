/** `updateGitHubFile` of `src/config/github.ts`: a fetch-then-write exchange
    with GitHub's Contents API. The GET returns the file's revision hash
    (`sha`) and the PUT hands it back, so GitHub refuses the write if the file
    changed in between. The transport is an oracle from requests to responses;
    the routine returns the requests it issued and how it ended. */
module ContentsUpdate {
  import opened Wrappers
  import opened GitHubConfig
  import ConfigStore

  datatype Verb = Get | Put

  /** The JSON body of the PUT. An absent `sha` is dropped from the body. */
  datatype PutBody = PutBody(message: string, content: string, sha: Option<string>)

  /** One `fetch` call: verb, URL, the bearer token of the `Authorization`
      header, and the body (PUT only). */
  datatype Request = Request(verb: Verb, url: string, bearer: string, body: Option<PutBody>)

  /** What `response.json()` yields: it rejects (`NotJson`), yields `null`
      (reading a member of it throws), or yields a value whose `message` and
      `sha` members may be undefined. */
  datatype Json = NotJson | JsonNull | Fields(message: Option<string>, sha: Option<string>)

  /** The settled `fetch` promise: rejected (network failure), or a response
      with its `ok` flag and its body. */
  datatype Response = NetworkFailure | Reply(ok: bool, body: Json)

  /** Why the routine throws. `FetchInfoFailed` and `SaveFailed` carry the
      remote `message` member (`None` when it is undefined). */
  datatype UpdateError =
    | TokenRequired
    | NetworkError
    | MalformedBody
    | EncodingFailed
    | FetchInfoFailed(remote: Option<string>)
    | SaveFailed(remote: Option<string>)

  /** The requests issued, in order, and the outcome. */
  datatype Run = Run(trace: seq<Request>, outcome: Outcome<UpdateError>)

  /** The commit message of every write. */
  const CommitMessage: string := "Update navigation data"

  /** The configuration allows a write: its token is neither missing nor empty. */
  predicate HasToken(cfg: Config) {
    GetToken(cfg) != ""
  }

  /** The GET that reads the file's metadata. */
  function FetchRequest(cfg: Config): Request {
    Request(Get, ApiUrl(cfg), GetToken(cfg), None)
  }

  /** The PUT that writes `encoded` to the file read by `get`, citing `sha`. */
  function WriteRequest(get: Request, encoded: string, sha: Option<string>): Request {
    Request(Put, get.url, get.bearer, Some(PutBody(CommitMessage, encoded, sha)))
  }

  /** The GET answered ok with a readable body, so its `sha` can be taken. */
  predicate FetchSucceeded(resp: Response) {
    resp.Reply? && resp.ok && resp.body.Fields?
  }

  /** Which of the two requests a non-ok response answered. */
  datatype Stage = Fetching | Saving

  /** The error thrown for a non-ok response at `stage` whose body is `body`.
      Reading the body may itself throw. */
  function RemoteError(stage: Stage, body: Json): UpdateError {
    match body
    case Fields(message, _) => if stage == Fetching then FetchInfoFailed(message) else SaveFailed(message)
    case _ => MalformedBody
  }

  /** `updateGitHubFile(content)` against the configuration `cfg`, with
      `server` standing for the network and `encode` for the UTF-8 then
      Base64 encoding, which yields `None` where it throws (a lone surrogate
      makes `encodeURIComponent` throw a `URIError`). */
  function UpdateFile(cfg: Config, content: string, encode: string -> Option<string>, server: Request -> Response): (r: Run)
    // No token: fail before any request.
    ensures !HasToken(cfg) <==> r.trace == []
    ensures !HasToken(cfg) <==> r.outcome == Fail(TokenRequired)
    // With a token: first the GET of the configured URL, then at most one more request.
    ensures HasToken(cfg) ==> 1 <= |r.trace| <= 2 && r.trace[0] == FetchRequest(cfg)
    // The PUT is issued exactly when the GET succeeded and the content could be encoded.
    ensures |r.trace| == 2 <==> HasToken(cfg) && FetchSucceeded(server(FetchRequest(cfg))) && encode(content).Some?
    // An ok GET whose body is not JSON or is `null` fails without a PUT.
    ensures HasToken(cfg) && server(FetchRequest(cfg)).Reply? && server(FetchRequest(cfg)).ok &&
            !server(FetchRequest(cfg)).body.Fields? ==>
              r == Run([FetchRequest(cfg)], Fail(MalformedBody))
    // Content that cannot be encoded fails after the GET, without a PUT.
    ensures HasToken(cfg) && FetchSucceeded(server(FetchRequest(cfg))) && encode(content).None? ==>
              r == Run([FetchRequest(cfg)], Fail(EncodingFailed))
    // The PUT goes to the same URL with the same token and carries the fetched sha.
    ensures |r.trace| == 2 ==>
              r.trace[1].verb == Put && r.trace[1].url == r.trace[0].url &&
              r.trace[1].bearer == r.trace[0].bearer &&
              r.trace[1].body == Some(PutBody(CommitMessage, encode(content).value, server(r.trace[0]).body.sha))
    // A GET that never got an answer fails without a PUT.
    ensures HasToken(cfg) && server(FetchRequest(cfg)).NetworkFailure? ==>
              r == Run([FetchRequest(cfg)], Fail(NetworkError))
    // A non-ok GET fails with the remote message.
    ensures HasToken(cfg) && server(FetchRequest(cfg)).Reply? && !server(FetchRequest(cfg)).ok ==>
              r.outcome == Fail(RemoteError(Fetching, server(FetchRequest(cfg)).body))
    // Success exactly when both requests went out and the PUT came back ok.
    ensures r.outcome == Pass <==> |r.trace| == 2 && server(r.trace[1]).Reply? && server(r.trace[1]).ok
    // A PUT that never got an answer fails with no remote message.
    ensures |r.trace| == 2 && server(r.trace[1]).NetworkFailure? ==> r.outcome == Fail(NetworkError)
    // A non-ok PUT fails with the remote message.
    ensures |r.trace| == 2 && server(r.trace[1]).Reply? && !server(r.trace[1]).ok ==>
              r.outcome == Fail(RemoteError(Saving, server(r.trace[1]).body))
  {
    if !HasToken(cfg) then Run([], Fail(TokenRequired))
    else
      var get := FetchRequest(cfg);
      match server(get)
      case NetworkFailure => Run([get], Fail(NetworkError))
      case Reply(false, body) => Run([get], Fail(RemoteError(Fetching, body)))
      case Reply(true, NotJson) => Run([get], Fail(MalformedBody))
      case Reply(true, JsonNull) => Run([get], Fail(MalformedBody))
      case Reply(true, Fields(_, sha)) =>
        match encode(content)
        case None => Run([get], Fail(EncodingFailed))
        case Some(encoded) =>
          var put := WriteRequest(get, encoded, sha);
          match server(put)
          case NetworkFailure => Run([get, put], Fail(NetworkError))
          case Reply(true, _) => Run([get, put], Pass)
          case Reply(false, body) => Run([get, put], Fail(RemoteError(Saving, body)))
  }

  /** The default configuration has the empty token, so with it the routine
      fails before any request. */
  lemma DefaultCannotWrite(content: string, encode: string -> Option<string>, server: Request -> Response)
    ensures UpdateFile(Default, content, encode, server) == Run([], Fail(TokenRequired))
  {
  }

  /** After a reset, whether or not the slot was cleared, no request goes out. */
  lemma ResetCannotWrite(st: ConfigStore.Store, cleared: bool, content: string,
                         encode: string -> Option<string>, server: Request -> Response)
    ensures UpdateFile(ConfigStore.Reset(st, cleared).current, content, encode, server).trace == []
  {
  }

  /** Replacing an undefined token by `''` changes nothing the routine does. */
  lemma NormalizeInvisible(cfg: Config, content: string, encode: string -> Option<string>, server: Request -> Response)
    ensures UpdateFile(Normalize(cfg), content, encode, server) == UpdateFile(cfg, content, encode, server)
  {
  }

  /** A coherent store and its reload upload identically. */
  lemma ReloadUploadsAlike(codec: ConfigStore.Codec, st: ConfigStore.Store, content: string,
                           encode: string -> Option<string>, server: Request -> Response)
    requires ConfigStore.Coherent(codec, st)
    ensures UpdateFile(ConfigStore.Reload(codec, st), content, encode, server)
         == UpdateFile(st.current, content, encode, server)
  {
  }

  /** A Contents API endpoint whose GET reports revision `seen` while the
      file's revision at the time of the PUT is `actual`; it accepts a write
      only when the cited revision is the actual one (GitHub's optimistic
      concurrency check), and answers a conflict otherwise. */
  function ContentsApi(seen: string, actual: string): Request -> Response {
    (req: Request) =>
      match req.verb
      case Get => Reply(true, Fields(None, Some(seen)))
      case Put =>
        if req.body.Some? && req.body.value.sha == Some(actual) then Reply(true, Fields(None, None))
        else Reply(false, Fields(Some("sha does not match"), None))
  }

  /** With a token and encodable content, a write succeeds against an
      unchanged file, and is refused, with the remote message, when the file
      changed between the GET and the PUT: the routine never overwrites a
      revision it did not read. */
  lemma OptimisticWrite(cfg: Config, content: string, encode: string -> Option<string>, seen: string, actual: string)
    requires HasToken(cfg)
    ensures UpdateFile(cfg, content, encode, ContentsApi(seen, actual)).outcome.Pass? <==>
              seen == actual && encode(content).Some?
    ensures seen != actual && encode(content).Some? ==>
              UpdateFile(cfg, content, encode, ContentsApi(seen, actual)).outcome
              == Fail(SaveFailed(Some("sha does not match")))
  {
  }
}
