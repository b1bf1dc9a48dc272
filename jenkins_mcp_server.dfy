/**
 * How the Jenkins MCP server turns one tool call into one authenticated Jenkins request:
 * choosing the Jenkins URL and token, joining the URL, shaping headers, query and body,
 * and the endpoint of each of the five tools. The HTTP exchange itself is a parameter.
 */
module JenkinsMcpServer {
  import opened Wrappers
  import opened Text

  /** Process environment and the headers of the inbound request: names to values. */
  type Env = map<string, string>
  type Headers = map<string, string>

  /** The JSON values a request may carry or a response may decode to. */
  datatype Json =
    | JNull
    | JBool(b: bool)
    | JInt(i: int)
    | JNum(r: real)
    | JStr(s: string)
    | JList(items: seq<Json>)
    | JObject(fields: map<string, Json>)

  /** The `data` argument of the API call: a dictionary, or `None`. */
  type Data = Option<map<string, Json>>

  /** Where a credential lookup was made. */
  datatype Place = Environment | RequestHeaders

  /** What can go wrong in the HTTP exchange, which this model does not look inside. */
  datatype HttpFailure = StatusError(code: int) | TransportError | DecodeError

  datatype Error =
    /** `KeyError`: a subscript of the environment or of the headers found no such key. */
    | KeyMissing(place: Place, key: string)
    /** The exception raised when the resolved URL or token is empty. */
    | MissingCredentials
    /** Raised by the HTTP exchange (status check, transport or JSON decoding). */
    | Http(failure: HttpFailure)
    /** `TypeError`: a call passed a keyword argument the callee does not declare. */
    | UnexpectedKeyword(name: string)

  /** The Jenkins base URL and bearer token one call uses. */
  datatype Context = Context(url: string, token: string)

  /** One request as handed to the HTTP client: `params` are query parameters, `body` the JSON body. */
  datatype Request = Request(verb: string, url: string, headers: Headers, params: Data, body: Data)

  /** Everything a tool call reads: the transport mode fixed at start-up, the environment, the inbound headers. */
  datatype Invocation = Invocation(mode: string, env: Env, headers: Headers)

  /** The HTTP exchange: the decoded response for a request, or how it failed. */
  type Send = Request -> Result<Json, HttpFailure>

  const StdioMode: string := "stdio"
  const TransportVar: string := "MCP_TRANSPORT"
  const UrlVar: string := "JENKINS_URL"
  const TokenVar: string := "JENKINS_TOKEN"
  const UrlHeader: string := "Jenkins-Url"
  const TokenHeader: string := "Jenkins-Token"
  const BearerPrefix: string := "Bearer "

  // ---------------------------------------------------------------------------
  // Context resolution
  // ---------------------------------------------------------------------------

  /** The transport mode read once from the start-up environment, `"stdio"` when unset. */
  function TransportMode(startEnv: Env): string
  {
    if TransportVar in startEnv then startEnv[TransportVar] else StdioMode
  }

  /** A subscript `m[key]` that raises `KeyError` when the key is absent. */
  function Lookup(place: Place, m: map<string, string>, key: string): Result<string, Error>
  {
    if key in m then Success(m[key]) else Failure(KeyMissing(place, key))
  }

  /**
   * The URL and token for the current call: from the environment in mode `"stdio"` (exactly that
   * string), from the request headers in any other mode; the URL is looked up before the token,
   * and an empty value of either fails after both lookups.
   */
  function ResolveContext(mode: string, env: Env, headers: Headers): (r: Result<Context, Error>)
    ensures r.Success? ==> r.value.url != "" && r.value.token != ""
  {
    var url := if mode == StdioMode then Lookup(Environment, env, UrlVar) else Lookup(RequestHeaders, headers, UrlHeader);
    match url
    case Failure(e) => Failure(e)
    case Success(u) =>
      var token := if mode == StdioMode then Lookup(Environment, env, TokenVar) else Lookup(RequestHeaders, headers, TokenHeader);
      match token
      case Failure(e) => Failure(e)
      case Success(t) => if u == "" || t == "" then Failure(MissingCredentials) else Success(Context(u, t))
  }

  /** Reference description of the credential source: which map, and the names of the URL and token in it. */
  datatype Source = Source(place: Place, values: map<string, string>, urlKey: string, tokenKey: string)

  function CredentialSource(mode: string, env: Env, headers: Headers): Source
  {
    if mode == StdioMode then Source(Environment, env, UrlVar, TokenVar)
    else Source(RequestHeaders, headers, UrlHeader, TokenHeader)
  }

  /** Resolution succeeds exactly when both names are present in the chosen source with non-empty values, and then returns them. */
  lemma ResolveSucceedsIff(mode: string, env: Env, headers: Headers)
    ensures var s := CredentialSource(mode, env, headers);
      ResolveContext(mode, env, headers).Success? <==>
        s.urlKey in s.values && s.tokenKey in s.values && s.values[s.urlKey] != "" && s.values[s.tokenKey] != ""
    ensures var s := CredentialSource(mode, env, headers);
      ResolveContext(mode, env, headers).Success? ==>
        ResolveContext(mode, env, headers).value == Context(s.values[s.urlKey], s.values[s.tokenKey])
  {
  }

  /** The failure names the first missing key, the URL's before the token's; with both present it is the emptiness error. */
  lemma ResolveFailureKind(mode: string, env: Env, headers: Headers)
    ensures var s := CredentialSource(mode, env, headers);
      var r := ResolveContext(mode, env, headers);
      && (s.urlKey !in s.values ==> r == Failure(KeyMissing(s.place, s.urlKey)))
      && (s.urlKey in s.values && s.tokenKey !in s.values ==> r == Failure(KeyMissing(s.place, s.tokenKey)))
      && (s.urlKey in s.values && s.tokenKey in s.values && (s.values[s.urlKey] == "" || s.values[s.tokenKey] == "") ==>
            r == Failure(MissingCredentials))
  {
  }

  /** In mode `"stdio"` the inbound headers play no part. */
  lemma StdioIgnoresHeaders(env: Env, h1: Headers, h2: Headers)
    ensures ResolveContext(StdioMode, env, h1) == ResolveContext(StdioMode, env, h2)
  {
  }

  /** In every other mode the environment plays no part. */
  lemma OtherModesIgnoreEnv(mode: string, e1: Env, e2: Env, headers: Headers)
    requires mode != StdioMode
    ensures ResolveContext(mode, e1, headers) == ResolveContext(mode, e2, headers)
  {
  }

  /** With `MCP_TRANSPORT` unset the mode is `"stdio"`; set to anything else, even the empty string, headers are used. */
  lemma TransportModeDefault(startEnv: Env)
    ensures TransportVar !in startEnv ==> TransportMode(startEnv) == StdioMode
    ensures TransportVar in startEnv && startEnv[TransportVar] != StdioMode ==>
      TransportMode(startEnv) != StdioMode &&
      CredentialSource(TransportMode(startEnv), startEnv, map[]).place == RequestHeaders
  {
  }

  // ---------------------------------------------------------------------------
  // The API call: URL, headers, query or body
  // ---------------------------------------------------------------------------

  /** The full URL: the base with all trailing slashes removed, one slash, the path with all leading slashes removed. */
  function JoinUrl(base: string, apiPath: string): string
  {
    RStrip(base, '/') + "/" + LStrip(apiPath, '/')
  }

  /**
   * Reference definition of the join: write the base as `x` followed by `m` slashes and the path as
   * `n` slashes followed by `y`, where `x` does not end and `y` does not start with a slash;
   * the URL is `x + "/" + y`, whatever `m` and `n` are.
   */
  lemma JoinUrlCanonical(x: string, m: nat, n: nat, y: string)
    requires x == [] || x[|x| - 1] != '/'
    requires y == [] || y[0] != '/'
    ensures JoinUrl(x + Repeat('/', m), Repeat('/', n) + y) == x + "/" + y
  {
    RStripExact(x, Repeat('/', m), '/');
    LStripExact(Repeat('/', n), y, '/');
  }

  /** There is exactly one slash where base and path meet. */
  lemma JoinUrlSeam(base: string, apiPath: string)
    ensures var u := JoinUrl(base, apiPath);
      var k := |RStrip(base, '/')|;
      && k < |u| && u[k] == '/'
      && (k == 0 || u[k - 1] != '/')
      && (k + 1 == |u| || u[k + 1] != '/')
      && u[..k] == base[..k] && AllChar(base[k..], '/')
      && u[k + 1..] == LStrip(apiPath, '/')
  {
    var u := JoinUrl(base, apiPath);
    var k := |RStrip(base, '/')|;
    assert u[..k] == RStrip(base, '/');
    assert u[k + 1..] == LStrip(apiPath, '/');
  }

  /** One more slash at the end of the base or at the start of the path changes nothing. */
  lemma JoinUrlExtraSlashes(base: string, apiPath: string)
    ensures JoinUrl(base + "/", apiPath) == JoinUrl(base, apiPath)
    ensures JoinUrl(base, "/" + apiPath) == JoinUrl(base, apiPath)
  {
    assert (base + "/")[..|base + "/"| - 1] == base;
    assert ("/" + apiPath)[1..] == apiPath;
  }

  lemma JoinUrlExample()
    ensures JoinUrl("http://h/", "/api/json") == "http://h/api/json"
    ensures JoinUrl("http://h", "api/json") == "http://h/api/json"
  {
    var host, path := "http://h", "api/json";
    assert host[|host| - 1] == 'h' && path[0] == 'a';
    assert RStrip(host, '/') == host;
    assert "http://h/"[..|host|] == host;
    assert RStrip("http://h/", '/') == host;
    assert LStrip(path, '/') == path;
    assert "/api/json"[1..] == path;
    assert LStrip("/api/json", '/') == path;
    assert host + "/" + "api/json" == "http://h/api/json";
  }

  /** The two request headers: the bearer token and the JSON media type. */
  function AuthHeaders(token: string): (h: Headers)
    ensures h.Keys == {"Authorization", "Accept"}
    ensures h["Accept"] == "application/json"
    ensures BearerPrefix <= h["Authorization"] && h["Authorization"][|BearerPrefix|..] == token
  {
    map["Authorization" := BearerPrefix + token, "Accept" := "application/json"]
  }

  /** The test `method.upper() == "GET"` on the HTTP method. */
  predicate IsGet(verb: string)
  {
    Upper(verb) == "GET"
  }

  /** `IsGet` holds exactly for the three-letter spellings of GET in any mix of case. */
  lemma IsGetIff(verb: string)
    ensures IsGet(verb) <==>
      |verb| == 3 && verb[0] in "Gg" && verb[1] in "Ee" && verb[2] in "Tt"
  {
    UpperIsUppercase(verb, "GET");
  }

  /** The verbs the tools use: `"GET"` takes the query branch, `"POST"` the body branch. */
  lemma VerbsClassified()
    ensures IsGet("GET") && !IsGet("POST")
  {
    IsGetIff("GET");
    IsGetIff("POST");
  }

  /** The request for an already resolved context: `data` travels as query parameters for GET, as a JSON body otherwise. */
  function BuildRequest(ctx: Context, apiPath: string, verb: string, data: Data): (r: Request)
    ensures r.verb == verb && r.url == JoinUrl(ctx.url, apiPath) && r.headers == AuthHeaders(ctx.token)
    ensures IsGet(verb) ==> r.params == data && r.body == None
    ensures !IsGet(verb) ==> r.body == data && r.params == None
  {
    var url := JoinUrl(ctx.url, apiPath);
    var headers := AuthHeaders(ctx.token);
    if IsGet(verb) then Request(verb, url, headers, data, None)
    else Request(verb, url, headers, None, data)
  }

  /** Data is never sent twice: with data present, exactly one of query and body carries it. */
  lemma DataTravelsOnce(ctx: Context, apiPath: string, verb: string, data: Data)
    requires data.Some?
    ensures var r := BuildRequest(ctx, apiPath, verb, data);
      (r.params == data && r.body == None) != (r.body == data && r.params == None)
  {
  }

  /** Resolve the context, then build the request; a failed resolution yields no request at all. */
  function PrepareRequest(inv: Invocation, apiPath: string, verb: string, data: Data): (r: Result<Request, Error>)
    ensures var c := ResolveContext(inv.mode, inv.env, inv.headers);
      && (c.Failure? ==> r == Failure(c.error))
      && (c.Success? ==> r == Success(BuildRequest(c.value, apiPath, verb, data)))
  {
    match ResolveContext(inv.mode, inv.env, inv.headers)
    case Failure(e) => Failure(e)
    case Success(ctx) => Success(BuildRequest(ctx, apiPath, verb, data))
  }

  /** An error of the exchange, raised as the call's error. */
  function Lift(outcome: Result<Json, HttpFailure>): (r: Result<Json, Error>)
    ensures outcome.Success? ==> r == Success(outcome.value)
    ensures outcome.Failure? ==> r == Failure(Http(outcome.error))
  {
    match outcome
    case Success(j) => Success(j)
    case Failure(f) => Failure(Http(f))
  }

  /** `jenkins_api_call`: one request, and the decoded response or the first error. */
  function ApiCall(inv: Invocation, apiPath: string, verb: string, data: Data, send: Send): Result<Json, Error>
  {
    match PrepareRequest(inv, apiPath, verb, data)
    case Failure(e) => Failure(e)
    case Success(req) => Lift(send(req))
  }

  /** A failed resolution is the call's result whatever the exchange would do: nothing is sent. */
  lemma ApiCallFailsFast(inv: Invocation, apiPath: string, verb: string, data: Data, send: Send)
    requires ResolveContext(inv.mode, inv.env, inv.headers).Failure?
    ensures ApiCall(inv, apiPath, verb, data, send) == Failure(ResolveContext(inv.mode, inv.env, inv.headers).error)
  {
  }

  /** With a resolved context, the exchange receives exactly the built request and its outcome is returned unchanged. */
  lemma ApiCallSends(inv: Invocation, apiPath: string, verb: string, data: Data, send: Send)
    requires ResolveContext(inv.mode, inv.env, inv.headers).Success?
    ensures var ctx := ResolveContext(inv.mode, inv.env, inv.headers).value;
      ApiCall(inv, apiPath, verb, data, send) == Lift(send(BuildRequest(ctx, apiPath, verb, data)))
  {
  }

  /** In header mode, with both headers present and non-empty, the context is exactly those two values. */
  lemma HeaderModeResolves(inv: Invocation)
    requires inv.mode != StdioMode
    requires UrlHeader in inv.headers && TokenHeader in inv.headers
    requires inv.headers[UrlHeader] != "" && inv.headers[TokenHeader] != ""
    ensures ResolveContext(inv.mode, inv.env, inv.headers) == Success(Context(inv.headers[UrlHeader], inv.headers[TokenHeader]))
  {
  }

  /** The built request authorises with the context's own token. */
  lemma BuildRequestBearer(ctx: Context, apiPath: string, verb: string, data: Data)
    ensures BuildRequest(ctx, apiPath, verb, data).headers["Authorization"] == BearerPrefix + ctx.token
  {
  }

  /** In header mode each call's request goes to its own `Jenkins-Url` with its own `Jenkins-Token`. */
  lemma RequestUsesCallersHeaders(inv: Invocation, apiPath: string, verb: string, data: Data)
    requires inv.mode != StdioMode
    requires UrlHeader in inv.headers && TokenHeader in inv.headers
    requires inv.headers[UrlHeader] != "" && inv.headers[TokenHeader] != ""
    ensures var r := PrepareRequest(inv, apiPath, verb, data);
      && r.Success?
      && r.value.url == JoinUrl(inv.headers[UrlHeader], apiPath)
      && r.value.headers["Authorization"] == BearerPrefix + inv.headers[TokenHeader]
  {
    HeaderModeResolves(inv);
    BuildRequestBearer(Context(inv.headers[UrlHeader], inv.headers[TokenHeader]), apiPath, verb, data);
  }

  // ---------------------------------------------------------------------------
  // The five tools
  // ---------------------------------------------------------------------------

  /** The path segment naming a build: its number in decimal, or Jenkins' alias `lastBuild`. */
  function BuildRef(buildNumber: Option<int>): string
  {
    match buildNumber
    case Some(n) => IntToString(n)
    case None => "lastBuild"
  }

  function AllJobsPath(): string { "api/json" }

  function JobPath(fullPath: string): string { "job/" + fullPath + "/api/json" }

  function BuildPath(fullPath: string, buildNumber: Option<int>): string
  {
    "job/" + fullPath + "/" + BuildRef(buildNumber) + "/api/json"
  }

  function TriggerPath(fullPath: string): string { "job/" + fullPath + "/build" }

  function BuildLogPath(fullPath: string, buildNumber: Option<int>): string
  {
    "job/" + fullPath + "/" + BuildRef(buildNumber) + "/logText/progressiveText"
  }

  /** The query the log tool means to send: only `start`. */
  function BuildLogQuery(start: int): (q: map<string, Json>)
    ensures q.Keys == {"start"} && q["start"] == JInt(start)
  {
    map["start" := JInt(start)]
  }

  /** A build reference is one non-empty path segment, and a number never renders as `lastBuild`. */
  lemma BuildRefIsOneSegment(buildNumber: Option<int>)
    ensures BuildRef(buildNumber) != [] && '/' !in BuildRef(buildNumber)
    ensures buildNumber.Some? ==> BuildRef(buildNumber) != "lastBuild"
  {
    if buildNumber.Some? {
      var s := IntToString(buildNumber.value);
      assert s[0] == '-' || '0' <= s[0] <= '9';
      assert "lastBuild"[0] == 'l';
    }
  }

  /** Different build arguments give different segments. */
  lemma BuildRefInjective(a: Option<int>, b: Option<int>)
    requires BuildRef(a) == BuildRef(b)
    ensures a == b
  {
    BuildRefIsOneSegment(a);
    BuildRefIsOneSegment(b);
    if a.Some? && b.Some? {
      IntToStringInjective(a.value, b.value);
    }
  }

  /** The middle of `pre + x + post` can be read back. */
  lemma CancelAround(pre: string, x: string, y: string, post: string)
    requires pre + x + post == pre + y + post
    ensures x == y
  {
    assert |x| == |y|;
    assert x == (pre + x + post)[|pre|..|pre| + |x|];
    assert y == (pre + y + post)[|pre|..|pre| + |y|];
  }

  /** The build endpoint determines which build was asked for. */
  lemma BuildPathInjective(fullPath: string, a: Option<int>, b: Option<int>)
    requires BuildPath(fullPath, a) == BuildPath(fullPath, b)
    ensures a == b
  {
    var pre := "job/" + fullPath + "/";
    assert BuildPath(fullPath, a) == pre + BuildRef(a) + "/api/json";
    assert BuildPath(fullPath, b) == pre + BuildRef(b) + "/api/json";
    CancelAround(pre, BuildRef(a), BuildRef(b), "/api/json");
    BuildRefInjective(a, b);
  }

  /** The log endpoint determines which build was asked for. */
  lemma BuildLogPathInjective(fullPath: string, a: Option<int>, b: Option<int>)
    requires BuildLogPath(fullPath, a) == BuildLogPath(fullPath, b)
    ensures a == b
  {
    var pre := "job/" + fullPath + "/";
    assert BuildLogPath(fullPath, a) == pre + BuildRef(a) + "/logText/progressiveText";
    assert BuildLogPath(fullPath, b) == pre + BuildRef(b) + "/logText/progressiveText";
    CancelAround(pre, BuildRef(a), BuildRef(b), "/logText/progressiveText");
    BuildRefInjective(a, b);
  }

  /** `getBuild("x")` asks for `job/x/lastBuild/api/json`. */
  lemma BuildPathDefaultExample()
    ensures BuildPath("x", None) == "job/x/lastBuild/api/json"
  {
  }

  /** `getBuild("x", 42)` asks for `job/x/42/api/json`. */
  lemma BuildPathNumberExample()
    ensures BuildPath("x", Some(42)) == "job/x/42/api/json"
  {
    IntToStringExample();
    assert BuildRef(Some(42)) == "42";
  }

  /** `getBuildLog("x")` reads `job/x/lastBuild/logText/progressiveText`. */
  lemma BuildLogPathDefaultExample()
    ensures BuildLogPath("x", None) == "job/x/lastBuild/logText/progressiveText"
  {
    var head := "job/x/lastBuild";
    assert "job/" + "x" + "/" + BuildRef(None) == head;
    assert head + "/logText/progressiveText" == "job/x/lastBuild/logText/progressiveText";
  }

  /** An endpoint that does not start with a slash is appended to the stripped base after one slash. */
  lemma EndpointUrl(base: string, endpoint: string)
    requires endpoint == [] || endpoint[0] != '/'
    ensures JoinUrl(base, endpoint) == RStrip(base, '/') + "/" + endpoint
  {
  }

  /** `getAllJobs`: GET `api/json`. */
  function GetAllJobs(inv: Invocation, send: Send): Result<Json, Error>
  {
    ApiCall(inv, AllJobsPath(), "GET", None, send)
  }

  /** `getJob`: GET `job/<full_path>/api/json`. */
  function GetJob(inv: Invocation, send: Send, fullPath: string): Result<Json, Error>
  {
    ApiCall(inv, JobPath(fullPath), "GET", None, send)
  }

  /** `getBuild`: GET the given build, or the last one when no number is given (the default). */
  function GetBuild(inv: Invocation, send: Send, fullPath: string, buildNumber: Option<int> := None): Result<Json, Error>
  {
    ApiCall(inv, BuildPath(fullPath, buildNumber), "GET", None, send)
  }

  /** `triggerBuild`: POST `job/<full_path>/build` without a body; the response is discarded. */
  function TriggerBuild(inv: Invocation, send: Send, fullPath: string): (r: Result<string, Error>)
    ensures r.Success? ==> r.value == "Build triggered for job: " + fullPath
  {
    match ApiCall(inv, TriggerPath(fullPath), "POST", None, send)
    case Failure(e) => Failure(e)
    case Success(_) => Success("Build triggered for job: " + fullPath)
  }

  /**
   * `getBuildLog` as written: the call passes a keyword `params` that the API call does not declare,
   * so it raises before resolving any context or sending anything.
   */
  function GetBuildLogAsWritten(inv: Invocation, send: Send, fullPath: string, buildNumber: Option<int> := None, start: int := 0): (r: Result<Json, Error>)
    ensures r == Failure(UnexpectedKeyword("params"))
  {
    Failure(UnexpectedKeyword("params"))
  }

  /** `getBuildLog` as intended: GET the build's progressive log with the query `{"start": start}`; `start` defaults to 0. */
  function GetBuildLog(inv: Invocation, send: Send, fullPath: string, buildNumber: Option<int> := None, start: int := 0): Result<Json, Error>
  {
    ApiCall(inv, BuildLogPath(fullPath, buildNumber), "GET", Some(BuildLogQuery(start)), send)
  }

  /**
   * When the context does not resolve, `getAllJobs`, `getJob`, `getBuild`, `triggerBuild` and the intended
   * `getBuildLog` fail with the resolution error whatever the exchange would do; the as-written `getBuildLog`
   * fails with `TypeError` first.
   */
  lemma ToolsFailFast(inv: Invocation, fullPath: string, buildNumber: Option<int>, start: int, send: Send)
    requires ResolveContext(inv.mode, inv.env, inv.headers).Failure?
    ensures var e := ResolveContext(inv.mode, inv.env, inv.headers).error;
      && GetAllJobs(inv, send) == Failure(e)
      && GetJob(inv, send, fullPath) == Failure(e)
      && GetBuild(inv, send, fullPath, buildNumber) == Failure(e)
      && TriggerBuild(inv, send, fullPath) == Failure(e)
      && GetBuildLog(inv, send, fullPath, buildNumber, start) == Failure(e)
      && GetBuildLogAsWritten(inv, send, fullPath, buildNumber, start) == Failure(UnexpectedKeyword("params"))
  {
  }

  /** `getAllJobs` sends one GET of `<base>/api/json` with no query and no body, and returns its outcome unchanged. */
  lemma GetAllJobsSends(inv: Invocation, send: Send)
    requires ResolveContext(inv.mode, inv.env, inv.headers).Success?
    ensures var ctx := ResolveContext(inv.mode, inv.env, inv.headers).value;
      GetAllJobs(inv, send) ==
        Lift(send(Request("GET", RStrip(ctx.url, '/') + "/" + AllJobsPath(), AuthHeaders(ctx.token), None, None)))
  {
    var ctx := ResolveContext(inv.mode, inv.env, inv.headers).value;
    VerbsClassified();
    EndpointUrl(ctx.url, AllJobsPath());
  }

  /** `getJob` sends one GET of `<base>/job/<full_path>/api/json` with no query and no body. */
  lemma GetJobSends(inv: Invocation, fullPath: string, send: Send)
    requires ResolveContext(inv.mode, inv.env, inv.headers).Success?
    ensures var ctx := ResolveContext(inv.mode, inv.env, inv.headers).value;
      GetJob(inv, send, fullPath) ==
        Lift(send(Request("GET", RStrip(ctx.url, '/') + "/" + JobPath(fullPath), AuthHeaders(ctx.token), None, None)))
  {
    var ctx := ResolveContext(inv.mode, inv.env, inv.headers).value;
    VerbsClassified();
    EndpointUrl(ctx.url, JobPath(fullPath));
  }

  /** `getBuild` sends one GET of `<base>/job/<full_path>/<number or lastBuild>/api/json` with no query and no body. */
  lemma GetBuildSends(inv: Invocation, fullPath: string, buildNumber: Option<int>, send: Send)
    requires ResolveContext(inv.mode, inv.env, inv.headers).Success?
    ensures var ctx := ResolveContext(inv.mode, inv.env, inv.headers).value;
      GetBuild(inv, send, fullPath, buildNumber) ==
        Lift(send(Request("GET", RStrip(ctx.url, '/') + "/" + BuildPath(fullPath, buildNumber), AuthHeaders(ctx.token), None, None)))
  {
    var ctx := ResolveContext(inv.mode, inv.env, inv.headers).value;
    VerbsClassified();
    EndpointUrl(ctx.url, BuildPath(fullPath, buildNumber));
  }

  /** The intended `getBuildLog` sends one GET of the progressive log with exactly the query `start`, and no body. */
  lemma GetBuildLogSends(inv: Invocation, fullPath: string, buildNumber: Option<int>, start: int, send: Send)
    requires ResolveContext(inv.mode, inv.env, inv.headers).Success?
    ensures var ctx := ResolveContext(inv.mode, inv.env, inv.headers).value;
      GetBuildLog(inv, send, fullPath, buildNumber, start) ==
        Lift(send(Request("GET", RStrip(ctx.url, '/') + "/" + BuildLogPath(fullPath, buildNumber),
                          AuthHeaders(ctx.token), Some(map["start" := JInt(start)]), None)))
  {
    var ctx := ResolveContext(inv.mode, inv.env, inv.headers).value;
    VerbsClassified();
    EndpointUrl(ctx.url, BuildLogPath(fullPath, buildNumber));
  }

  /** `getBuild(full_path)` with its default `build_number = None` asks for the last build. */
  lemma GetBuildDefaultCall(inv: Invocation, send: Send, fullPath: string)
    requires ResolveContext(inv.mode, inv.env, inv.headers).Success?
    ensures var ctx := ResolveContext(inv.mode, inv.env, inv.headers).value;
      GetBuild(inv, send, fullPath) ==
        Lift(send(Request("GET", RStrip(ctx.url, '/') + "/" + BuildPath(fullPath, None), AuthHeaders(ctx.token), None, None)))
  {
    GetBuildSends(inv, fullPath, None, send);
  }

  /**
   * The intended `getBuildLog(full_path)`, with its defaults `build_number = None` and `start = 0`,
   * reads the last build's log from the start: the query is exactly `{"start": 0}`.
   */
  lemma GetBuildLogDefaultCall(inv: Invocation, send: Send, fullPath: string)
    requires ResolveContext(inv.mode, inv.env, inv.headers).Success?
    ensures var ctx := ResolveContext(inv.mode, inv.env, inv.headers).value;
      GetBuildLog(inv, send, fullPath) ==
        Lift(send(Request("GET", RStrip(ctx.url, '/') + "/" + BuildLogPath(fullPath, None),
                          AuthHeaders(ctx.token), Some(map["start" := JInt(0)]), None)))
  {
    GetBuildLogSends(inv, fullPath, None, 0, send);
  }

  /** The trigger sends one POST without query or body, and succeeds with the fixed message exactly when the exchange succeeds. */
  lemma TriggerBuildSends(inv: Invocation, fullPath: string, send: Send)
    requires ResolveContext(inv.mode, inv.env, inv.headers).Success?
    ensures var ctx := ResolveContext(inv.mode, inv.env, inv.headers).value;
      var req := Request("POST", RStrip(ctx.url, '/') + "/" + TriggerPath(fullPath), AuthHeaders(ctx.token), None, None);
      && (send(req).Success? ==> TriggerBuild(inv, send, fullPath) == Success("Build triggered for job: " + fullPath))
      && (send(req).Failure? ==> TriggerBuild(inv, send, fullPath) == Failure(Http(send(req).error)))
  {
    var ctx := ResolveContext(inv.mode, inv.env, inv.headers).value;
    VerbsClassified();
    EndpointUrl(ctx.url, TriggerPath(fullPath));
  }

  /** Two exchanges that both succeed on the trigger request, with any response bodies, give the same result. */
  lemma TriggerBuildIgnoresBody(inv: Invocation, fullPath: string, send1: Send, send2: Send)
    requires ResolveContext(inv.mode, inv.env, inv.headers).Success?
    requires var req := BuildRequest(ResolveContext(inv.mode, inv.env, inv.headers).value, TriggerPath(fullPath), "POST", None);
      send1(req).Success? && send2(req).Success?
    ensures TriggerBuild(inv, send1, fullPath) == TriggerBuild(inv, send2, fullPath)
  {
  }

  /**
   * The log tool as written never reaches Jenkins, even with good credentials and an exchange that
   * would succeed; the intended version does, with the query `start`.
   */
  lemma GetBuildLogDiscrepancy(inv: Invocation, fullPath: string, buildNumber: Option<int>, start: int, send: Send)
    requires ResolveContext(inv.mode, inv.env, inv.headers).Success?
    requires var req := BuildRequest(ResolveContext(inv.mode, inv.env, inv.headers).value,
                                     BuildLogPath(fullPath, buildNumber), "GET", Some(BuildLogQuery(start)));
      send(req).Success?
    ensures GetBuildLogAsWritten(inv, send, fullPath, buildNumber, start).Failure?
    ensures GetBuildLog(inv, send, fullPath, buildNumber, start).Success?
  {
  }
}
