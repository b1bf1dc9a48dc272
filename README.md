# Jenkins MCP server: request assembly, modelled in Dafny

The server exposes five Jenkins operations as MCP tools: list jobs, get a job, get a build, trigger a build and get a build log. Each tool call sends at most one authenticated HTTP request to the Jenkins REST API. A call whose credentials do not resolve sends none. `getBuildLog` as written sends none either (see Findings). This project models the pure part of that translation in `jenkins_mcp_server.py`, and proves properties of the model:

- **Credential selection** (`get_jenkins_context`). The transport mode is `MCP_TRANSPORT`, or `"stdio"` when that variable is unset.
  - In mode `"stdio"`, the Jenkins URL and token come from the environment variables `JENKINS_URL` and `JENKINS_TOKEN`.
  - In any other mode they come from the request headers `Jenkins-Url` and `Jenkins-Token`.
  - A missing key raises `KeyError`. The URL is looked up before the token.
  - After both lookups, an empty URL or an empty token raises the exception "Missing Jenkins URL or Token in headers". The same message is raised in both modes.
- **The API call** (`jenkins_api_call`):
  - It opens an HTTP client, then resolves the context before it builds or sends any request.
  - It joins the URL as `base.rstrip('/') + "/" + path.lstrip('/')`.
  - It sends two headers: the bearer token and `Accept: application/json`.
  - If `method.upper() == "GET"`, `data` goes out as query parameters. Otherwise it goes out as the JSON body.
- **The five tools**: their endpoint templates, with `lastBuild` substituted when no build number is given, and their HTTP methods. `triggerBuild` returns a fixed confirmation string.

Files:

- `wrappers.dfy`: `Option` and `Result`.
- `text.dfy`: Python's `rstrip`/`lstrip` for one character, `upper()`, and `str()` of an integer, with a decimal parser as its proved inverse.
- `jenkins_mcp_server.dfy`: the module `JenkinsMcpServer`.

The HTTP exchange is a parameter `send: Request -> Result<Json, HttpFailure>`. It maps the request handed to the HTTP client to a decoded response, or to a failure: a non-success status, a transport error or a JSON decoding error. Saying "no request is sent when credentials do not resolve" then means the tool's result is the same for every `send`.

Three behaviours of the code that the model keeps exactly:

- The join strips every trailing slash of the base and every leading slash of the path (line 33).
- A missing variable or header raises `KeyError` naming the key. Only an empty value raises the exception "Missing Jenkins URL or Token in headers" (lines 14-24).
- The build-log tool, as written, never delivers `start` to Jenkins (see Findings).

## Model

| member | source | states |
|---|---|---|
| `Text.RStrip` | jenkins_mcp_server.py:33 | `rstrip('/')` keeps a prefix of the base, removes only slashes, and leaves no trailing slash |
| `Text.LStrip` | jenkins_mcp_server.py:33 | `lstrip('/')` keeps a suffix of the path, removes only slashes, and leaves no leading slash |
| `Text.RStripExact` | jenkins_mcp_server.py:33 | `x` followed by any number of slashes strips back to exactly `x` when `x` does not end in a slash |
| `Text.LStripExact` | jenkins_mcp_server.py:33 | any number of slashes followed by `y` strips back to exactly `y` when `y` does not start with a slash |
| `JenkinsMcpServer.JoinUrlCanonical` | jenkins_mcp_server.py:33 | for base `x` + m slashes and path n slashes + `y`, the URL is `x + "/" + y` for every m and n |
| `JenkinsMcpServer.JoinUrlSeam` | jenkins_mcp_server.py:33 | the joined URL has exactly one slash at the seam; before it is the base without its trailing slashes, after it the path without its leading slashes |
| `JenkinsMcpServer.JoinUrlExtraSlashes` | jenkins_mcp_server.py:33 | one more slash at the end of the base or at the start of the path leaves the URL unchanged |
| `JenkinsMcpServer.JoinUrlExample` | jenkins_mcp_server.py:33 | `"http://h/"` with `"/api/json"`, and `"http://h"` with `"api/json"`, both give `"http://h/api/json"` |
| `JenkinsMcpServer.EndpointUrl` | jenkins_mcp_server.py:33 | a path that does not start with a slash is appended unchanged after the stripped base and one slash |
| `JenkinsMcpServer.ResolveContext` | jenkins_mcp_server.py:11-25 | a resolved context never has an empty URL or an empty token |
| `JenkinsMcpServer.ResolveSucceedsIff` | jenkins_mcp_server.py:13-25 | resolution succeeds iff both names are in the source the mode selects with non-empty values; it then returns those two values |
| `JenkinsMcpServer.ResolveFailureKind` | jenkins_mcp_server.py:13-24 | a missing URL key is reported first, then a missing token key; with both present, an empty value gives the credentials error |
| `JenkinsMcpServer.StdioIgnoresHeaders` | jenkins_mcp_server.py:13-22 | in mode `"stdio"` the result does not depend on the request headers |
| `JenkinsMcpServer.OtherModesIgnoreEnv` | jenkins_mcp_server.py:13-22 | in every mode other than `"stdio"` the result does not depend on the environment |
| `JenkinsMcpServer.TransportModeDefault` | jenkins_mcp_server.py:8 | with `MCP_TRANSPORT` unset the environment is the source; set to anything but `"stdio"`, the empty string included, the headers are |
| `JenkinsMcpServer.AuthHeaders` | jenkins_mcp_server.py:34-37 | exactly the two headers `Authorization` and `Accept`; `Accept` is `application/json`, `Authorization` is `"Bearer "` followed by the token |
| `Text.UpperChar` | jenkins_mcp_server.py:38 | a lower-case ASCII letter maps to its upper-case letter; every other character is unchanged |
| `Text.Upper` | jenkins_mcp_server.py:38 | the ASCII case mapping used for `upper()`: it keeps the length and maps every character by `UpperChar` |
| `Text.UpperIsUppercase` | jenkins_mcp_server.py:38 | `upper()` of `s` equals an upper-case word iff `s` spells that word with each letter in either case |
| `JenkinsMcpServer.IsGetIff` | jenkins_mcp_server.py:38 | `method.upper() == "GET"` iff the method is three letters G, E, T, each in either case |
| `JenkinsMcpServer.VerbsClassified` | jenkins_mcp_server.py:38-41 | `"GET"` takes the query branch and `"POST"` the body branch |
| `JenkinsMcpServer.BuildRequest` | jenkins_mcp_server.py:33-41 | the request keeps the caller's method, has the joined URL and the two headers; for GET `data` is the query and there is no body; otherwise `data` is the body and there is no query |
| `JenkinsMcpServer.DataTravelsOnce` | jenkins_mcp_server.py:38-41 | when data is present, exactly one of query and body carries it |
| `JenkinsMcpServer.PrepareRequest` | jenkins_mcp_server.py:31-41 | a failed resolution is the result and there is no request; otherwise the request is built from the resolved context |
| `JenkinsMcpServer.Lift` | jenkins_mcp_server.py:42-43 | a decoded response is returned as is; an exchange failure is raised as the call's error |
| `JenkinsMcpServer.ApiCallFailsFast` | jenkins_mcp_server.py:32-41 | when resolution fails, the call fails with that error whatever the exchange would do, so nothing is sent |
| `JenkinsMcpServer.ApiCallSends` | jenkins_mcp_server.py:32-43 | with a resolved context, the exchange receives exactly the built request and its outcome is returned |
| `JenkinsMcpServer.HeaderModeResolves` | jenkins_mcp_server.py:16-25 | in header mode, with both headers present and non-empty, the context is exactly those two header values |
| `JenkinsMcpServer.BuildRequestBearer` | jenkins_mcp_server.py:35 | the built request's `Authorization` header is `"Bearer "` followed by the context's token |
| `JenkinsMcpServer.RequestUsesCallersHeaders` | jenkins_mcp_server.py:16-35 | in header mode a call's request goes to its own `Jenkins-Url` and carries its own `Jenkins-Token` |
| `Text.DigitChar` | jenkins_mcp_server.py:62 | a decimal digit value maps to the character of that digit |
| `Text.NatToString` | jenkins_mcp_server.py:62 | `str(n)` of a natural number is a non-empty string of digits with no leading zero except for `"0"` itself; with `ParseNatToString` this fixes the string uniquely |
| `Text.IntToString` | jenkins_mcp_server.py:62 | `str(i)` is non-empty and made of digits; it starts with a minus sign exactly when `i` is negative; the digits have no leading zero except for `"0"` itself |
| `Text.ParseNatToString` | jenkins_mcp_server.py:62 | reading the decimal string of a natural number back gives that number |
| `Text.ParseIntToString` | jenkins_mcp_server.py:62 | reading the decimal string of an integer back gives that integer |
| `Text.IntToStringInjective` | jenkins_mcp_server.py:62 | different build numbers render to different strings |
| `Text.IntToStringExample` | jenkins_mcp_server.py:62 | `str(42)`, `str(-7)` and `str(0)` are `"42"`, `"-7"` and `"0"` |
| `JenkinsMcpServer.BuildRefIsOneSegment` | jenkins_mcp_server.py:61-64 | the build segment is non-empty and contains no slash, and a number never renders as `lastBuild` |
| `JenkinsMcpServer.BuildRefInjective` | jenkins_mcp_server.py:80-83 | different build arguments, absent included, give different build segments |
| `JenkinsMcpServer.BuildPathInjective` | jenkins_mcp_server.py:61-64 | the `getBuild` endpoint determines which build was asked for |
| `JenkinsMcpServer.BuildLogPathInjective` | jenkins_mcp_server.py:80-83 | the `getBuildLog` endpoint determines which build was asked for |
| `JenkinsMcpServer.BuildPathDefaultExample` | jenkins_mcp_server.py:61-64 | `getBuild("x")` without a number requests `job/x/lastBuild/api/json` |
| `JenkinsMcpServer.BuildPathNumberExample` | jenkins_mcp_server.py:61-62 | `getBuild("x", 42)` requests `job/x/42/api/json` |
| `JenkinsMcpServer.BuildLogPathDefaultExample` | jenkins_mcp_server.py:80-83 | `getBuildLog("x")` without a number reads `job/x/lastBuild/logText/progressiveText` |
| `JenkinsMcpServer.BuildLogQuery` | jenkins_mcp_server.py:84 | the intended log query has the single key `start` with the given value |
| `JenkinsMcpServer.GetAllJobsSends` | jenkins_mcp_server.py:47-49 | `getAllJobs` sends one GET of `<base>/api/json` with no query and no body, and returns the outcome |
| `JenkinsMcpServer.GetJobSends` | jenkins_mcp_server.py:53-55 | `getJob` sends one GET of `<base>/job/<full_path>/api/json` with no query and no body |
| `JenkinsMcpServer.GetBuildDefaultCall` | jenkins_mcp_server.py:59-65 | `getBuild(full_path)` with the default `build_number = None` requests the `lastBuild` endpoint |
| `JenkinsMcpServer.GetBuildSends` | jenkins_mcp_server.py:59-65 | `getBuild` sends one GET of the build endpoint (the number, or `lastBuild`) with no query and no body |
| `JenkinsMcpServer.TriggerBuild` | jenkins_mcp_server.py:69-72 | on success the result is exactly `"Build triggered for job: "` followed by the path |
| `JenkinsMcpServer.TriggerBuildSends` | jenkins_mcp_server.py:69-72 | `triggerBuild` sends one POST of `<base>/job/<full_path>/build` with no query and no body; it succeeds with the fixed message iff the exchange succeeds, and otherwise raises the exchange's error |
| `JenkinsMcpServer.TriggerBuildIgnoresBody` | jenkins_mcp_server.py:71-72 | two exchanges that both succeed give the same result, whatever JSON they decode to |
| `JenkinsMcpServer.GetBuildLogAsWritten` | jenkins_mcp_server.py:84-85 | as written, `getBuildLog` always fails with an unexpected-keyword error for `params` |
| `JenkinsMcpServer.GetBuildLogSends` | jenkins_mcp_server.py:76-85 | the intended `getBuildLog` sends one GET of the progressive-log endpoint with exactly the query `{"start": start}` and no body |
| `JenkinsMcpServer.GetBuildLogDefaultCall` | jenkins_mcp_server.py:76-85 | the intended `getBuildLog(full_path)` with the defaults `build_number = None` and `start = 0` requests the `lastBuild` log with exactly the query `{"start": 0}` |
| `JenkinsMcpServer.GetBuildLogDiscrepancy` | jenkins_mcp_server.py:84-85 | with good credentials and an exchange that succeeds, the as-written log tool fails and the intended one succeeds |
| `JenkinsMcpServer.ToolsFailFast` | jenkins_mcp_server.py:32-85 | when resolution fails, `getAllJobs`, `getJob`, `getBuild`, `triggerBuild` and the intended `getBuildLog` fail with the resolution error whatever the exchange would do; the as-written `getBuildLog` fails with `TypeError` first |
| `JenkinsMcpServer.TransportMode` | jenkins_mcp_server.py:8 | the mode read from `MCP_TRANSPORT` at start-up, `"stdio"` when unset; specified by `TransportModeDefault` |
| `JenkinsMcpServer.Lookup` | jenkins_mcp_server.py:14-21 | a subscript of the environment or the headers: the value when the key is present, `KeyError` naming the place and key otherwise; specified by `ResolveSucceedsIff` and `ResolveFailureKind` |
| `JenkinsMcpServer.JoinUrl` | jenkins_mcp_server.py:33 | the URL join; specified by `JoinUrlCanonical`, `JoinUrlSeam` and `JoinUrlExtraSlashes` |
| `JenkinsMcpServer.IsGet` | jenkins_mcp_server.py:38 | the test `method.upper() == "GET"`; specified by `IsGetIff` |
| `JenkinsMcpServer.ApiCall` | jenkins_mcp_server.py:28-43 | `jenkins_api_call`; specified by `ApiCallFailsFast` and `ApiCallSends` |
| `JenkinsMcpServer.BuildRef` | jenkins_mcp_server.py:61-64 | the build segment, a number or `lastBuild`; specified by `BuildRefIsOneSegment` and `BuildRefInjective` |
| `JenkinsMcpServer.AllJobsPath` | jenkins_mcp_server.py:49 | the endpoint `api/json`; used by `GetAllJobsSends` |
| `JenkinsMcpServer.JobPath` | jenkins_mcp_server.py:55 | the endpoint `job/<full_path>/api/json`; used by `GetJobSends` |
| `JenkinsMcpServer.BuildPath` | jenkins_mcp_server.py:61-64 | the build endpoint; specified by `BuildPathInjective` and the build-path examples |
| `JenkinsMcpServer.TriggerPath` | jenkins_mcp_server.py:71 | the endpoint `job/<full_path>/build`; used by `TriggerBuildSends` |
| `JenkinsMcpServer.BuildLogPath` | jenkins_mcp_server.py:80-83 | the progressive-log endpoint; specified by `BuildLogPathInjective` and `BuildLogPathDefaultExample` |
| `JenkinsMcpServer.GetAllJobs` | jenkins_mcp_server.py:47-49 | the `getAllJobs` tool; specified by `GetAllJobsSends` and `ToolsFailFast` |
| `JenkinsMcpServer.GetJob` | jenkins_mcp_server.py:53-55 | the `getJob` tool; specified by `GetJobSends` and `ToolsFailFast` |
| `JenkinsMcpServer.GetBuild` | jenkins_mcp_server.py:59-65 | the `getBuild` tool with its default `build_number = None`; specified by `GetBuildSends`, `GetBuildDefaultCall` and `ToolsFailFast` |
| `JenkinsMcpServer.GetBuildLog` | jenkins_mcp_server.py:76-85 | the intended `getBuildLog` tool, the corrected member of the finding below; specified by `GetBuildLogSends`, `GetBuildLogDefaultCall` and `ToolsFailFast` |

## Left out

- The HTTP exchange is not modelled. This covers `httpx.AsyncClient`, `client.request`, `raise_for_status` and `response.json()`. It is library I/O, so it is the opaque `send` parameter, and which statuses count as errors is up to `send`.
- `verify=False` is not modelled. It is a TLS setting of the client, with no logic in this file.
- `async`/`await` and concurrency between tool calls are not modelled. Every model function is pure, so calls cannot share state.
- The MCP framework is not modelled. This covers `FastMCP`, `@mcp.tool()` registration with docstrings as descriptions, and `mcp.run`.
- The framework's current-request lookup is replaced by an explicit header map. That lookup runs even in stdio mode, so its own failure outside a request is not modelled.
- Reading the environment at import time is not modelled. The mode and the environment are parameters, and `TransportMode` gives the mode's default.
- Header names are looked up as exact map keys. The framework's case-insensitive header matching is not modelled.
- Text.Upper: ASCII only and length-preserving. Python's `str.upper()` can lengthen a string ('ß' becomes "SS"). No such mapping can yield "GET", so `IsGetIff` states the GET test of line 38 as Python evaluates it.
- Text.UpperChar: only the ASCII letters are case-mapped. Python's full Unicode case mapping is not modelled. It cannot turn any other method string into `"GET"` except through the ASCII letters.
- URL percent-encoding of `full_path` is not modelled. The server does none itself, and any encoding happens inside the HTTP client.
- The endpoint models take `build_number` as an optional integer and `full_path` as a string. Python's dynamic typing of these arguments (a `bool` passed as a number, say) is not modelled.
- The trigger POST also decodes its response with `response.json()` (line 43). A successful answer that is not JSON, an empty body included, makes `triggerBuild` raise although the build request already went out. In the model this is the exchange's `DecodeError`, which `TriggerBuildSends` turns into the tool's error.
- JSON floating-point numbers are modelled as exact reals (`JNum`), not as binary64 values. No proved property depends on them, because the exchange is opaque.
- Once corrected, the log tool would call `response.json()` on Jenkins' plain-text progressive log. Whether that decodes is a matter of the exchange, and appears as its `DecodeError`.

## Findings

| source | as written | input that shows it | evidently intended | confidence | as-written member | corrected member |
|---|---|---|---|---|---|---|
| jenkins_mcp_server.py:84-85 | `getBuildLog` calls `jenkins_api_call(endpoint, params=params)`, but the callee declares only `api_path`, `method` and `data` (lines 28-29). The call raises `TypeError` before any context is resolved or any request is sent, so `start` never reaches Jenkins | `getBuildLog(full_path="x", start=100)` with valid credentials and a Jenkins that would answer | pass the dictionary as `data` with GET, so that `start` is sent as a query parameter | high; not executed | `JenkinsMcpServer.GetBuildLogAsWritten` | `JenkinsMcpServer.GetBuildLog` |

`GetBuildLogDiscrepancy` exhibits the difference between the two halves. `GetBuildLogSends` proves the intended request: the progressive-log endpoint with the query `{"start": start}` and no body.
