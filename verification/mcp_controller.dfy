/** McpSseController: the heartbeat frame of the event stream, the static
    tool listing, the server descriptor, and `callTool`, which routes a
    named invocation to its handler and turns whatever the handler throws
    into a `{status, result | error}` envelope. */
module McpController {
  import opened JavaLang
  import opened Jackson
  import GitHubTools

  /** The one tool name callTool routes. */
  const PullRequestsTool: string := "getAllPullRequests"

  // ---------------------------------------------------------------------
  // The event stream's frame

  const HeartbeatHead: string := "event: heartbeat\ndata: {\"timestamp\": \""
  const HeartbeatTail: string := "\"}\n\n"

  /** The text of each element the stream emits; `timestamp` is the
      clock's rendering of the emission time. */
  function HeartbeatFrame(timestamp: string): (f: string)
    ensures StartsWith(f, "event: heartbeat\n")
    ensures EndsWith(f, "\n\n")
    ensures |f| == |timestamp| + 42
  {
    var f := HeartbeatHead + timestamp + HeartbeatTail;
    assert f[..17] == HeartbeatHead[..17];
    assert f[|f| - 2..] == HeartbeatTail[2..];
    f
  }

  /** Read the timestamp back out of a frame. */
  function ParseHeartbeat(f: string): Option<string> {
    if |f| >= |HeartbeatHead| + |HeartbeatTail| && StartsWith(f, HeartbeatHead) && EndsWith(f, HeartbeatTail)
    then Some(f[|HeartbeatHead|..|f| - |HeartbeatTail|])
    else None
  }

  /** Every element carries its timestamp recoverably, so distinct
      timestamps give distinct elements. */
  lemma HeartbeatRoundTrip(timestamp: string)
    ensures ParseHeartbeat(HeartbeatFrame(timestamp)) == Some(timestamp)
  {
  }

  /** With a timestamp free of line breaks, the element's text contains a
      blank line (two consecutive newlines) only at its very end. */
  lemma HeartbeatBlankLineOnlyAtEnd(timestamp: string)
    requires forall k :: 0 <= k < |timestamp| ==> timestamp[k] != '\n'
    ensures forall i :: 0 <= i < |HeartbeatFrame(timestamp)| - 1 ==>
      (HeartbeatFrame(timestamp)[i] == '\n' && HeartbeatFrame(timestamp)[i + 1] == '\n') ==> i == |HeartbeatFrame(timestamp)| - 2
  {
  }

  // ---------------------------------------------------------------------
  // Tool listing and server descriptor

  /** One declared parameter of a tool. */
  datatype ParamSpec = ParamSpec(kind: string, description: string, required: bool, default: string)

  /** A listed tool: its parameters are keyed by name. */
  datatype ToolDescriptor = ToolDescriptor(name: string, description: string, parameters: map<string, ParamSpec>)

  /** The body of `/mcp/tools/list`. */
  datatype ToolListing = ToolListing(tools: seq<ToolDescriptor>, count: int)

  const PullRequestsDescription: string :=
    "Retrieves all pull requests from the GitHub repository. "
    + "Returns PR number, title, state, author, and creation date for each pull request. "
    + "State parameter can be: 'open', 'closed', or 'all'. Defaults to 'open' if not specified."

  const StateParamDescription: string := "Filter pull requests by state: 'open', 'closed', or 'all'"

  function ToolNames(tools: seq<ToolDescriptor>): (names: seq<string>)
    ensures |names| == |tools|
    ensures forall i :: 0 <= i < |tools| ==> names[i] == tools[i].name
  {
    seq(|tools|, i requires 0 <= i < |tools| => tools[i].name)
  }

  /** listTools: the single pull-request tool with its optional `state`
      parameter, and a count that agrees with the list. */
  function ListTools(): (l: ToolListing)
    ensures l.count == |l.tools| == 1
    ensures ToolNames(l.tools) == [PullRequestsTool]
    ensures "state" in l.tools[0].parameters
    ensures !l.tools[0].parameters["state"].required
    ensures l.tools[0].parameters["state"].default == GitHubTools.DefaultState
  {
    var tools := [ToolDescriptor(PullRequestsTool, PullRequestsDescription,
      map["state" := ParamSpec("string", StateParamDescription, false, "open")])];
    ToolListing(tools, |tools|)
  }

  /** The body of `/mcp/info`. */
  datatype ServerInfo = ServerInfo(
    name: string,
    version: string,
    protocol: string,
    endpoint: string,
    toolCount: int,
    tools: seq<string>,
    status: string)

  /** getServerInfo: a fixed descriptor whose tool count and names agree
      with the listing. */
  function GetServerInfo(): (info: ServerInfo)
    ensures info.toolCount == ListTools().count
    ensures info.tools == ToolNames(ListTools().tools)
    ensures info.endpoint == "/mcp/sse"
  {
    ServerInfo("spring_boot_ai_mcp_server", "1.0.0", "SSE", "/mcp/sse", 1, [PullRequestsTool], "running")
  }

  // ---------------------------------------------------------------------
  // Tool calls

  /** The envelope callTool returns. */
  datatype Envelope = Success(result: seq<GitHubTools.PrSummary>) | Failure(error: string)

  /** What callTool does with a request: returns an envelope, or lets the
      ClassCastException of its first two casts escape to the framework. */
  datatype CallResponse = Replied(envelope: Envelope) | CastEscaped

  /** The message of the ClassCastException from casting `v` to String. */
  function StringCastMessage(v: Json): string {
    var from := JavaClassOf(v);
    "class " + from + " cannot be cast to class java.lang.String (" + from
      + " and java.lang.String are in module java.base of loader 'bootstrap')"
  }

  /** The message of the NullPointerException from reading a default out of
      a null `arguments` map. */
  const NullArgumentsMessage: string :=
    NullPointerMessage("java.util.Map.getOrDefault(Object, Object)", "\"arguments\"")

  /** Map.getOrDefault: the default only when the key is absent; a key
      bound to null yields null. */
  function GetOrDefault(m: map<string, Json>, key: string, default: Json): Json {
    if key in m then m[key] else default
  }

  /** `(String) v` succeeds on null and strings. */
  predicate CastsToString(v: Json) {
    v.JNull? || v.JString?
  }

  /** `(Map) v` succeeds on null and objects. */
  predicate CastsToMap(v: Json) {
    v.JNull? || v.JObject?
  }

  /** The tool name, or None for null. */
  function NameOf(body: map<string, Json>): Option<string>
    requires CastsToString(GetOrDefault(body, "name", JNull))
  {
    match GetOrDefault(body, "name", JNull)
    case JString(s) => Some(s)
    case _ => None
  }

  /** The `arguments` map once cast: None for an explicit null, an empty
      map when the key is absent. */
  function ArgumentsOf(body: map<string, Json>): Option<map<string, Json>>
    requires CastsToMap(GetOrDefault(body, "arguments", JObject(map[])))
  {
    match GetOrDefault(body, "arguments", JObject(map[]))
    case JObject(fields) => Some(fields)
    case _ => None
  }

  /** The `state` argument once cast: "open" when the key is absent, None
      for an explicit null. */
  function StateOf(arguments: map<string, Json>): Option<string>
    requires CastsToString(GetOrDefault(arguments, "state", JString("open")))
  {
    match GetOrDefault(arguments, "state", JString("open"))
    case JString(s) => Some(s)
    case _ => None
  }

  /** A request for the registered tool whose every cast succeeds: `name`
      is the tool's name, `arguments` is absent or an object, and its
      `state` is absent, null or a string. Other keys play no part. */
  predicate CallsPullRequests(body: map<string, Json>) {
    && CastsToString(GetOrDefault(body, "name", JNull))
    && NameOf(body) == Some(PullRequestsTool)
    && GetOrDefault(body, "arguments", JObject(map[])).JObject?
    && CastsToString(GetOrDefault(GetOrDefault(body, "arguments", JObject(map[])).fields, "state", JString("open")))
  }

  /** The routing and argument handling inside the try block. */
  function Dispatch(name: Option<string>, arguments: Option<map<string, Json>>, fetch: string -> GitHubTools.Upstream): (e: Envelope)
    ensures e.Success? ==> name == Some(PullRequestsTool) && arguments.Some?
    ensures name != Some(PullRequestsTool) ==> e == Failure("Unknown tool: " + NullableText(name))
    ensures name == Some(PullRequestsTool) && arguments.None? ==> e == Failure(NullArgumentsMessage)
    ensures (name == Some(PullRequestsTool) && arguments.Some?
        && !CastsToString(GetOrDefault(arguments.value, "state", JString("open")))) ==>
      e == Failure(StringCastMessage(GetOrDefault(arguments.value, "state", JString("open"))))
    ensures e.Failure? && name == Some(PullRequestsTool) && arguments.Some? ==> !StartsWith(e.error, "Unknown tool: ")
    ensures (name == Some(PullRequestsTool) && arguments.Some?
        && CastsToString(GetOrDefault(arguments.value, "state", JString("open")))) ==>
      var outcome := GitHubTools.PullRequests(StateOf(arguments.value), fetch);
      && (e.Success? <==> outcome.Ok?)
      && (e.Success? ==> e.result == outcome.value)
      && (e.Failure? ==> e.error == outcome.error)
  {
    if name == Some(PullRequestsTool) then
      if arguments.None? then
        assert NullArgumentsMessage[0] == 'C';
        Failure(NullArgumentsMessage)
      else
        var v := GetOrDefault(arguments.value, "state", JString("open"));
        if CastsToString(v) then HandlerEnvelope(StateOf(arguments.value), fetch)
        else
          assert StringCastMessage(v)[0] == 'c';
          Failure(StringCastMessage(v))
    else Failure("Unknown tool: " + NullableText(name))
  }

  /** The handler's list as a success, or its exception's message as an error. */
  function HandlerEnvelope(state: Option<string>, fetch: string -> GitHubTools.Upstream): (e: Envelope)
    ensures e.Success? <==> GitHubTools.PullRequests(state, fetch).Ok?
    ensures e.Success? ==> e.result == GitHubTools.PullRequests(state, fetch).value
    ensures e.Failure? ==> e.error == GitHubTools.PullRequests(state, fetch).error
    ensures e.Failure? ==> StartsWith(e.error, GitHubTools.FailurePrefix) && !StartsWith(e.error, "Unknown tool: ")
  {
    match GitHubTools.PullRequests(state, fetch)
    case Ok(list) => Success(list)
    case Err(m) =>
      assert m[0] == GitHubTools.FailurePrefix[0];
      Failure(m)
  }

  /** callTool. The casts of `name` and `arguments` run before the try
      block, so their failure escapes; every outcome inside the try block is
      an envelope. A missing `arguments` entry is an empty map. */
  function CallTool(body: map<string, Json>, fetch: string -> GitHubTools.Upstream): (r: CallResponse)
    ensures r.CastEscaped? <==>
      !CastsToString(GetOrDefault(body, "name", JNull)) || !CastsToMap(GetOrDefault(body, "arguments", JObject(map[])))
    ensures r.Replied? ==> r.envelope == Dispatch(NameOf(body), ArgumentsOf(body), fetch)
  {
    if !CastsToString(GetOrDefault(body, "name", JNull)) || !CastsToMap(GetOrDefault(body, "arguments", JObject(map[])))
    then CastEscaped
    else Replied(Dispatch(NameOf(body), ArgumentsOf(body), fetch))
  }

  // ---------------------------------------------------------------------
  // The envelope on the wire

  /** The response map callTool builds. Its status is "success" or "error";
      it carries `result` exactly when the status is "success" and `error`
      exactly when it is "error", never both; a result lists one six-field
      object per projected entry, in order. */
  function EnvelopeJson(e: Envelope): (j: map<string, Json>)
    ensures "status" in j
    ensures j["status"] == JString("success") || j["status"] == JString("error")
    ensures j.Keys == {"status", "result"} <==> j["status"] == JString("success")
    ensures j.Keys == {"status", "error"} <==> j["status"] == JString("error")
    ensures j["status"] == JString("success") <==> e.Success?
    ensures e.Success? ==> j["result"].JArray? && |j["result"].items| == |e.result|
    ensures e.Success? ==> forall i :: 0 <= i < |e.result| ==>
      j["result"].items[i] == JObject(GitHubTools.SummaryJson(e.result[i]))
    ensures e.Failure? ==> j["error"] == JString(e.error)
  {
    match e
    case Success(list) =>
      map["status" := JString("success"),
          "result" := JArray(seq(|list|, i requires 0 <= i < |list| => JObject(GitHubTools.SummaryJson(list[i]))))]
    case Failure(m) => map["status" := JString("error"), "error" := JString(m)]
  }

  // ---------------------------------------------------------------------
  // Properties of callTool

  /** A request whose name and arguments cast never escapes: it always gets
      an envelope. */
  lemma WellTypedRequestIsAnswered(body: map<string, Json>, fetch: string -> GitHubTools.Upstream)
    requires CastsToString(GetOrDefault(body, "name", JNull))
    requires CastsToMap(GetOrDefault(body, "arguments", JObject(map[])))
    ensures CallTool(body, fetch).Replied?
  {
  }

  /** Any name but the registered one, null included, is reported as an
      unknown tool naming it. */
  lemma UnknownToolReported(body: map<string, Json>, fetch: string -> GitHubTools.Upstream)
    requires CastsToString(GetOrDefault(body, "name", JNull))
    requires CastsToMap(GetOrDefault(body, "arguments", JObject(map[])))
    requires NameOf(body) != Some(PullRequestsTool)
    ensures CallTool(body, fetch) == Replied(Failure("Unknown tool: " + NullableText(NameOf(body))))
    ensures "name" !in body ==> CallTool(body, fetch) == Replied(Failure("Unknown tool: null"))
  {
    assert "Unknown tool: " + NullableText(None) == "Unknown tool: null";
  }

  /** A name is routed to a handler exactly when the listing names it. */
  lemma RoutingMatchesListing(name: string, arguments: map<string, Json>, fetch: string -> GitHubTools.Upstream)
    ensures (Dispatch(Some(name), Some(arguments), fetch) != Failure("Unknown tool: " + name))
        <== name in ToolNames(ListTools().tools)
    ensures name !in ToolNames(ListTools().tools) ==>
      Dispatch(Some(name), Some(arguments), fetch) == Failure("Unknown tool: " + name)
  {
    if name == PullRequestsTool {
      var d := Dispatch(Some(name), Some(arguments), fetch);
      if d.Failure? {
        assert !StartsWith(d.error, "Unknown tool: ");
      }
    }
  }

  /** The pull-request tool with no `arguments`, with arguments lacking
      `state`, with a null `state`, or with `state` "open" all answer alike. */
  lemma StateDefaultsToOpen(fetch: string -> GitHubTools.Upstream)
    ensures
      var byName := map["name" := JString(PullRequestsTool)];
      var open := CallTool(byName["arguments" := JObject(map["state" := JString("open")])], fetch);
      && CallTool(byName, fetch) == open
      && CallTool(byName["arguments" := JObject(map[])], fetch) == open
      && CallTool(byName["arguments" := JObject(map["state" := JNull])], fetch) == open
  {
    GitHubTools.DefaultStateIsOpen("", "open");
  }

  /** For any well-typed request to the registered tool, whatever other
      keys it carries, the envelope is a success holding exactly the
      handler's list when the handler returns one, and an error holding
      exactly its message when it throws. */
  lemma EnvelopeCarriesHandlerOutcome(body: map<string, Json>, fetch: string -> GitHubTools.Upstream)
    requires CallsPullRequests(body)
    ensures
      var state := StateOf(ArgumentsOf(body).value);
      && (GitHubTools.PullRequests(state, fetch).Ok? ==>
            CallTool(body, fetch) == Replied(Success(GitHubTools.PullRequests(state, fetch).value)))
      && (GitHubTools.PullRequests(state, fetch).Err? ==>
            CallTool(body, fetch) == Replied(Failure(GitHubTools.PullRequests(state, fetch).error)))
  {
  }

  /** For any well-typed request to the registered tool, an upstream error
      status for the normalised state reaches the caller as an error
      envelope naming the status and carrying the body, and an upstream
      null or empty list reaches it as a success with an empty result. */
  lemma UpstreamOutcomesReachCaller(body: map<string, Json>, fetch: string -> GitHubTools.Upstream)
    requires CallsPullRequests(body)
    ensures
      var upstream := fetch(GitHubTools.NormaliseState(StateOf(ArgumentsOf(body).value)));
      && (upstream.HttpError? ==>
            CallTool(body, fetch) == Replied(Failure(GitHubTools.FailurePrefix
              + GitHubTools.ApiErrorMessage(upstream.status, upstream.body))))
      && (upstream == GitHubTools.Fetched(None) ==> CallTool(body, fetch) == Replied(Success([])))
      && (upstream == GitHubTools.Fetched(Some([])) ==> CallTool(body, fetch) == Replied(Success([])))
  {
  }
}
