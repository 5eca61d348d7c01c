/** The pure parts of GitHubToolsService.getAllPullRequests: normalising the
    `state` filter, projecting upstream pull-request records to six fields,
    and shaping failures into one exception message.

    The HTTP exchange itself is not modelled: the caller supplies `fetch`,
    the upstream's outcome for a query with a given state. */
module GitHubTools {
  import opened JavaLang
  import opened Jackson

  /** The state used when none, or a blank one, is given. */
  const DefaultState: string := "open"

  /** Every failure is rethrown with this prefix on the original message. */
  const FailurePrefix: string := "Failed to retrieve pull requests: "

  /** `user` of an upstream record; an absent field is None. */
  datatype User = User(login: Option<string>)

  /** One upstream pull-request object, reduced to the fields read. */
  datatype PullRecord = PullRecord(
    number: Option<int>,
    title: Option<string>,
    state: Option<string>,
    user: Option<User>,
    createdAt: Option<string>,
    htmlUrl: Option<string>)

  /** The projected entry handed back to the tool caller. */
  datatype PrSummary = PrSummary(
    number: Int32,
    title: string,
    state: string,
    author: string,
    createdAt: string,
    url: string)

  /** An HTTP status in the 4xx or 5xx range: what HttpStatusCode.isError accepts. */
  type ErrorCode = c: int | 400 <= c <= 599 witness 500

  /** The body of an error response. It is never empty: on an empty body
      the status handler produces no exception, and the client goes on to
      read the response as an ordinary list, so such a response reaches
      this model as one of the other outcomes. */
  type ErrorBody = b: string | |b| > 0 witness "?"

  /** A status code as the HTTP library holds it: the number, and the enum
      constant name when the number is a known status. */
  datatype StatusCode = StatusCode(code: ErrorCode, name: Option<string>)

  /** The upstream's answer to one query. `Fetched(None)` is the blocking
      read producing null. `TimedOut` carries the message of the exception
      raised when nothing arrived within the 30 s bound. */
  datatype Upstream =
    | Fetched(records: Option<seq<PullRecord>>)
    | HttpError(status: StatusCode, body: ErrorBody)
    | TimedOut(detail: string)

  // ---------------------------------------------------------------------
  // State normalisation

  /** Null or blank gives "open"; anything else is lower-cased. */
  function NormaliseState(state: Option<string>): (r: string)
    ensures !IsBlank(r)
    ensures ToLowerCase(r) == r
    ensures state.None? || IsBlank(state.value) ==> r == DefaultState
    ensures state.Some? && !IsBlank(state.value) ==> ToLowerCase(r) == ToLowerCase(state.value)
    ensures state.Some? && !IsBlank(state.value) ==> |r| == |state.value|
  {
    if state.None? || IsBlank(state.value) then
      assert !IsWhitespace(DefaultState[0]);
      assert ToLowerCase(DefaultState) == DefaultState;
      DefaultState
    else
      ToLowerCasePreservesBlank(state.value);
      ToLowerCaseIdempotent(state.value);
      ToLowerCase(state.value)
  }

  /** A normalised state is never blank, and normalising it again changes
      nothing. */
  lemma NormaliseIdempotent(state: Option<string>)
    ensures !IsBlank(NormaliseState(state))
    ensures NormaliseState(Some(NormaliseState(state))) == NormaliseState(state)
  {
  }

  /** Omitting the state, or giving a blank one, is the same as asking for
      "open"; a state is matched without regard to ASCII case. */
  lemma DefaultStateIsOpen(blank: string, s: string)
    requires IsBlank(blank)
    ensures NormaliseState(None) == NormaliseState(Some("open")) == "open"
    ensures NormaliseState(Some(blank)) == "open"
    ensures NormaliseState(Some(ToLowerCase(s))) == NormaliseState(Some(s))
  {
  }

  // ---------------------------------------------------------------------
  // Projection

  /** Every field the projection dereferences is present. */
  predicate Complete(r: PullRecord) {
    && r.number.Some? && r.title.Some? && r.state.Some?
    && r.user.Some? && r.user.value.login.Some?
    && r.createdAt.Some? && r.htmlUrl.Some?
  }

  /** The entry for a complete record: number, title and state as they are,
      author from `user.login`, created_at, and url from `html_url`. The
      number is read as a Java int. */
  function Summary(r: PullRecord): PrSummary
    requires Complete(r)
  {
    PrSummary(Wrap32(r.number.value), r.title.value, r.state.value,
      r.user.value.login.value, r.createdAt.value, r.htmlUrl.value)
  }

  /** The map handed back for one entry, keyed as the tool's callers read it. */
  function SummaryJson(p: PrSummary): (j: map<string, Json>)
    ensures j.Keys == {"number", "title", "state", "author", "created_at", "url"}
  {
    map["number" := JInt(p.number), "title" := JString(p.title), "state" := JString(p.state),
        "author" := JString(p.author), "created_at" := JString(p.createdAt), "url" := JString(p.url)]
  }

  /** A caller's reading of such a map: the six fields with their types,
      or None. */
  function ReadSummary(j: map<string, Json>): Option<PrSummary> {
    if && "number" in j && j["number"].JInt? && IntMin <= j["number"].n <= IntMax
       && "title" in j && j["title"].JString? && "state" in j && j["state"].JString?
       && "author" in j && j["author"].JString? && "created_at" in j && j["created_at"].JString?
       && "url" in j && j["url"].JString?
    then Some(PrSummary(j["number"].n, j["title"].s, j["state"].s, j["author"].s, j["created_at"].s, j["url"].s))
    else None
  }

  /** No field is lost or renamed: the entry is read back exactly from its map. */
  lemma SummaryJsonRoundTrip(p: PrSummary)
    ensures ReadSummary(SummaryJson(p)) == Some(p)
  {
  }

  /** The message of the NullPointerException raised by calling `call` on
      the null that a lookup of an absent JSON field returns. */
  function NullFieldMessage(call: string): string {
    NullPointerMessage(JsonNodeClass + "." + call, "the return value of \"" + JsonNodeClass + ".get(String)\"")
  }

  const JsonNodeClass: string := "com.fasterxml.jackson.databind.JsonNode"

  /** Project one record, failing on the first absent field in the order the
      source reads them. */
  function Project(r: PullRecord): (p: Result<PrSummary, string>)
    ensures p.Ok? <==> Complete(r)
    ensures p.Ok? ==> p.value == Summary(r)
  {
    if r.number.None? then Err(NullFieldMessage("asInt()"))
    else if r.title.None? || r.state.None? then Err(NullFieldMessage("asText()"))
    else if r.user.None? then Err(NullFieldMessage("get(String)"))
    else if r.user.value.login.None? || r.createdAt.None? || r.htmlUrl.None? then Err(NullFieldMessage("asText()"))
    else Ok(Summary(r))
  }

  /** Project every record in order. The first record with an absent field
      aborts the whole projection: no partial list is returned. */
  function ProjectAll(records: seq<PullRecord>): (p: Result<seq<PrSummary>, string>)
    ensures p.Ok? <==> forall i :: 0 <= i < |records| ==> Complete(records[i])
    ensures p.Ok? ==> |p.value| == |records|
    ensures p.Ok? ==> forall i :: 0 <= i < |records| ==> p.value[i] == Summary(records[i])
    ensures p.Err? ==> exists i :: (0 <= i < |records| && Project(records[i]) == Err(p.error)
      && forall j :: 0 <= j < i ==> Complete(records[j]))
  {
    if |records| == 0 then Ok([])
    else
      match Project(records[0])
      case Err(m) => Err(m)
      case Ok(first) =>
        match ProjectAll(records[1..])
        case Err(m) =>
          assert exists i :: (0 <= i < |records| && Project(records[i]) == Err(m)
            && forall j :: 0 <= j < i ==> Complete(records[j])) by {
            // the failing record found in the tail sits one place further on here
            var k :| 0 <= k < |records[1..]| && Project(records[1..][k]) == Err(m)
              && forall j :: 0 <= j < k ==> Complete(records[1..][j]);
            assert Project(records[k + 1]) == Err(m);
          }
          Err(m)
        case Ok(rest) =>
          assert forall i :: 1 <= i < |records| ==> records[i] == records[1..][i - 1];
          Ok([first] + rest)
  }

  // ---------------------------------------------------------------------
  // Error shaping and the whole handler

  /** The status as rendered by `toString`: the number, followed by the
      constant name when there is one. */
  function StatusText(s: StatusCode): string {
    NatToDecimal(s.code) + (if s.name.Some? then " " + s.name.value else "")
  }

  /** The message raised for an error status. */
  function ApiErrorMessage(s: StatusCode, body: string): (m: string)
    ensures StartsWith(m, "GitHub API error " + NatToDecimal(s.code))
    ensures EndsWith(m, ": " + body)
    ensures s.name.None? ==> m == "GitHub API error " + NatToDecimal(s.code) + ": " + body
  {
    var m := "GitHub API error " + StatusText(s) + ": " + body;
    assert m == "GitHub API error " + NatToDecimal(s.code) + (if s.name.Some? then " " + s.name.value else "") + ": " + body;
    assert m[..|"GitHub API error " + NatToDecimal(s.code)|] == "GitHub API error " + NatToDecimal(s.code);
    assert m[|m| - |": " + body|..] == ": " + body;
    m
  }

  /** getAllPullRequests for a given upstream outcome: the projected list,
      or the message of the exception it throws. */
  function PullRequests(state: Option<string>, fetch: string -> Upstream): (r: Result<seq<PrSummary>, string>)
    ensures r.Err? ==> StartsWith(r.error, FailurePrefix)
    ensures fetch(NormaliseState(state)).HttpError? ==> r.Err?
    ensures fetch(NormaliseState(state)).TimedOut? ==> r.Err?
    ensures fetch(NormaliseState(state)).Fetched? && fetch(NormaliseState(state)).records.Some? ==>
      var records := fetch(NormaliseState(state)).records.value;
      && (r.Ok? <==> forall i :: 0 <= i < |records| ==> Complete(records[i]))
      && (r.Ok? ==> |r.value| == |records| && forall i :: 0 <= i < |records| ==> r.value[i] == Summary(records[i]))
      && (ProjectAll(records).Err? ==> r == Err(FailurePrefix + ProjectAll(records).error))
  {
    match fetch(NormaliseState(state))
    case HttpError(status, body) => Err(FailurePrefix + ApiErrorMessage(status, body))
    case TimedOut(detail) => Err(FailurePrefix + detail)
    case Fetched(None) => Ok([])
    case Fetched(Some(records)) =>
      if |records| == 0 then Ok([])
      else
        match ProjectAll(records)
        case Ok(list) => Ok(list)
        case Err(m) => Err(FailurePrefix + m)
  }

  /** The remaining outcomes: an empty or null list is an empty success,
      and a timeout fails with its own message. */
  lemma PullRequestsOutcomes(state: Option<string>, fetch: string -> Upstream)
    ensures fetch(NormaliseState(state)) == Fetched(None) ==> PullRequests(state, fetch) == Ok([])
    ensures fetch(NormaliseState(state)) == Fetched(Some([])) ==> PullRequests(state, fetch) == Ok([])
    ensures fetch(NormaliseState(state)).TimedOut? ==>
      PullRequests(state, fetch) == Err(FailurePrefix + fetch(NormaliseState(state)).detail)
  {
    match fetch(NormaliseState(state))
    case TimedOut(detail) =>
      assert PullRequests(state, fetch) == Err(FailurePrefix + detail);
    case _ =>
  }

  /** An error status with a body fails with one message naming the status
      and carrying the body. */
  lemma ErrorStatusReported(state: Option<string>, fetch: string -> Upstream)
    requires fetch(NormaliseState(state)).HttpError?
    ensures
      var e := fetch(NormaliseState(state));
      PullRequests(state, fetch) == Err("Failed to retrieve pull requests: GitHub API error " + StatusText(e.status) + ": " + e.body)
  {
    var e := fetch(NormaliseState(state));
    assert PullRequests(state, fetch) == Err(FailurePrefix + ApiErrorMessage(e.status, e.body));
    assert FailurePrefix + ApiErrorMessage(e.status, e.body)
      == "Failed to retrieve pull requests: GitHub API error " + StatusText(e.status) + ": " + e.body by {
      var head := "GitHub API error " + StatusText(e.status);
      assert ApiErrorMessage(e.status, e.body) == head + ": " + e.body;
    }
  }

  /** A state omitted or blank gives the same answer as "open". */
  lemma StateDefaultSameAnswer(fetch: string -> Upstream, blank: string)
    requires IsBlank(blank)
    ensures PullRequests(None, fetch) == PullRequests(Some("open"), fetch)
    ensures PullRequests(Some(blank), fetch) == PullRequests(Some("open"), fetch)
  {
    DefaultStateIsOpen(blank, "open");
  }

  /** The state is matched without regard to ASCII case: "OPEN" asks for the same list as "open". */
  lemma StateCaseIgnored(fetch: string -> Upstream)
    ensures PullRequests(Some("OPEN"), fetch) == PullRequests(Some("open"), fetch)
  {
    DefaultStateIsOpen("", "OPEN");
    assert ToLowerCase("OPEN") == "open";
  }
}
