# Token-gated MCP tool gateway: a Dafny model

This project models the decision logic of a small Spring Boot server that
exposes tools over the Model Context Protocol. Callers reach those tools
through a bearer-token gate. The model covers these parts:

- **JwtUtility** (module `Jwt`). Issues JWTs carrying `sub`, `iss`, `iat`
  and `exp`. These are the registered claims of sections 4.1.2, 4.1.1,
  4.1.6 and 4.1.4 of RFC 7519. Validation checks the HS256 signature (RFC
  7518 section 3.2) and then expiry. The sliding-refresh test
  `shouldRefresh` is modelled too.
- **JwtSlidingExpirationFilter** (module `AuthFilter`). Decides each
  request from its dispatcher type and its `Authorization` header. The
  filter continues the chain, attaches an identity and continues, or ends
  the request with 403.
- **SecurityConfig** (module `Authorization`). An ordered, first-match rule
  table over dispatcher type and path. Module `Authorization` also composes
  the table with the filter that runs before it.
- **McpSseController** (module `McpController`). Covers the heartbeat frame
  of the event stream and the static tool listing. It also covers the
  server descriptor. Last comes `callTool`, which routes a tool name to its
  handler and wraps the handler's result or exception in a
  `{status, result | error}` envelope.
- **GitHubToolsService** (module `GitHubTools`). Normalises the `state`
  filter and projects upstream pull-request records to six fields. It also
  shapes every failure into one exception message.
- **AuthTokenGenerationController** (module `TokenController`). Exchanges
  the API key for a token issued to the configured client subject.
- **TestToolService** (module `TestTools`). The `echo` and `add` tools.
- Module `JavaLang` holds the Java behaviour these parts depend on:
  - null as `Option`, and exceptions as `Result`;
  - how string concatenation renders null;
  - `Character.isWhitespace`, `isBlank` and `hasText`;
  - lower-casing and prefix tests;
  - the decimal rendering of a non-negative number;
  - 32-bit `int` wrap-around.
- Module `Jackson` holds JSON values as they are bound to Java objects,
  and the Java class each binding produces.

Every operation is a pure function. The clock, the signing key, the
token's compact text form and the upstream HTTP outcome are parameters.
Time is a count of milliseconds. A signature is abstract: a signed token
records the key that signed it, and it verifies under a key exactly when
the two keys are equal. Turning a token into text and back is the job of
a caller-supplied `Codec`. The lemmas that need a round trip assume the
codec reads back what it writes (`Jwt.Faithful`).

Three behaviours of the code are easy to misread:

- `shouldRefresh` uses a strict comparison (`isBefore`), so a token is not
  yet due exactly at the window's edge. Claims without `exp` make it throw
  a `NullPointerException`.
- The filter has no exempt paths of its own. It validates any bearer token
  it sees, even one sent to the open token endpoint, and answers 403 when
  validation fails (`Authorization.BadCredentialRejectedEverywhere`).
  Only the path policy knows about open paths.
- The configured token lifetime (`ttl`) is injected but never read. Every
  token lives exactly one hour (`Jwt.TokenIgnoresTtl`).

The token library's builder records a subject or issuer only when it
contains a non-whitespace character. It creates its claim set on the first
such value. `Jwt.IssuedClaims` follows that rule, so a blank subject gives
a token with no `sub` claim. A blank issuer is kept only if the subject
already created the claim set.

## Model

| member | source | states |
|---|---|---|
| Jwt.LifetimeIsOneHour | src/main/java/com/naga/security/JwtUtility.java:38-47 | An issued token's `exp` is its issue time plus 3,600,000 ms, after `iat`, and does not depend on the configured ttl |
| Jwt.TokenIgnoresTtl | src/main/java/com/naga/security/JwtUtility.java:21-22 | The ttl setting has no effect on the issued token |
| Jwt.IssuedClaims | src/main/java/com/naga/security/JwtUtility.java:38-47 | `iat` is the issue time and `exp` one hour later; `sub` is present iff the subject has text, and is then the subject; a present `iss` is the configured issuer, and an issuer with text is always recorded |
| Jwt.GenerateToken | src/main/java/com/naga/security/JwtUtility.java:38-47 | Under a codec that reads back what it writes, the token decodes to the issued claims signed with the utility's key |
| Jwt.Validate | src/main/java/com/naga/security/JwtUtility.java:49-57 | Accepted iff the token decodes, is signed under the validation key and is unexpired, and then yields exactly the token's own claims; `Malformed` iff it does not decode, `BadSignature` iff decodable with another signer, `Expired` iff decodable, correctly signed and expired |
| Jwt.IssuedTokenValidates | src/main/java/com/naga/security/JwtUtility.java:32-57 | Round trip: an issued token validates with the same secret until `exp` inclusive, yielding the issued claims (subject = argument, issuer = configured issuer); after `exp` it is rejected as expired |
| Jwt.ForeignTokenRejected | src/main/java/com/naga/security/JwtUtility.java:49-57 | A token signed under a different secret is rejected for its signature, whatever its claims |
| Jwt.ExpiredTokenRejected | src/main/java/com/naga/security/JwtUtility.java:49-57 | A correctly signed token whose `exp` has passed is rejected as expired |
| Jwt.ShouldRefresh | src/main/java/com/naga/security/JwtUtility.java:59-64 | Throws the null-pointer message iff `exp` is absent; with a non-negative window, a token not yet due is not expired and an expired token is due |
| Jwt.RefreshBoundary | src/main/java/com/naga/security/JwtUtility.java:59-64 | `shouldRefresh` is false exactly at `exp - window` and true one millisecond later (strict comparison) |
| Jwt.RefreshMonotone | src/main/java/com/naga/security/JwtUtility.java:59-64 | Once due for refresh, a claim set stays due as time advances |
| Jwt.FreshTokenDueIff | src/main/java/com/naga/security/JwtUtility.java:38-64 | A fresh token is due for refresh at issuance iff the window exceeds 3600 s |
| Jwt.AcceptedClaimsWithoutExpiryThrow | src/main/java/com/naga/security/JwtUtility.java:49-64 | Claims without `exp` pass validation, and the refresh test then throws |
| AuthFilter.BearerToken | src/main/java/com/naga/filter/JwtSlidingExpirationFilter.java:44-47 | A credential is found iff the header is present and starts with `Bearer `, and the header is exactly `Bearer ` followed by it |
| AuthFilter.DoFilter | src/main/java/com/naga/filter/JwtSlidingExpirationFilter.java:33-69 | ASYNC dispatches pass through; 403 only when a bearer credential was present; an attached identity has the single authority ROLE_USER |
| AuthFilter.BearerRoundTrip | src/main/java/com/naga/filter/JwtSlidingExpirationFilter.java:26-47 | Removing the first seven characters of `Bearer ` + t gives back t |
| AuthFilter.SchemeIsCaseSensitive | src/main/java/com/naga/filter/JwtSlidingExpirationFilter.java:46 | `bearer ...` and a bare `Bearer` carry no credential |
| AuthFilter.NoCredentialPassesThrough | src/main/java/com/naga/filter/JwtSlidingExpirationFilter.java:44-46 | Without a bearer credential the chain continues with no identity |
| AuthFilter.ExactlyOneOutcome | src/main/java/com/naga/filter/JwtSlidingExpirationFilter.java:39-68 | 403 iff a non-async request carries a bearer token that fails validation; an identity iff its token passes; pass-through iff async or no bearer token; only the 403 sets a status and stops the chain |
| AuthFilter.CredentialDecidesByValidation | src/main/java/com/naga/filter/JwtSlidingExpirationFilter.java:47-65 | With a credential, accepted claims give principal = subject and authority ROLE_USER; any rejection gives 403 |
| AuthFilter.IssuedTokenAuthenticates | src/main/java/com/naga/filter/JwtSlidingExpirationFilter.java:47-59 | A token issued for subject s and presented before expiry authenticates s |
| AuthFilter.ExpiredIssuedTokenForbidden | src/main/java/com/naga/filter/JwtSlidingExpirationFilter.java:61-65 | The same token presented after expiry gives 403 |
| Authorization.FirstMatch | src/main/java/com/naga/security/SecurityConfig.java:26-31 | The result is None iff no rule matches, else the access of a matching rule with no earlier match |
| Authorization.Decide | src/main/java/com/naga/security/SecurityConfig.java:26-31 | An identity is enough on every path; without one, a request is allowed iff the first matching rule permits all |
| Authorization.RulesAreTotal | src/main/java/com/naga/security/SecurityConfig.java:30 | Some rule of the table matches every request |
| Authorization.DecideIff | src/main/java/com/naga/security/SecurityConfig.java:26-31 | Allowed iff ASYNC, or an open path (`/mcp/auth/token`, the `/auth` and `/actuator` subtrees), or authenticated; everything else is denied |
| Authorization.TokenEndpointOpen | src/main/java/com/naga/security/SecurityConfig.java:28-29 | First match wins: `/mcp/auth/token` lies in the `/mcp` subtree yet is open |
| Authorization.McpPathsNeedIdentity | src/main/java/com/naga/security/SecurityConfig.java:29 | Any other `/mcp/...` path on a non-async dispatch is allowed iff authenticated |
| Authorization.Admit | src/main/java/com/naga/security/SecurityConfig.java:24-32 | Rejected iff the filter answered 403; admitted iff not rejected and either exempt or authenticated; an admitted request carries an identity iff the filter attached one, and then exactly that identity |
| Authorization.NonExemptNeedsIdentity | src/main/java/com/naga/security/SecurityConfig.java:26-32 | A non-exempt request is admitted iff the filter attached an identity |
| Authorization.BadCredentialRejectedEverywhere | src/main/java/com/naga/security/SecurityConfig.java:32 | A rejected bearer token gets 403 even on the open token endpoint |
| Authorization.IssuedTokenAdmitted | src/main/java/com/naga/security/SecurityConfig.java:26-32 | An unexpired issued token admits its holder to a tool call as its subject |
| GitHubTools.NormaliseState | src/main/java/com/naga/github/GitHubToolsService.java:64 | Null or blank gives "open"; any other state is sent as its own lower-case form; the result is never blank and already lower-case |
| GitHubTools.NormaliseIdempotent | src/main/java/com/naga/github/GitHubToolsService.java:64 | A normalised state is never blank, and normalising it again changes nothing |
| GitHubTools.DefaultStateIsOpen | src/main/java/com/naga/github/GitHubToolsService.java:64 | Null and blank states become "open", and a state is normalised regardless of ASCII case |
| GitHubTools.Project | src/main/java/com/naga/github/GitHubToolsService.java:94-101 | A record projects iff every read field is present, to its six-field summary |
| GitHubTools.ProjectAll | src/main/java/com/naga/github/GitHubToolsService.java:92-106 | Succeeds iff every record is complete, then one entry per record in order; otherwise the error of the first incomplete record and no list |
| GitHubTools.SummaryJson | src/main/java/com/naga/github/GitHubToolsService.java:95-101 | A projected entry has exactly the keys number, title, state, author, created_at and url |
| GitHubTools.SummaryJsonRoundTrip | src/main/java/com/naga/github/GitHubToolsService.java:95-102 | Reading the six fields back from an entry's map gives the entry itself |
| GitHubTools.ApiErrorMessage | src/main/java/com/naga/github/GitHubToolsService.java:78 | The message begins with "GitHub API error " and the status code's decimal digits, and ends with ": " and the body |
| GitHubTools.PullRequests | src/main/java/com/naga/github/GitHubToolsService.java:55-111 | Every failure message starts with "Failed to retrieve pull requests: "; error statuses and timeouts always fail; a fetched list succeeds iff every record is complete, and then gives one entry per record in order; otherwise the message is the prefix followed by the first incomplete record's null-pointer message |
| GitHubTools.PullRequestsOutcomes | src/main/java/com/naga/github/GitHubToolsService.java:84-90 | A null or empty list gives an empty success; a timeout keeps its message behind the prefix |
| GitHubTools.ErrorStatusReported | src/main/java/com/naga/github/GitHubToolsService.java:74-80 | An error status gives "Failed to retrieve pull requests: GitHub API error <status>: <body>" |
| GitHubTools.StateDefaultSameAnswer | src/main/java/com/naga/github/GitHubToolsService.java:63-72 | An omitted or blank state gives the same answer as "open" |
| GitHubTools.StateCaseIgnored | src/main/java/com/naga/github/GitHubToolsService.java:63-72 | "OPEN" gives the same answer as "open": the state is compared without regard to case |
| JavaLang.DecimalRoundTrip | src/main/java/com/naga/github/GitHubToolsService.java:78 | A rendered status number is a non-empty digit string without a leading zero that reads back as the number |
| JavaLang.Wrap32 | src/main/java/com/naga/github/TestToolService.java:15-17 | Narrowing to int is congruent to the input modulo 2^32 and is the identity on int values |
| McpController.HeartbeatFrame | src/main/java/com/naga/controller/McpSseController.java:38-41 | Each emitted element starts with `event: heartbeat` and a newline, ends with a blank line, and is 42 characters longer than its timestamp |
| McpController.HeartbeatRoundTrip | src/main/java/com/naga/controller/McpSseController.java:39-40 | The timestamp is recoverable from the element |
| McpController.HeartbeatBlankLineOnlyAtEnd | src/main/java/com/naga/controller/McpSseController.java:39-40 | With a single-line timestamp, the only blank line of an element is at its end |
| McpController.ListTools | src/main/java/com/naga/controller/McpSseController.java:47-73 | `count` equals the number of tools, 1; the tool is getAllPullRequests with an optional `state` defaulting to "open" |
| McpController.GetServerInfo | src/main/java/com/naga/controller/McpSseController.java:113-125 | The tool count and tool names agree with the listing |
| McpController.HandlerEnvelope | src/main/java/com/naga/controller/McpSseController.java:88-105 | The envelope is a success iff the handler returned normally, holding exactly its list, and otherwise holds exactly its exception message |
| McpController.Dispatch | src/main/java/com/naga/controller/McpSseController.java:88-104 | Any other name, null included, gives "Unknown tool: " and the name; for the registered name, null arguments give the null-pointer message, a non-string `state` the class-cast message, and a usable `state` exactly the handler's outcome for it; no failure of the registered route reads as an unknown tool |
| McpController.CallTool | src/main/java/com/naga/controller/McpSseController.java:78-108 | The exception escapes iff `name` is not null/string or `arguments` is not null/map; otherwise the answer is the routing of the cast name and arguments, whatever other keys the request has |
| McpController.EnvelopeJson | src/main/java/com/naga/controller/McpSseController.java:94-104 | Status is "success" or "error", and "success" iff the envelope is a success; `result` is present iff success and `error` iff error, never both; the result lists one entry map per item in order; the error is the message |
| McpController.WellTypedRequestIsAnswered | src/main/java/com/naga/controller/McpSseController.java:80-105 | Nothing thrown inside the try block escapes |
| McpController.UnknownToolReported | src/main/java/com/naga/controller/McpSseController.java:90-104 | Any other name gives "Unknown tool: " + name; an absent name gives "Unknown tool: null" |
| McpController.RoutingMatchesListing | src/main/java/com/naga/controller/McpSseController.java:51-98 | A name is routed to a handler exactly when the listing names it |
| McpController.StateDefaultsToOpen | src/main/java/com/naga/controller/McpSseController.java:82-91 | Missing arguments, missing state and null state answer as state "open" |
| McpController.EnvelopeCarriesHandlerOutcome | src/main/java/com/naga/controller/McpSseController.java:80-105 | For every well-typed request to the registered tool, whatever other keys it has, the success result is exactly the handler's list for its `state`, and the error text exactly the handler's message |
| McpController.UpstreamOutcomesReachCaller | src/main/java/com/naga/controller/McpSseController.java:80-105 | For every well-typed request to the registered tool, an upstream error status for the normalised state reaches the caller as the prefixed API error with status and body; a null or empty upstream list as an empty success |
| TokenController.IssueToken | src/main/java/com/naga/controller/AuthTokenGenerationController.java:35-45 | Status 200 iff the key equals the expected key exactly; the body then has the single key `accessToken` |
| TokenController.WrongKeyUnauthorized | src/main/java/com/naga/controller/AuthTokenGenerationController.java:40-42 | Any other key gets 401 and no token |
| TokenController.TokenIsForClientSubject | src/main/java/com/naga/controller/AuthTokenGenerationController.java:26-44 | The token is generated for the configured client subject, not for a caller-chosen one |
| TokenController.IssuedTokenValidatesUntilExpiry | src/main/java/com/naga/controller/AuthTokenGenerationController.java:43 | The handed-out token validates with the client subject until one hour after issue, and is expired after |
| TestTools.Echo | src/main/java/com/naga/github/TestToolService.java:9-12 | The result starts with "Echo: " and ends with the input as concatenation renders it; a null input gives "Echo: null" |
| TestTools.EchoInjective | src/main/java/com/naga/github/TestToolService.java:11 | Equal echoes come from equally rendered inputs, and from equal inputs when both are non-null |
| TestTools.EchoNullCollides | src/main/java/com/naga/github/TestToolService.java:11 | A null input and the input "null" echo alike |
| TestTools.Add | src/main/java/com/naga/github/TestToolService.java:14-17 | The sum is congruent to a + b modulo 2^32 and equals it when no overflow occurs |
| TestTools.AddLaws | src/main/java/com/naga/github/TestToolService.java:15-17 | add is commutative, 0 is its identity, and the largest int plus 1 wraps to the smallest |

## Left out

- HMAC-SHA256, JWT parsing and compact serialisation are library calls. A signature is represented by the key that made it, and the text form by a `Codec` parameter.
- The secret is not encoded to UTF-8, so two secrets give the same key only when they are equal strings. For well-formed text this is what UTF-8 encoding gives.
- The key factory's 256-bit minimum key length is not modelled. It fails at startup, before any request.
- `iat` and `exp` are kept in milliseconds. The second-granularity of the JWT NumericDate encoding is not modelled.
- The source reads the clock twice while building a token. The model reads it once, as `now`.
- The token library's other checks are not modelled one by one: `nbf`, clock skew, unsigned tokens and unsupported algorithms. Any token the codec cannot read is `Malformed`. The filter treats every rejection alike.
- No other class of the program calls `shouldRefresh`. It is modelled as the pure test it is. It neither changes claims nor issues a token.
- Logging, `System.out` and `System.err` are not modelled.
- The security context is not modelled as shared state. The filter returns the identity as a value.
- The servlet filter's bookkeeping is not modelled. This covers its skipping of async and error re-dispatches and its once-per-request marker. The model is the `doFilterInternal` body.
- Path matching is modelled as exact paths and subtree patterns. URL decoding, servlet-path splitting and trailing-slash handling by the framework's matchers are not modelled.
- The HTTP status the framework sends for a policy denial depends on its entry point. It is reported as `Denied`.
- CSRF handling is switched off in the source and is not modelled.
- How the framework writes each stream element on the wire is not modelled. This covers `data:` line prefixes and the event boundaries the framework adds. Only the element's own text is modelled.
- The event stream's 30-second timing, emission and cancellation on disconnect are not modelled. The timestamp's `Date.toString` text is a parameter. Only the frame's text is modelled.
- The outbound HTTP call is network I/O and is not modelled. This covers URI building from owner and repository, the blocking wait and the 30-second timeout mechanics. The upstream outcome is an input; a timeout's exception message is opaque.
- An error status whose body is empty is not modelled as an error status. There the status handler raises nothing and the HTTP client goes on to read the response as an ordinary list, with a result that depends on the connector. Such a response reaches the model as whichever other upstream outcome the connector produces, and the `HttpError` outcome carries a non-empty body only.
- Jackson's value coercions are not modelled: `asInt` on text, `asText` on objects, and JSON null field values. A record field is either present or absent. A present number is narrowed to int as `asInt` does.
- Request bodies that are not JSON objects are not modelled. Floating-point JSON numbers are not modelled.
- Exception messages generated by the JVM are modelled with the helpful null-pointer and class-cast texts of current JDKs. This assumes local variable names are compiled in.
- `toLowerCase` is modelled for ASCII letters only. Locale-sensitive and other Unicode case mappings, and characters outside the Basic Multilingual Plane, are not modelled.
- Annotation-driven tool registration is framework wiring and is not modelled. This covers `@Tool` and `@McpTool` scanning and the callback provider. So are `GitHubService.java`, `GitHubController.java`, `APIConfiguration.java`, the application bootstrap, and `KeyGen.java`, which generates random keys and prints them.
