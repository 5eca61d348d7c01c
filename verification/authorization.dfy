/** The path authorization policy that SecurityConfig.securityFilterChain
    declares, and its composition with the bearer-token gate placed before
    it in the same filter chain.

    The policy is an ordered table: the first rule whose matcher accepts
    the request decides. */
module Authorization {
  import opened JavaLang
  import opened AuthFilter
  import Jwt

  /** A request path pattern: a literal path, or a subtree pattern, which matches
      `base` itself and everything beneath it. */
  datatype PathPattern = Exact(path: string) | Subtree(base: string)

  predicate PatternMatches(p: PathPattern, path: string) {
    match p
    case Exact(q) => path == q
    case Subtree(base) => path == base || StartsWith(path, base + "/")
  }

  datatype Matcher =
    | DispatcherIs(dispatcherType: DispatcherType)
    | AnyPath(patterns: seq<PathPattern>)
    | AnyRequest

  predicate Matches(m: Matcher, req: HttpRequest) {
    match m
    case DispatcherIs(d) => req.dispatcherType == d
    case AnyPath(ps) => exists i :: 0 <= i < |ps| && PatternMatches(ps[i], req.path)
    case AnyRequest => true
  }

  datatype Access = PermitAll | RequireAuthenticated

  datatype Rule = Rule(matcher: Matcher, access: Access)

  /** The table, in declaration order. */
  const Rules: seq<Rule> := [
    Rule(DispatcherIs(Async), PermitAll),
    Rule(AnyPath([Exact("/mcp/auth/token"), Subtree("/auth"), Subtree("/actuator")]), PermitAll),
    Rule(AnyPath([Subtree("/mcp")]), RequireAuthenticated),
    Rule(AnyRequest, RequireAuthenticated)
  ]

  /** The access of the first rule that matches, if any does. */
  function FirstMatch(rules: seq<Rule>, req: HttpRequest): (a: Option<Access>)
    ensures a.None? <==> forall i :: 0 <= i < |rules| ==> !Matches(rules[i].matcher, req)
    ensures a.Some? ==>
      exists i :: (0 <= i < |rules| && Matches(rules[i].matcher, req) && rules[i].access == a.value
        && forall j :: 0 <= j < i ==> !Matches(rules[j].matcher, req))
  {
    if |rules| == 0 then None
    else if Matches(rules[0].matcher, req) then Some(rules[0].access)
    else
      var rest := FirstMatch(rules[1..], req);
      assert forall i :: 1 <= i < |rules| ==> rules[i] == rules[1..][i - 1];
      assert rest.Some? ==>
        exists i :: (0 <= i < |rules| && Matches(rules[i].matcher, req) && rules[i].access == rest.value
          && forall j :: 0 <= j < i ==> !Matches(rules[j].matcher, req)) by {
        if rest.Some? {
          // the rule found in the tail sits one place further on here
          var k :| 0 <= k < |rules[1..]| && Matches(rules[1..][k].matcher, req) && rules[1..][k].access == rest.value
            && forall j :: 0 <= j < k ==> !Matches(rules[1..][j].matcher, req);
          assert Matches(rules[k + 1].matcher, req) && rules[k + 1].access == rest.value;
        }
      }
      rest
  }

  datatype Decision = Allow | Deny

  /** The authorization decision for a request, given whether the gate
      attached an identity. No rule matching is treated as a denial, but
      the table is total, so an identity is enough on every path. */
  function Decide(req: HttpRequest, authenticated: bool): (d: Decision)
    ensures authenticated ==> d == Allow
    ensures d == Allow <==> FirstMatch(Rules, req) == Some(PermitAll) || authenticated
  {
    RulesAreTotal(req);
    match FirstMatch(Rules, req)
    case Some(PermitAll) => Allow
    case Some(RequireAuthenticated) => if authenticated then Allow else Deny
    case None => Deny
  }

  /** The requests the policy lets through anonymously, stated directly. */
  predicate IsExempt(req: HttpRequest) {
    || req.dispatcherType == Async
    || req.path == "/mcp/auth/token"
    || req.path == "/auth" || StartsWith(req.path, "/auth/")
    || req.path == "/actuator" || StartsWith(req.path, "/actuator/")
  }

  // ---------------------------------------------------------------------
  // Properties of the table

  /** The table is total: its last rule matches every request. */
  lemma RulesAreTotal(req: HttpRequest)
    ensures FirstMatch(Rules, req).Some?
  {
    assert Matches(Rules[3].matcher, req);
  }

  /** The whole policy: a request is allowed exactly when it is exempt or
      carries an identity. Everything else is denied by default. */
  lemma DecideIff(req: HttpRequest, authenticated: bool)
    ensures Decide(req, authenticated) == Allow <==> IsExempt(req) || authenticated
  {
    var publicPaths := Rules[1].matcher.patterns;
    if req.dispatcherType == Async {
      assert Matches(Rules[0].matcher, req);
    } else if IsExempt(req) {
      if req.path == "/mcp/auth/token" {
        assert PatternMatches(publicPaths[0], req.path);
      } else if req.path == "/auth" || StartsWith(req.path, "/auth/") {
        assert PatternMatches(publicPaths[1], req.path);
      } else {
        assert PatternMatches(publicPaths[2], req.path);
      }
      assert Matches(Rules[1].matcher, req);
    } else {
      assert !Matches(Rules[0].matcher, req);
      assert !Matches(Rules[1].matcher, req);
      assert Matches(Rules[3].matcher, req);
    }
  }

  /** First match wins: the token endpoint is open although it also lies
      in the `/mcp` subtree, which demands an identity. */
  lemma TokenEndpointOpen(d: DispatcherType, header: Option<string>)
    ensures PatternMatches(Subtree("/mcp"), "/mcp/auth/token")
    ensures Decide(HttpRequest(d, "/mcp/auth/token", header), false) == Allow
  {
    assert "/mcp/auth/token"[..5] == "/mcp/";
    DecideIff(HttpRequest(d, "/mcp/auth/token", header), false);
  }

  /** Every other path in the `/mcp` subtree (the stream, the tool list, tool
      calls, the info page) needs an identity on a non-async dispatch. */
  lemma McpPathsNeedIdentity(req: HttpRequest, authenticated: bool)
    requires req.dispatcherType != Async
    requires StartsWith(req.path, "/mcp/") && req.path != "/mcp/auth/token"
    ensures Decide(req, authenticated) == Allow <==> authenticated
  {
    assert req.path[..5] == "/mcp/";
    assert req.path[1] == 'm';
    assert !IsExempt(req);
    DecideIff(req, authenticated);
  }

  // ---------------------------------------------------------------------
  // The gate followed by the policy

  /** The end result for a request after the whole filter chain. */
  datatype Verdict =
    | Rejected        // the gate set 403 and stopped the chain
    | Denied          // the policy refused an anonymous caller
    | Admitted(identity: Option<Authentication>)

  /** Run the gate, then, if the chain continues, the policy with the
      identity the gate attached. */
  function Admit(u: Jwt.JwtUtility, codec: Jwt.Codec, req: HttpRequest, now: int): (v: Verdict)
    ensures v.Admitted? && v.identity.None? ==> IsExempt(req)
    ensures v.Rejected? <==> DoFilter(u, codec, req, now).Forbidden?
    ensures v.Admitted? <==>
      !DoFilter(u, codec, req, now).Forbidden? && (IsExempt(req) || DoFilter(u, codec, req, now).Authenticated?)
    ensures DoFilter(u, codec, req, now).Authenticated? ==> v == Admitted(Some(DoFilter(u, codec, req, now).auth))
    ensures v.Admitted? ==> (v.identity.Some? <==> DoFilter(u, codec, req, now).Authenticated?)
  {
    match DoFilter(u, codec, req, now)
    case Forbidden => Rejected
    case PassThrough =>
      DecideIff(req, false);
      if Decide(req, false) == Allow then Admitted(None) else Denied
    case Authenticated(a) =>
      DecideIff(req, true);
      if Decide(req, true) == Allow then Admitted(Some(a)) else Denied
  }

  /** A non-exempt request gets through only if the gate attached an
      identity; and with one, it always gets through. */
  lemma NonExemptNeedsIdentity(u: Jwt.JwtUtility, codec: Jwt.Codec, req: HttpRequest, now: int)
    requires !IsExempt(req)
    ensures Admit(u, codec, req, now).Admitted? <==> DoFilter(u, codec, req, now).Authenticated?
  {
    var o := DoFilter(u, codec, req, now);
    if o.Authenticated? {
      DecideIff(req, true);
    } else if o.PassThrough? {
      DecideIff(req, false);
    }
  }

  /** The gate does not consult the path: a rejected bearer token ends even
      a request to the open token endpoint with 403. */
  lemma BadCredentialRejectedEverywhere(u: Jwt.JwtUtility, codec: Jwt.Codec, token: string, now: int)
    requires Jwt.Validate(u, codec, token, now).Err?
    ensures Admit(u, codec, HttpRequest(Request, "/mcp/auth/token", Some(BearerPrefix + token)), now) == Rejected
  {
  }

  /** A caller holding an unexpired token issued for a subject with text
      is admitted to a tool call as that subject. */
  lemma IssuedTokenAdmitted(u: Jwt.JwtUtility, codec: Jwt.Codec, subject: string, issuedAt: int, now: int)
    requires Jwt.Faithful(codec)
    requires HasText(subject)
    requires now <= issuedAt + Jwt.LifetimeMillis
    ensures Admit(u, codec, HttpRequest(Request, "/mcp/tools/call",
      Some(BearerPrefix + Jwt.GenerateToken(u, codec, subject, issuedAt))), now)
      == Admitted(Some(Authentication(Some(subject), [RoleUser])))
  {
    var req := HttpRequest(Request, "/mcp/tools/call", Some(BearerPrefix + Jwt.GenerateToken(u, codec, subject, issuedAt)));
    IssuedTokenAuthenticates(u, codec, subject, issuedAt, req, now);
    McpPathsNeedIdentity(req, true);
  }
}
