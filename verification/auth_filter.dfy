/** The per-request gate of JwtSlidingExpirationFilter.doFilterInternal.

    The filter reads only the dispatcher type and the `Authorization`
    header. It continues the chain with no identity, continues it with an
    identity taken from a validated token, or ends the request with 403.
    The identity that the source stores in the ambient security context is
    returned here as a value. */
module AuthFilter {
  import opened JavaLang
  import Jwt

  /** The servlet dispatcher types. */
  datatype DispatcherType = Forward | Include | Request | Async | Error

  /** What the gate and the path policy see of an inbound request. */
  datatype HttpRequest = HttpRequest(
    dispatcherType: DispatcherType,
    path: string,
    authorization: Option<string>)

  /** The prefix the header must start with, compared case-sensitively
      (RFC 6750 section 2.1 writes the scheme name case-insensitively). */
  const BearerPrefix: string := "Bearer "

  /** The single authority granted to every authenticated caller. */
  const RoleUser: string := "ROLE_USER"

  /** The authentication placed in the security context: the principal is
      the token's subject claim (null when the token has none). */
  datatype Authentication = Authentication(principal: Option<string>, authorities: seq<string>)

  /** The three outcomes of one pass through the filter. */
  datatype GateOutcome =
    | PassThrough
    | Authenticated(auth: Authentication)
    | Forbidden
  {
    /** Whether filterChain.doFilter is invoked. */
    predicate ContinuesChain() {
      !Forbidden?
    }

    /** The status the filter itself sets: 403 on rejection, none otherwise. */
    function StatusSet(): Option<int> {
      if Forbidden? then Some(403) else None
    }
  }

  /** The credential after `Bearer `: the header with its first seven
      characters removed, when it starts with the prefix. */
  function BearerToken(header: Option<string>): (t: Option<string>)
    ensures t.Some? <==> header.Some? && StartsWith(header.value, BearerPrefix)
    ensures t.Some? ==> header.value == BearerPrefix + t.value
  {
    if header.Some? && StartsWith(header.value, BearerPrefix) then Some(header.value[7..]) else None
  }

  /** doFilterInternal. */
  function DoFilter(u: Jwt.JwtUtility, codec: Jwt.Codec, req: HttpRequest, now: int): (o: GateOutcome)
    ensures req.dispatcherType == Async ==> o == PassThrough
    ensures o.Forbidden? ==> BearerToken(req.authorization).Some?
    ensures o.Authenticated? ==> o.auth.authorities == [RoleUser]
  {
    if req.dispatcherType == Async then PassThrough
    else match BearerToken(req.authorization)
      case None => PassThrough
      case Some(token) =>
        match Jwt.Validate(u, codec, token, now)
        case Ok(claims) => Authenticated(Authentication(claims.subject, [RoleUser]))
        case Err(_) => Forbidden
  }

  // ---------------------------------------------------------------------
  // Properties

  /** The credential is recovered exactly from a header built as
      `Bearer ` followed by it. */
  lemma BearerRoundTrip(token: string)
    ensures BearerToken(Some(BearerPrefix + token)) == Some(token)
  {
  }

  /** The scheme is matched case-sensitively: a lower-case `bearer` is not
      a bearer credential, and neither is a bare `Bearer` with no space. */
  lemma SchemeIsCaseSensitive(token: string)
    ensures BearerToken(Some("bearer " + token)) == None
    ensures BearerToken(Some("Bearer")) == None
  {
  }

  /** Without a bearer credential the chain continues and no identity is
      attached. */
  lemma NoCredentialPassesThrough(u: Jwt.JwtUtility, codec: Jwt.Codec, req: HttpRequest, now: int)
    requires BearerToken(req.authorization).None?
    ensures DoFilter(u, codec, req, now) == PassThrough
  {
  }

  /** Which of the three outcomes a request gets, decided by its inputs:
      403 exactly for a non-async request whose bearer token fails
      validation, an identity exactly for one whose token passes, and a
      plain pass-through otherwise. Only the 403 sets a status and stops
      the chain. */
  lemma ExactlyOneOutcome(u: Jwt.JwtUtility, codec: Jwt.Codec, req: HttpRequest, now: int)
    ensures DoFilter(u, codec, req, now).Forbidden? <==>
      && req.dispatcherType != Async
      && BearerToken(req.authorization).Some?
      && Jwt.Validate(u, codec, BearerToken(req.authorization).value, now).Err?
    ensures DoFilter(u, codec, req, now).Authenticated? <==>
      && req.dispatcherType != Async
      && BearerToken(req.authorization).Some?
      && Jwt.Validate(u, codec, BearerToken(req.authorization).value, now).Ok?
    ensures DoFilter(u, codec, req, now).PassThrough? <==>
      req.dispatcherType == Async || BearerToken(req.authorization).None?
    ensures DoFilter(u, codec, req, now).StatusSet() == None <==> DoFilter(u, codec, req, now).ContinuesChain()
    ensures DoFilter(u, codec, req, now).PassThrough? ==>
      DoFilter(u, codec, req, now).StatusSet() == None && DoFilter(u, codec, req, now).ContinuesChain()
  {
  }

  /** A non-async request carrying a credential is decided by validation
      alone: accepted claims give their subject as principal with the single
      authority ROLE_USER, any rejection gives 403. */
  lemma CredentialDecidesByValidation(u: Jwt.JwtUtility, codec: Jwt.Codec, req: HttpRequest, token: string, now: int)
    requires req.dispatcherType != Async
    requires req.authorization == Some(BearerPrefix + token)
    ensures Jwt.Validate(u, codec, token, now).Ok? ==>
      DoFilter(u, codec, req, now) == Authenticated(Authentication(Jwt.Validate(u, codec, token, now).value.subject, [RoleUser]))
    ensures Jwt.Validate(u, codec, token, now).Err? ==> DoFilter(u, codec, req, now) == Forbidden
  {
  }

  /** A token issued by the gateway for a subject with text, presented
      before it expires, authenticates that subject. */
  lemma IssuedTokenAuthenticates(u: Jwt.JwtUtility, codec: Jwt.Codec, subject: string, issuedAt: int, req: HttpRequest, now: int)
    requires Jwt.Faithful(codec)
    requires HasText(subject)
    requires req.dispatcherType != Async
    requires req.authorization == Some(BearerPrefix + Jwt.GenerateToken(u, codec, subject, issuedAt))
    requires now <= issuedAt + Jwt.LifetimeMillis
    ensures DoFilter(u, codec, req, now) == Authenticated(Authentication(Some(subject), [RoleUser]))
  {
  }

  /** The same token presented after its expiry ends the request with 403. */
  lemma ExpiredIssuedTokenForbidden(u: Jwt.JwtUtility, codec: Jwt.Codec, subject: string, issuedAt: int, req: HttpRequest, now: int)
    requires Jwt.Faithful(codec)
    requires req.dispatcherType != Async
    requires req.authorization == Some(BearerPrefix + Jwt.GenerateToken(u, codec, subject, issuedAt))
    requires now > issuedAt + Jwt.LifetimeMillis
    ensures DoFilter(u, codec, req, now) == Forbidden
  {
  }
}
