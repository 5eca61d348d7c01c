/** AuthTokenGenerationController.issueToken: the token endpoint, open to
    anonymous callers, that exchanges the shared API key for a token issued
    to the configured client subject. */
module TokenController {
  import opened JavaLang
  import Jwt

  /** The endpoint's configuration: the expected API key and the subject
      every issued token names. */
  datatype TokenEndpoint = TokenEndpoint(expectedApiKey: string, clientSubject: string)

  /** The HTTP response. A missing `X-API-KEY` header is refused by the
      framework before the method runs; a wrong key gets 401 with no body. */
  datatype TokenResponse =
    | MissingHeader
    | Unauthorized
    | Issued(body: map<string, string>)
  {
    function Status(): int {
      match this
      case MissingHeader => 400
      case Unauthorized => 401
      case Issued(_) => 200
    }
  }

  /** issueToken: compare the key case-sensitively, then issue a token for
      the configured subject, not for anything the caller sends. */
  function IssueToken(e: TokenEndpoint, u: Jwt.JwtUtility, codec: Jwt.Codec, apiKey: Option<string>, now: int): (r: TokenResponse)
    ensures r.Status() == 200 <==> apiKey == Some(e.expectedApiKey)
    ensures r.Issued? ==> r.body.Keys == {"accessToken"}
  {
    if apiKey.None? then MissingHeader
    else if e.expectedApiKey != apiKey.value then Unauthorized
    else Issued(map["accessToken" := Jwt.GenerateToken(u, codec, e.clientSubject, now)])
  }

  /** Any key other than the expected one, including one differing only in
      case, gets 401 and no token. */
  lemma WrongKeyUnauthorized(e: TokenEndpoint, u: Jwt.JwtUtility, codec: Jwt.Codec, key: string, now: int)
    requires key != e.expectedApiKey
    ensures IssueToken(e, u, codec, Some(key), now) == Unauthorized
    ensures IssueToken(e, u, codec, Some(key), now).Status() == 401
  {
  }

  /** The issued token is the one generateToken produces for the client
      subject at that instant: the caller cannot choose its subject. */
  lemma TokenIsForClientSubject(e: TokenEndpoint, u: Jwt.JwtUtility, codec: Jwt.Codec, now: int)
    ensures IssueToken(e, u, codec, Some(e.expectedApiKey), now)
      == Issued(map["accessToken" := Jwt.GenerateToken(u, codec, e.clientSubject, now)])
  {
  }

  /** End to end: the token handed out validates, with the client subject,
      until one hour after issuance, and is rejected as expired after that. */
  lemma IssuedTokenValidatesUntilExpiry(e: TokenEndpoint, u: Jwt.JwtUtility, codec: Jwt.Codec, issuedAt: int, now: int)
    requires Jwt.Faithful(codec)
    requires HasText(e.clientSubject)
    ensures
      var token := IssueToken(e, u, codec, Some(e.expectedApiKey), issuedAt).body["accessToken"];
      && (now <= issuedAt + Jwt.LifetimeMillis ==>
            && Jwt.Validate(u, codec, token, now).Ok?
            && Jwt.Validate(u, codec, token, now).value.subject == Some(e.clientSubject))
      && (now > issuedAt + Jwt.LifetimeMillis ==> Jwt.Validate(u, codec, token, now) == Err(Jwt.Expired))
  {
  }
}
