/** Token issuance, validation and the sliding-refresh test of JwtUtility.

    Time is an integer count of milliseconds since the epoch, passed in as
    `now`. HMAC-SHA256 signing is abstract: a signed token records the key it
    was signed with, and its signature verifies under a key exactly when the
    two keys are equal. The compact `header.payload.signature` text is
    produced and read by a `Codec` supplied by the caller. */
module Jwt {
  import opened JavaLang

  /** generateToken adds this many milliseconds to the clock: one hour. */
  const LifetimeMillis: int := 3_600_000

  /** An HMAC-SHA256 key made from the bytes of a secret. */
  datatype Key = HmacKey(secret: string)

  /** Keys.hmacShaKeyFor over the secret's UTF-8 bytes. */
  function KeyFor(secret: string): Key {
    HmacKey(secret)
  }

  /** The registered claims the gateway reads or writes (section 4.1 of
      RFC 7519): `sub`, `iss`, `iat` and `exp`. An absent claim is None. */
  datatype Claims = Claims(
    subject: Option<string>,
    issuer: Option<string>,
    issuedAt: Option<int>,
    expiration: Option<int>)

  /** A JWS: the claims, and the key its HS256 signature was made with. */
  datatype Jws = Jws(claims: Claims, signer: Key)

  /** Compact serialisation: `encode` writes a token, `decode` reads one
      and answers None for text that is not a signed token. */
  datatype Codec = Codec(encode: Jws -> string, decode: string -> Option<Jws>)

  /** A codec reads back exactly what it writes. */
  ghost predicate Faithful(codec: Codec) {
    forall t :: codec.decode(codec.encode(t)) == Some(t)
  }

  /** The configured JwtUtility bean. The constructor argument and the
      `jwtSecret` field are both injected from `mcp.auth.jwt-secret`, so one
      secret serves for signing and for validation. `ttlSeconds` is
      injected but never read. */
  datatype JwtUtility = JwtUtility(
    secret: string,
    ttlSeconds: int,
    refreshWindowSeconds: int,
    tokenIssuer: string)

  /** The key fixed in the constructor and used to sign. */
  function SigningKey(u: JwtUtility): Key {
    KeyFor(u.secret)
  }

  /** The key rebuilt from `jwtSecret` on every validation. */
  function ValidationKey(u: JwtUtility): Key {
    KeyFor(u.secret)
  }

  /** The claims generateToken builds. The token builder only creates its
      claim set for a value with text, so a subject without text is not
      recorded, and neither is an issuer without text unless the subject
      already created the claim set. */
  function IssuedClaims(u: JwtUtility, subject: string, now: int): (c: Claims)
    ensures c.issuedAt == Some(now) && c.expiration == Some(now + LifetimeMillis)
    ensures c.subject.Some? <==> HasText(subject)
    ensures c.subject.Some? ==> c.subject.value == subject
    ensures c.issuer.Some? ==> c.issuer.value == u.tokenIssuer
    ensures HasText(u.tokenIssuer) ==> c.issuer == Some(u.tokenIssuer)
  {
    Claims(
      if HasText(subject) then Some(subject) else None,
      if HasText(subject) || HasText(u.tokenIssuer) then Some(u.tokenIssuer) else None,
      Some(now),
      Some(now + LifetimeMillis))
  }

  /** generateToken: sign the issued claims with the utility's key. */
  function GenerateToken(u: JwtUtility, codec: Codec, subject: string, now: int): (t: string)
    ensures Faithful(codec) ==> codec.decode(t) == Some(Jws(IssuedClaims(u, subject, now), SigningKey(u)))
  {
    codec.encode(Jws(IssuedClaims(u, subject, now), SigningKey(u)))
  }

  /** The ways parseClaimsJws rejects a token. */
  datatype Rejection = Malformed | BadSignature | Expired

  /** The token library's expiry rule with no clock skew: a token is expired
      once the clock is strictly after `exp`; without `exp` it never is. */
  predicate IsExpired(c: Claims, now: int) {
    c.expiration.Some? && now > c.expiration.value
  }

  /** validate: parse, check the signature, then check expiry. */
  function Validate(u: JwtUtility, codec: Codec, token: string, now: int): (r: Result<Claims, Rejection>)
    ensures r.Ok? <==>
      && codec.decode(token).Some?
      && codec.decode(token).value.signer == ValidationKey(u)
      && !IsExpired(codec.decode(token).value.claims, now)
    ensures r.Ok? ==> r.value == codec.decode(token).value.claims
    ensures r == Err(Malformed) <==> codec.decode(token).None?
    ensures r == Err(BadSignature) <==>
      codec.decode(token).Some? && codec.decode(token).value.signer != ValidationKey(u)
    ensures r == Err(Expired) <==>
      && codec.decode(token).Some?
      && codec.decode(token).value.signer == ValidationKey(u)
      && IsExpired(codec.decode(token).value.claims, now)
  {
    match codec.decode(token)
    case None => Err(Malformed)
    case Some(jws) =>
      if jws.signer != ValidationKey(u) then Err(BadSignature)
      else if IsExpired(jws.claims, now) then Err(Expired)
      else Ok(jws.claims)
  }

  /** The message of the NullPointerException shouldRefresh raises for
      claims without `exp`. */
  const NoExpirationMessage: string :=
    NullPointerMessage("java.util.Date.toInstant()", "the return value of \"io.jsonwebtoken.Claims.getExpiration()\"")

  /** shouldRefresh: `exp` less the refresh window lies strictly before now.
      `exp` is dereferenced unconditionally, so claims without it throw. */
  function ShouldRefresh(u: JwtUtility, c: Claims, now: int): (r: Result<bool, string>)
    ensures r.Err? <==> c.expiration.None?
    ensures r.Err? ==> r.error == NoExpirationMessage
    ensures r == Ok(false) && u.refreshWindowSeconds >= 0 ==> !IsExpired(c, now)
    ensures IsExpired(c, now) && u.refreshWindowSeconds >= 0 ==> r == Ok(true)
  {
    if c.expiration.None? then Err(NoExpirationMessage)
    else Ok(c.expiration.value - u.refreshWindowSeconds * 1000 < now)
  }

  // ---------------------------------------------------------------------
  // Properties of issuance

  /** An issued token expires exactly one hour after it was issued, whatever
      the configured ttl: the lifetime is positive and the ttl plays no part. */
  lemma LifetimeIsOneHour(u: JwtUtility, subject: string, now: int, ttl: int)
    ensures IssuedClaims(u, subject, now).expiration == Some(now + 3_600_000)
    ensures IssuedClaims(u, subject, now).issuedAt.value < IssuedClaims(u, subject, now).expiration.value
    ensures IssuedClaims(u.(ttlSeconds := ttl), subject, now) == IssuedClaims(u, subject, now)
  {
  }

  /** The ttl setting has no effect on the token text either. */
  lemma TokenIgnoresTtl(u: JwtUtility, codec: Codec, subject: string, now: int, ttl: int)
    ensures GenerateToken(u.(ttlSeconds := ttl), codec, subject, now) == GenerateToken(u, codec, subject, now)
  {
  }

  /** Round trip: a token validated with the utility that issued it, at any
      time up to and including its expiry, yields the issued claims, whose
      subject is the argument (when it has text) and whose issuer is the
      configured one; one millisecond later it is rejected as expired. */
  lemma IssuedTokenValidates(u: JwtUtility, codec: Codec, subject: string, issuedAt: int, now: int)
    requires Faithful(codec)
    ensures now <= issuedAt + LifetimeMillis ==>
      Validate(u, codec, GenerateToken(u, codec, subject, issuedAt), now) == Ok(IssuedClaims(u, subject, issuedAt))
    ensures now > issuedAt + LifetimeMillis ==>
      Validate(u, codec, GenerateToken(u, codec, subject, issuedAt), now) == Err(Expired)
    ensures HasText(subject) ==> IssuedClaims(u, subject, issuedAt).subject == Some(subject)
    ensures HasText(subject) ==> IssuedClaims(u, subject, issuedAt).issuer == Some(u.tokenIssuer)
  {
  }

  /** A token signed under any other secret is rejected for its signature,
      whatever its claims and however fresh it is. */
  lemma ForeignTokenRejected(u: JwtUtility, other: JwtUtility, codec: Codec, subject: string, issuedAt: int, now: int)
    requires Faithful(codec)
    requires other.secret != u.secret
    ensures Validate(u, codec, GenerateToken(other, codec, subject, issuedAt), now) == Err(BadSignature)
  {
  }

  /** A correctly signed token whose `exp` has passed is rejected as
      expired, never accepted. */
  lemma ExpiredTokenRejected(u: JwtUtility, codec: Codec, c: Claims, now: int)
    requires Faithful(codec)
    requires IsExpired(c, now)
    ensures Validate(u, codec, codec.encode(Jws(c, SigningKey(u))), now) == Err(Expired)
  {
  }

  // ---------------------------------------------------------------------
  // Properties of the refresh test

  /** The refresh test is false exactly at the window's edge and true one
      millisecond later. */
  lemma RefreshBoundary(u: JwtUtility, c: Claims)
    requires c.expiration.Some?
    ensures ShouldRefresh(u, c, c.expiration.value - u.refreshWindowSeconds * 1000) == Ok(false)
    ensures ShouldRefresh(u, c, c.expiration.value - u.refreshWindowSeconds * 1000 + 1) == Ok(true)
  {
  }

  /** Once a token is due for refresh it stays due as time advances. */
  lemma RefreshMonotone(u: JwtUtility, c: Claims, now: int, later: int)
    requires now <= later
    requires ShouldRefresh(u, c, now) == Ok(true)
    ensures ShouldRefresh(u, c, later) == Ok(true)
  {
  }

  /** Claims the validator accepts need not carry `exp`, and for those the
      refresh test throws instead of answering. */
  lemma AcceptedClaimsWithoutExpiryThrow(u: JwtUtility, codec: Codec, c: Claims, now: int)
    requires Faithful(codec)
    requires c.expiration.None?
    ensures Validate(u, codec, codec.encode(Jws(c, SigningKey(u))), now) == Ok(c)
    ensures ShouldRefresh(u, c, now) == Err(NoExpirationMessage)
  {
  }

  /** A freshly issued token is due for refresh at issuance exactly when the
      window is longer than the one-hour lifetime. */
  lemma FreshTokenDueIff(u: JwtUtility, subject: string, now: int)
    ensures ShouldRefresh(u, IssuedClaims(u, subject, now), now) == Ok(u.refreshWindowSeconds > 3600)
  {
  }
}
