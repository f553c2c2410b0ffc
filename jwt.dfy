/**
 * back-end/internal/utils/jwt.go: the registered claims of section 4.1 of RFC 7519 that the
 * server puts into access and refresh tokens, and the checks ValidateJWT makes. HMAC signing
 * and the compact serialization are not modelled: a Keyring stands for the server secret,
 * with `sign` producing the token text and `parse` reading a text back and saying whether
 * its signature matches the secret.
 */
module Jwt {
  import opened Wrappers
  import opened Models

  const Issuer: string := "subscription-tracker"
  /** time.Now().Add(5 * time.Minute). */
  const AccessLifetimeSeconds: int := 5 * 60
  /** time.Now().Add(24 * time.Hour * 90). */
  const RefreshLifetimeSeconds: int := 90 * 24 * 60 * 60

  /** utils.Claims: the user's id and email plus the registered claims (NumericDate seconds; None when absent). */
  datatype Claims = Claims(
    userId: int,
    email: string,
    expiresAt: Option<int>,
    issuedAt: Option<int>,
    notBefore: Option<int>,
    issuer: string)

  /** A token's header algorithm and its claims. */
  datatype Token = Token(alg: string, claims: Claims)

  /** What parsing a token text yields: the token and whether its signature matches the secret. */
  datatype Parsed = Parsed(token: Token, signatureValid: bool)

  /** The server secret: signing (which may fail) and parsing of token texts. */
  datatype Keyring = Keyring(sign: Token -> Option<string>, parse: string -> Option<Parsed>)

  /** Characters of a compact JWS: the base64url alphabet and the dots between the parts. */
  predicate IsCompactChar(c: char)
  {
    ('A' <= c <= 'Z') || ('a' <= c <= 'z') || ('0' <= c <= '9') || c == '-' || c == '_' || c == '.'
  }

  /** A compact serialization: never empty, and only base64url characters and dots. */
  predicate IsCompact(s: string)
  {
    s != [] && forall i | 0 <= i < |s| :: IsCompactChar(s[i])
  }

  /** A keyring behaves like HMAC with one secret: what it signs parses back to the same token with a good signature. */
  ghost predicate Sound(k: Keyring)
  {
    forall t: Token :: k.sign(t).Some? ==> IsCompact(k.sign(t).value) && k.parse(k.sign(t).value) == Some(Parsed(t, true))
  }

  /** The HMAC family golang-jwt registers: the only methods the key function accepts. */
  predicate IsHmac(alg: string)
  {
    alg == "HS256" || alg == "HS384" || alg == "HS512"
  }

  datatype JwtError =
    | SigningFailed
    | Malformed
    | UnexpectedSigningMethod(alg: string)
    | SignatureInvalid
    | InvalidClaims(expired: bool, notYetValid: bool)

  /** The claims both generators build for user at time now, expiring lifetime seconds later. */
  function NewClaims(user: User, now: int, lifetime: int): Claims
  {
    Claims(user.id, user.email, Some(now + lifetime), Some(now), Some(now), Issuer)
  }

  function Sign(k: Keyring, claims: Claims): Result<string, JwtError>
  {
    match k.sign(Token("HS256", claims))
    case Some(s) => Ok(s)
    case None => Err(SigningFailed)
  }

  /** GenerateJWT: an HS256 access token for the user, valid for five minutes. */
  function GenerateJWT(k: Keyring, user: User, now: int): Result<string, JwtError>
  {
    Sign(k, NewClaims(user, now, AccessLifetimeSeconds))
  }

  /** GenerateRefreshJWT: an HS256 refresh token for the user, valid for ninety days. */
  function GenerateRefreshJWT(k: Keyring, user: User, now: int): Result<string, JwtError>
  {
    Sign(k, NewClaims(user, now, RefreshLifetimeSeconds))
  }

  /** The time checks of the claims validator: now is before exp and not before nbf; absent claims pass; iat is not checked. */
  predicate Expired(c: Claims, now: int) { c.expiresAt.Some? && !(now < c.expiresAt.value) }

  predicate NotYetValid(c: Claims, now: int) { c.notBefore.Some? && now < c.notBefore.value }

  /**
   * ValidateJWT: parse, reject a non-HMAC method in the key function, check the signature,
   * then the time claims, in that order.
   */
  function ValidateJWT(k: Keyring, s: string, now: int): (r: Result<Claims, JwtError>)
    ensures r.Ok? ==> k.parse(s).Some? && r.value == k.parse(s).value.token.claims
    ensures r.Ok? ==> IsHmac(k.parse(s).value.token.alg) && k.parse(s).value.signatureValid
    ensures r.Ok? ==> !Expired(r.value, now) && !NotYetValid(r.value, now)
    ensures k.parse(s).Some? && !IsHmac(k.parse(s).value.token.alg) ==> r == Err(UnexpectedSigningMethod(k.parse(s).value.token.alg))
  {
    match k.parse(s)
    case None => Err(Malformed)
    case Some(p) =>
      if !IsHmac(p.token.alg) then Err(UnexpectedSigningMethod(p.token.alg))
      else if !p.signatureValid then Err(SignatureInvalid)
      else if Expired(p.token.claims, now) || NotYetValid(p.token.claims, now) then
        Err(InvalidClaims(Expired(p.token.claims, now), NotYetValid(p.token.claims, now)))
      else Ok(p.token.claims)
  }

  /** Both generators put the user's id and email, the issuer and iat = nbf = now into the token. */
  lemma GeneratedClaims(k: Keyring, user: User, now: int, lifetime: int)
    requires lifetime == AccessLifetimeSeconds || lifetime == RefreshLifetimeSeconds
    requires Sound(k) && Sign(k, NewClaims(user, now, lifetime)).Ok?
    ensures var s := Sign(k, NewClaims(user, now, lifetime)).value;
            && k.parse(s).Some?
            && k.parse(s).value.token.alg == "HS256"
            && k.parse(s).value.token.claims.userId == user.id
            && k.parse(s).value.token.claims.email == user.email
            && k.parse(s).value.token.claims.issuer == Issuer
            && k.parse(s).value.token.claims.issuedAt == Some(now)
            && k.parse(s).value.token.claims.notBefore == Some(now)
            && k.parse(s).value.token.claims.expiresAt == Some(now + lifetime)
  {
    var t := Token("HS256", NewClaims(user, now, lifetime));
    assert k.sign(t).Some?;
  }

  /** A signed token validates exactly from its issue time up to, not including, issue + lifetime. */
  lemma ValidityWindow(k: Keyring, user: User, issued: int, lifetime: int, now: int)
    requires Sound(k) && Sign(k, NewClaims(user, issued, lifetime)).Ok?
    ensures var r := ValidateJWT(k, Sign(k, NewClaims(user, issued, lifetime)).value, now);
            && (r.Ok? <==> issued <= now < issued + lifetime)
            && (r.Ok? ==> r.value == NewClaims(user, issued, lifetime))
  {
    var t := Token("HS256", NewClaims(user, issued, lifetime));
    assert k.sign(t).Some?;
    assert k.parse(k.sign(t).value) == Some(Parsed(t, true));
  }

  /** Access tokens are good for five minutes after issue. */
  lemma AccessTokenWindow(k: Keyring, user: User, issued: int, now: int)
    requires Sound(k) && GenerateJWT(k, user, issued).Ok?
    ensures ValidateJWT(k, GenerateJWT(k, user, issued).value, now).Ok? <==> issued <= now < issued + 300
  {
    ValidityWindow(k, user, issued, AccessLifetimeSeconds, now);
  }

  /** Refresh tokens are good for ninety days after issue. */
  lemma RefreshTokenWindow(k: Keyring, user: User, issued: int, now: int)
    requires Sound(k) && GenerateRefreshJWT(k, user, issued).Ok?
    ensures ValidateJWT(k, GenerateRefreshJWT(k, user, issued).value, now).Ok? <==> issued <= now < issued + 7_776_000
  {
    ValidityWindow(k, user, issued, RefreshLifetimeSeconds, now);
  }

  /**
   * Both kinds share one claims type, one algorithm and one secret: a refresh token is accepted
   * wherever an access token is, including five minutes after issue, when the access token
   * issued with it has already expired.
   */
  lemma RefreshTokenPassesAsAccessToken(k: Keyring, user: User, issued: int)
    requires Sound(k) && GenerateJWT(k, user, issued).Ok? && GenerateRefreshJWT(k, user, issued).Ok?
    ensures ValidateJWT(k, GenerateJWT(k, user, issued).value, issued + AccessLifetimeSeconds).Err?
    ensures ValidateJWT(k, GenerateRefreshJWT(k, user, issued).value, issued + AccessLifetimeSeconds).Ok?
    ensures ValidateJWT(k, GenerateRefreshJWT(k, user, issued).value, issued + AccessLifetimeSeconds).value.userId == user.id
  {
    ValidityWindow(k, user, issued, AccessLifetimeSeconds, issued + AccessLifetimeSeconds);
    ValidityWindow(k, user, issued, RefreshLifetimeSeconds, issued + AccessLifetimeSeconds);
  }
}
