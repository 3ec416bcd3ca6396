/**
 * JSON Web Tokens as the API issues and checks them: the claim set that
 * GenerateJWT (api/utils/jwt.go, repeated as generateJWT in api/main.go)
 * builds, and the order in which golang-jwt v5's ParseWithClaims rejects a
 * token. A token is seen through what the library decodes from its text:
 * either nothing usable, or a header algorithm, a claim set and the key its
 * signature was made with. HMAC is idealised: a signature verifies under a
 * key exactly when it was made with that key.
 */
module Jwt {
  import opened Wrappers
  import opened Text
  import opened Http

  /** The key used when JWT_SECRET_KEY is empty or unset. */
  const DefaultSecret := "rahasia-banget-jangan-disebar"
  const Issuer := "posyanduku-api"
  /** time.Hour * 24, in seconds: NumericDate has a precision of one second. */
  const Day := 24 * 60 * 60

  /** os.Getenv("JWT_SECRET_KEY") with the development fallback. */
  function SecretKey(env: string): (key: string)
    ensures key != ""
    ensures env == "" ==> key == DefaultSecret
    ensures env != "" ==> key == env
  {
    if env == "" then DefaultSecret else env
  }

  /** The "alg" of a token header: the HMAC family, other algorithms the library knows, or a name it does not. */
  datatype Alg = HS256 | HS384 | HS512 | RS256 | ES256 | NoSignature | UnknownAlg(name: string)

  /** token.Method.(*jwt.SigningMethodHMAC). */
  predicate IsHmac(a: Alg) { a == HS256 || a == HS384 || a == HS512 }

  /** AuthClaims: kader_id plus the registered claims; the time claims are optional in a token. */
  datatype Claims = Claims(kaderId: int, exp: Option<int>, iat: Option<int>, nbf: Option<int>, iss: string, sub: string)

  /**
   * The claims of a token issued at `now` (seconds since the epoch). The
   * source reads the clock three times; one reading stands for all three.
   */
  function IssueClaims(kaderId: int, now: int): (c: Claims)
    ensures c.kaderId == kaderId
    ensures c.exp == Some(now + Day) && c.iat == Some(now) && c.nbf == Some(now)
    ensures c.iss == Issuer
    ensures c.sub == IntToString(kaderId)
  {
    Claims(kaderId, Some(now + Day), Some(now), Some(now), Issuer, IntToString(kaderId))
  }

  /** What the library can decode from a token's text. */
  datatype TokenView =
    | Garbled                                             // not three segments, bad base64 or bad JSON
    | Decoded(alg: Alg, claims: Claims, signedWith: string)

  /** jwt.NewWithClaims(jwt.SigningMethodHS256, claims).SignedString(key), seen through its decoding. */
  function GenerateJwt(env: string, kaderId: int, now: int): (t: TokenView)
    ensures t.Decoded? && t.alg == HS256
    ensures t.signedWith == SecretKey(env)
    ensures t.claims == IssueClaims(kaderId, now)
  {
    Decoded(HS256, IssueClaims(kaderId, now), SecretKey(env))
  }

  /** The subject is kader_id in decimal, and strconv.Atoi reads it back. */
  lemma SubjectRoundTrip(kaderId: int, now: int)
    requires MinInt64 <= kaderId <= MaxInt64
    ensures Atoi(IssueClaims(kaderId, now).sub) == Some(kaderId)
  {
    AtoiItoa(kaderId);
  }

  /** The sentinel errors a failed parse can match with errors.Is. */
  datatype Sentinel = TokenMalformed | TokenUnverifiable | TokenSignatureInvalid | TokenInvalidClaims | TokenExpired | TokenNotValidYet

  /** The Keyfunc of AuthMiddleware: only an HMAC method gets the secret. */
  function KeyFunc(alg: Alg, secret: string): (r: Option<string>)
    ensures r.Some? <==> IsHmac(alg)
    ensures r.Some? ==> r.value == secret
  {
    if IsHmac(alg) then Some(secret) else None
  }

  /** jwt.Validator with its defaults: exp must lie after the time, nbf not after it; iat is not checked. */
  predicate Expired(c: Claims, now: int) { c.exp.Some? && now >= c.exp.value }

  predicate NotYetValid(c: Claims, now: int) { c.nbf.Some? && now < c.nbf.value }

  /**
   * ParseWithClaims: decoding first, then the algorithm lookup and the key
   * function, then the signature, and the claims last.
   */
  function ParseWithClaims(view: TokenView, secret: string, now: int): (r: Result<Claims, set<Sentinel>>)
    ensures view.Garbled? ==> r == Err({TokenMalformed})
    ensures r.Ok? <==> (view.Decoded? && IsHmac(view.alg) && view.signedWith == secret
                        && !Expired(view.claims, now) && !NotYetValid(view.claims, now))
    ensures r.Ok? ==> r.value == view.claims
  {
    match view
    case Garbled => Err({TokenMalformed})
    case Decoded(alg, claims, signedWith) =>
      if alg.UnknownAlg? then Err({TokenUnverifiable})
      else
        match KeyFunc(alg, secret)
        case None => Err({TokenUnverifiable})
        case Some(key) =>
          if signedWith != key then Err({TokenSignatureInvalid})
          else if Expired(claims, now) || NotYetValid(claims, now) then
            Err({TokenInvalidClaims} + (if Expired(claims, now) then {TokenExpired} else {})
                + (if NotYetValid(claims, now) then {TokenNotValidYet} else {}))
          else Ok(claims)
  }

  /** A token the API issued is accepted from the second it was issued until 24 hours later, and not after. */
  lemma IssuedTokenLifetime(env: string, kaderId: int, issued: int, now: int)
    ensures ParseWithClaims(GenerateJwt(env, kaderId, issued), SecretKey(env), now).Ok?
            <==> issued <= now < issued + Day
    ensures issued <= now < issued + Day ==>
      ParseWithClaims(GenerateJwt(env, kaderId, issued), SecretKey(env), now) == Ok(IssueClaims(kaderId, issued))
  {
  }
}
