/**
 * The server side of a session: AuthMiddleware, which guards every route
 * under /api behind a bearer token (section 2.1 of RFC 6750), and the login
 * route that hands the token out. Both are written twice, in
 * api/handlers/auth.go and in api/main.go, with the same behaviour.
 */
module Auth {
  import opened Wrappers
  import opened Text
  import opened Http
  import opened Jwt

  const NoHeader := "Akses Ditolak. Header Authorization tidak ada."
  const BadFormat := "Akses Ditolak. Format header Authorization salah."
  const Malformed := "Token tidak berformat benar."
  const OutOfTime := "Token sudah kadaluarsa atau belum aktif."
  const BadSignature := "Signature token tidak valid."
  const Invalid := "Token tidak valid."

  /** strings.Split(authHeader, " ") has exactly two parts and the first is "Bearer", compared case-sensitively. */
  predicate BearerFormatOk(header: string) {
    var parts := Split(header, ' ');
    |parts| == 2 && parts[0] == "Bearer"
  }

  /** parts[1]: the text handed to the parser. */
  function BearerToken(header: string): string
    requires BearerFormatOk(header)
  {
    Split(header, ' ')[1]
  }

  /**
   * The format check accepts exactly "Bearer " followed by text without a
   * space (possibly empty), and the token is that text.
   */
  lemma BearerFormat(header: string)
    ensures BearerFormatOk(header) <==> |header| >= 7 && header[..7] == "Bearer " && ' ' !in header[7..]
    ensures BearerFormatOk(header) ==> BearerToken(header) == header[7..]
  {
    if |header| >= 7 && header[..7] == "Bearer " && ' ' !in header[7..] {
      var t := header[7..];
      assert header == "Bearer" + [' '] + t;
      SplitAtFirst("Bearer", ' ', t);
      SplitWithoutSeparator(t, ' ');
    }
    if BearerFormatOk(header) {
      var parts := Split(header, ' ');
      SplitJoin(header, ' ');
      assert Join(parts, [' ']) == parts[0] + ([' '] + parts[1]);
      assert ' ' !in parts[1];
      assert header == "Bearer " + parts[1];
      assert header[7..] == parts[1];
    }
  }

  /** The errors.Is chain of the middleware: malformed first, then the time claims, then the signature. */
  function ParseErrorMessage(matched: set<Sentinel>): string {
    if TokenMalformed in matched then Malformed
    else if TokenExpired in matched || TokenNotValidYet in matched then OutOfTime
    else if TokenSignatureInvalid in matched then BadSignature
    else Invalid
  }

  /** What the middleware decides for a request. */
  datatype Decision = Reject(message: string) | Admit(kaderId: int)

  /**
   * The middleware's decision. `env` is JWT_SECRET_KEY, `decode` what the
   * library decodes from a token's text, `now` the clock.
   */
  function Decide(header: string, env: string, decode: string -> TokenView, now: int): (d: Decision)
    ensures d.Admit? ==> header != "" && BearerFormatOk(header)
    ensures d.Reject? ==> d.message in {NoHeader, BadFormat, Malformed, OutOfTime, BadSignature, Invalid}
  {
    if header == "" then Reject(NoHeader)
    else if !BearerFormatOk(header) then Reject(BadFormat)
    else
      match ParseWithClaims(decode(BearerToken(header)), SecretKey(env), now)
      case Err(matched) => Reject(ParseErrorMessage(matched))
      case Ok(claims) => Admit(claims.kaderId)
  }

  /**
   * Each cause of rejection and its message: no header, a wrong format, a
   * token that does not decode, a non-HMAC or unknown algorithm, a signature
   * made with another key, and a token used outside its time window; a
   * request passes exactly when none of these applies.
   */
  lemma DecisionCases(header: string, env: string, decode: string -> TokenView, now: int)
    ensures header == "" ==> Decide(header, env, decode, now) == Reject(NoHeader)
    ensures header != "" && !BearerFormatOk(header) ==> Decide(header, env, decode, now) == Reject(BadFormat)
    ensures BearerFormatOk(header) ==>
      var view := decode(BearerToken(header));
      var d := Decide(header, env, decode, now);
      (view.Garbled? ==> d == Reject(Malformed))
      && (view.Decoded? && !IsHmac(view.alg) ==> d == Reject(Invalid))
      && (view.Decoded? && IsHmac(view.alg) && view.signedWith != SecretKey(env) ==> d == Reject(BadSignature))
      && ((view.Decoded? && IsHmac(view.alg) && view.signedWith == SecretKey(env)
           && (Expired(view.claims, now) || NotYetValid(view.claims, now))) ==> d == Reject(OutOfTime))
      && (d.Admit? <==> (view.Decoded? && IsHmac(view.alg) && view.signedWith == SecretKey(env)
                         && !Expired(view.claims, now) && !NotYetValid(view.claims, now)))
      && (d.Admit? ==> d.kaderId == view.claims.kaderId)
  {
    if BearerFormatOk(header) {
      assert header != "" by {
        assert Split("", ' ') == [""];
      }
    }
  }

  /** A token issued by the login route, sent as "Bearer <token>", admits its kader for 24 hours. */
  lemma IssuedTokenAdmitted(env: string, kaderId: int, issued: int, now: int, token: string, decode: string -> TokenView)
    requires ' ' !in token
    requires decode(token) == GenerateJwt(env, kaderId, issued)
    requires issued <= now < issued + Day
    ensures Decide("Bearer " + token, env, decode, now) == Admit(kaderId)
  {
    var header := "Bearer " + token;
    assert header[..7] == "Bearer " && header[7..] == token;
    BearerFormat(header);
    IssuedTokenLifetime(env, kaderId, issued, now);
  }

  /** The gin.Context of one request, as far as the middleware touches it. */
  class GinContext {
    var reply: Option<Reply>     // what c.JSON wrote
    var aborted: bool            // c.Abort()
    var kaderId: Option<int>     // c.Set("kaderId", ...)
    var nextCalled: bool         // c.Next()

    constructor()
      ensures reply.None? && !aborted && kaderId.None? && !nextCalled
    {
      reply := None;
      aborted := false;
      kaderId := None;
      nextCalled := false;
    }
  }

  /**
   * AuthMiddleware: every rejection writes 401 with its message and
   * aborts; only an admitted request gets kaderId set and reaches Next.
   */
  method AuthMiddleware(c: GinContext, header: string, env: string, decode: string -> TokenView, now: int)
    modifies c
    ensures Decide(header, env, decode, now).Reject? ==>
      c.reply == Some(Fail(StatusUnauthorized, Decide(header, env, decode, now).message))
      && c.aborted && c.nextCalled == old(c.nextCalled) && c.kaderId == old(c.kaderId)
    ensures Decide(header, env, decode, now).Admit? ==>
      c.kaderId == Some(Decide(header, env, decode, now).kaderId) && c.nextCalled
      && c.reply == old(c.reply) && c.aborted == old(c.aborted)
  {
    if header == "" {
      c.reply := Some(Fail(StatusUnauthorized, NoHeader));
      c.aborted := true;
      return;
    }
    var parts := Split(header, ' ');
    if |parts| != 2 || parts[0] != "Bearer" {
      c.reply := Some(Fail(StatusUnauthorized, BadFormat));
      c.aborted := true;
      return;
    }
    var tokenString := parts[1];
    var secretKey := SecretKey(env);
    var parsed := ParseWithClaims(decode(tokenString), secretKey, now);
    if parsed.Err? {
      var errorMsg := Invalid;
      if TokenMalformed in parsed.error {
        errorMsg := Malformed;
      } else if TokenExpired in parsed.error || TokenNotValidYet in parsed.error {
        errorMsg := OutOfTime;
      } else if TokenSignatureInvalid in parsed.error {
        errorMsg := BadSignature;
      }
      c.reply := Some(Fail(StatusUnauthorized, errorMsg));
      c.aborted := true;
      return;
    }
    c.kaderId := Some(parsed.value.kaderId);
    c.nextCalled := true;
  }

  /** LoginPayload as bound by ShouldBindJSON. */
  datatype LoginPayload = LoginPayload(username: string, password: string)

  /** The kader row the login query scans. */
  datatype KaderRow = KaderRow(id: int, namaLengkap: string, username: string, passwordHash: string)

  const WrongCredentials := "Username atau Password salah"

  /**
   * LoginHandler and the login route of main.go. `row` is the kader found
   * for the username (None for any error of the query), `passwordOk` the
   * bcrypt comparison and `token` the signed token, None when signing fails.
   */
  function Login(body: Option<LoginPayload>, row: Option<KaderRow>, passwordOk: bool, token: Option<string>): (run: Run)
    ensures body.None? <==> run == Run(Fail(StatusBadRequest, "Username dan Password wajib diisi"), [])
    ensures body.Some? ==> run.effects == [Lookup(body.value.username)]
    ensures run.reply.status == StatusOK <==> body.Some? && row.Some? && passwordOk && token.Some?
    ensures run.reply.status == StatusOK ==>
      run.reply.body == LoginJson("Login berhasil!", UserView(row.value.id, row.value.namaLengkap, row.value.username), token.value)
    ensures body.Some? && (row.None? || !passwordOk) ==> run.reply == Fail(StatusUnauthorized, WrongCredentials)
  {
    if body.None? then Run(Fail(StatusBadRequest, "Username dan Password wajib diisi"), [])
    else
      var effects := [Lookup(body.value.username)];
      if row.None? || !passwordOk then Run(Fail(StatusUnauthorized, WrongCredentials), effects)
      else if token.None? then Run(Fail(StatusInternalServerError, "Gagal memproses login."), effects)
      else
        var k := row.value;
        Run(Reply(StatusOK, LoginJson("Login berhasil!", UserView(k.id, k.namaLengkap, k.username), token.value)), effects)
  }

  /**
   * An unknown username and a wrong password get the same reply, and what a
   * successful login returns does not depend on the stored password hash.
   */
  lemma LoginRevealsNothing(p: LoginPayload, row: KaderRow, otherHash: string, passwordOk: bool, token: Option<string>)
    ensures Login(Some(p), None, passwordOk, token) == Login(Some(p), Some(row), false, token)
    ensures Login(Some(p), Some(row), passwordOk, token) == Login(Some(p), Some(row.(passwordHash := otherHash)), passwordOk, token)
  {
  }
}
