/**
 * The login screen's submit handler (frontend/src/components/forms/LoginForm.tsx):
 * it posts the credentials to /api/login, checks that the reply carries
 * everything the session needs, stores the session and goes to the
 * dashboard, or shows one error message.
 */
module LoginForm {
  import opened Wrappers
  import opened AuthContext
  import opened FetchGateway
  import Http
  import Auth

  const LoginUrl := "http://localhost:8080/api/login"
  const LoginFailed := "Login gagal"
  const Incomplete := "Token atau data user tidak lengkap dari server."
  const CannotConnect := "Tidak dapat terhubung ke server."

  /** The user object of the reply, as far as the handler reads it. */
  datatype UserData = UserData(id: Option<int>, namaLengkap: Option<string>)

  /** The parsed JSON body: the fields the handler reads, each possibly absent. */
  datatype LoginData = LoginData(error: Option<string>, token: Option<string>, user: Option<UserData>)

  /** What the two awaits produce: fetch rejects, or it answers and response.json() parses the body or rejects. */
  datatype LoginResponse = NetworkFailure(err: JsError) | Answered(ok: bool, json: Result<LoginData, JsError>)

  /** The request the handler sends. */
  datatype LoginRequest = LoginRequest(url: string, httpMethod: string, headers: seq<Header>, username: string, password: string)

  /** How a submission ends: the arguments given to login, or the message shown. */
  datatype Outcome = SignedIn(id: int, token: string, nama: string) | Failed(message: string)

  /** The message the catch block shows for a thrown value. */
  function Message(e: JsError): (m: string)
    ensures e.ErrorObject? ==> m == e.message
    ensures e.OtherThrown? ==> m == CannotConnect
  {
    if e.ErrorObject? then e.message else CannotConnect
  }

  /** data.token && data.user && data.user.id && data.user.nama_lengkap: an id of 0 and empty strings count as missing. */
  predicate Complete(data: LoginData) {
    Truthy(data.token) && data.user.Some? && data.user.value.id.Some? && data.user.value.id.value != 0
    && Truthy(data.user.value.namaLengkap)
  }

  /** What a submission ends in: login is called only with a non-zero id and a non-empty token and name. */
  function SubmitOutcome(r: LoginResponse): (o: Outcome)
    ensures o.SignedIn? ==> r.Answered? && r.ok && r.json.Ok? && Complete(r.json.value)
    ensures o.SignedIn? ==> o.id != 0 && o.token != "" && o.nama != ""
  {
    match r
    case NetworkFailure(e) => Failed(Message(e))
    case Answered(ok, json) =>
      match json
      case Err(e) => Failed(Message(e))
      case Ok(data) =>
        if !ok then Failed(if Truthy(data.error) then data.error.value else LoginFailed)
        else if Complete(data) then SignedIn(data.user.value.id.value, data.token.value, data.user.value.namaLengkap.value)
        else Failed(Incomplete)
  }

  /**
   * A submission signs in exactly when the response is ok, its body parses
   * and it is complete; login then receives the reply's own id, token and name.
   */
  lemma SignInCases(r: LoginResponse)
    ensures SubmitOutcome(r).SignedIn? <==> r.Answered? && r.ok && r.json.Ok? && Complete(r.json.value)
    ensures SubmitOutcome(r).SignedIn? ==>
      var d := r.json.value;
      SubmitOutcome(r) == SignedIn(d.user.value.id.value, d.token.value, d.user.value.namaLengkap.value)
    ensures r.Answered? && !r.ok && r.json.Ok? ==>
      SubmitOutcome(r) == Failed(if Truthy(r.json.value.error) then r.json.value.error.value else LoginFailed)
    ensures r.NetworkFailure? && r.err.ErrorObject? ==> SubmitOutcome(r) == Failed(r.err.message)
    ensures r.NetworkFailure? && r.err.OtherThrown? ==> SubmitOutcome(r) == Failed(CannotConnect)
    ensures r.Answered? && r.json.Err? ==> SubmitOutcome(r) == Failed(Message(r.json.error))
  {
  }

  /** The API's reply as the client parses it: ok for a 2xx status, and the JSON fields the handler reads. */
  function ClientView(reply: Http.Reply): (r: LoginResponse)
    ensures r.Answered? && r.json.Ok?
    ensures r.ok <==> 200 <= reply.status <= 299
  {
    var data := match reply.body
      case ErrorJson(msg) => LoginData(Some(msg), None, None)
      case LoginJson(_, user, token) => LoginData(None, Some(token), Some(UserData(Some(user.id), Some(user.namaLengkap))))
      case _ => LoginData(None, None, None);
    Answered(200 <= reply.status <= 299, Ok(data))
  }

  /**
   * Client and server together: a successful login of the API signs the
   * client in with the kader's id, the token and the full name, unless the id
   * is 0 or the name or the token is empty; a refused login shows the API's
   * message.
   */
  lemma ServerLoginReachesClient(p: Auth.LoginPayload, row: Auth.KaderRow, passwordOk: bool, token: string)
    ensures var reply := Auth.Login(Some(p), Some(row), passwordOk, Some(token)).reply;
      (SubmitOutcome(ClientView(reply)) == SignedIn(row.id, token, row.namaLengkap)
       <==> passwordOk && row.id != 0 && row.namaLengkap != "" && token != "")
    ensures passwordOk && (row.id == 0 || row.namaLengkap == "" || token == "") ==>
      SubmitOutcome(ClientView(Auth.Login(Some(p), Some(row), passwordOk, Some(token)).reply)) == Failed(Incomplete)
    ensures !passwordOk ==>
      SubmitOutcome(ClientView(Auth.Login(Some(p), Some(row), passwordOk, Some(token)).reply)) == Failed(Auth.WrongCredentials)
  {
  }

  /** The form's state. */
  class Form {
    var username: string
    var password: string
    var error: string
    var isLoading: bool
    /** Every value given to setError and setIsLoading, in order. */
    ghost var errorTrace: seq<string>
    ghost var loadingTrace: seq<bool>

    constructor()
      ensures username == "" && password == "" && error == "" && !isLoading
      ensures errorTrace == [] && loadingTrace == []
    {
      username := "";
      password := "";
      error := "";
      isLoading := false;
      errorTrace := [];
      loadingTrace := [];
    }

    /**
     * handleSubmit. `response` is what the request yields. The error is
     * cleared and loading set before the request; loading ends on every path.
     */
    method HandleSubmit(auth: AuthProvider, router: Router, response: LoginResponse) returns (request: LoginRequest)
      modifies this, auth, auth.storage, router
      ensures request == LoginRequest(LoginUrl, "POST", [JsonContentType], old(username), old(password))
      ensures username == old(username) && password == old(password)
      ensures !isLoading && loadingTrace == old(loadingTrace) + [true, false]
      ensures SubmitOutcome(response).SignedIn? ==>
        var o := SubmitOutcome(response);
        error == "" && errorTrace == old(errorTrace) + [""]
        && auth.State() == AfterLogin(old(auth.State()), o.id, o.token, o.nama)
        && auth.storage.items == Written(old(auth.storage.items), auth.storage.failing, LoginPairs(o.id, o.token, o.nama))
        && router.history == old(router.history) + [DashboardPath]
      ensures SubmitOutcome(response).Failed? ==>
        error == SubmitOutcome(response).message && errorTrace == old(errorTrace) + ["", error]
        && auth.State() == old(auth.State()) && auth.storage.items == old(auth.storage.items)
        && router.history == old(router.history)
    {
      error := "";
      errorTrace := errorTrace + [""];
      isLoading := true;
      loadingTrace := loadingTrace + [true];
      request := LoginRequest(LoginUrl, "POST", [JsonContentType], username, password);
      var thrown: Option<JsError> := None;
      match response {
        case NetworkFailure(e) =>
          thrown := Some(e);
        case Answered(ok, json) =>
          match json {
            case Err(e) =>
              thrown := Some(e);
            case Ok(data) =>
              if !ok {
                thrown := Some(ErrorObject(if Truthy(data.error) then data.error.value else LoginFailed));
              } else if Complete(data) {
                auth.Login(data.user.value.id.value, data.token.value, data.user.value.namaLengkap.value);
                router.Push(DashboardPath);
              } else {
                thrown := Some(ErrorObject(Incomplete));
              }
          }
      }
      if thrown.Some? {
        var message := CannotConnect;
        if thrown.value.ErrorObject? {
          message := thrown.value.message;
        }
        error := message;
        errorTrace := errorTrace + [message];
      }
      isLoading := false;
      loadingTrace := loadingTrace + [false];
    }
  }
}
