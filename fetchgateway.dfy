/**
 * fetchWithAuth from useFetchWithAuth (frontend/src/lib/utils.ts): the one
 * door through which the client's pages call the API. It refuses to send
 * without a token, adds the JSON content type and the bearer token to the
 * caller's headers, ends the session on a 401, and turns every other
 * failure into one generic error. The network is a parameter: the response
 * or rejection that fetch produces.
 */
module FetchGateway {
  import opened Wrappers
  import opened Text
  import opened AuthContext

  /** One entry of a Headers object, in insertion order. */
  datatype Header = Header(name: string, value: string)

  /** The request body, as far as `instanceof FormData` can tell. */
  datatype Body = NoBody | TextBody(text: string) | FormDataBody

  /** RequestInit: the fields the gateway reads, and the rest it forwards untouched. */
  datatype RequestInit = RequestInit(httpMethod: Option<string>, headers: seq<Header>, body: Body, others: map<string, string>)

  /** A thrown value: an Error with its message, or anything else. */
  datatype JsError = ErrorObject(message: string) | OtherThrown

  /** What the awaited fetch produces. */
  datatype FetchOutcome = Responded(status: int) | Rejected(error: JsError)

  /** The side effects of one call, in order. */
  datatype Event = FetchCalled(url: string, init: RequestInit) | LogoutCalled | Pushed(path: string)

  /** How the returned promise settles. */
  datatype Completion = Returned(status: int) | Threw(error: JsError)

  datatype Call = Call(result: Completion, events: seq<Event>)

  const NotLoggedIn := "Anda belum login."
  const SessionInvalid := "Sesi Anda tidak " + "valid" + " atau telah berakhir. Silakan login kembali."
  const ConnectionFailed := "Gagal terhubung ke server."
  const LoginPath := "/login"
  const DashboardPath := "/dashboard"
  const JsonContentType := Header("Content-Type", "application/json")

  /** The router of next/navigation: the paths pushed onto the history. */
  class Router {
    var history: seq<string>

    constructor()
      ensures history == []
    {
      history := [];
    }

    method Push(path: string)
      modifies this
      ensures history == old(history) + [path]
    {
      history := history + [path];
    }

    /** router.replace: the current entry gives way to the path. */
    method Replace(path: string)
      modifies this
      ensures history == (if old(history) == [] then [] else old(history)[..|old(history)| - 1]) + [path]
    {
      history := (if history == [] then [] else history[..|history| - 1]) + [path];
    }
  }

  /**
   * The headers sent: the caller's, then Content-Type unless the body is
   * FormData, then Authorization with the bearer token.
   */
  function OutgoingHeaders(given: seq<Header>, body: Body, token: string): (hs: seq<Header>)
    ensures |hs| == |given| + (if body.FormDataBody? then 1 else 2)
    ensures hs[..|given|] == given
    ensures !body.FormDataBody? ==> hs[|given|] == JsonContentType
    ensures hs[|hs| - 1] == Header("Authorization", "Bearer " + token)
  {
    given + (if body.FormDataBody? then [] else [JsonContentType]) + [Header("Authorization", "Bearer " + token)]
  }

  /** The number of entries with the given name. */
  function Count(hs: seq<Header>, name: string): nat
    decreases |hs|
  {
    if |hs| == 0 then 0 else (if hs[|hs| - 1].name == name then 1 else 0) + Count(hs[..|hs| - 1], name)
  }

  lemma {:induction false} CountAppend(a: seq<Header>, b: seq<Header>, name: string)
    ensures Count(a + b, name) == Count(a, name) + Count(b, name)
    decreases |b|
  {
    if |b| > 0 {
      assert (a + b)[..|a + b| - 1] == a + b[..|b| - 1];
      assert (a + b)[|a + b| - 1] == b[|b| - 1];
      CountAppend(a, b[..|b| - 1], name);
    } else {
      assert a + b == a;
    }
  }

  /**
   * append, not set: one Authorization entry is added to whatever the caller
   * passed, and one Content-Type entry unless the body is FormData, even when
   * the caller already supplied one.
   */
  lemma HeadersAppended(given: seq<Header>, body: Body, token: string)
    ensures Count(OutgoingHeaders(given, body, token), "Authorization") == Count(given, "Authorization") + 1
    ensures Count(OutgoingHeaders(given, body, token), "Content-Type")
            == Count(given, "Content-Type") + (if body.FormDataBody? then 0 else 1)
  {
    var extra := (if body.FormDataBody? then [] else [JsonContentType]) + [Header("Authorization", "Bearer " + token)];
    assert OutgoingHeaders(given, body, token) == given + extra;
    CountAppend(given, extra, "Authorization");
    CountAppend(given, extra, "Content-Type");
    if !body.FormDataBody? {
      assert extra[..1] == [JsonContentType];
      assert extra[..1][..0] == [];
    }
  }

  /** The catch block: an Error whose message includes "valid" is rethrown, anything else becomes the generic error. */
  function Caught(e: JsError): (r: JsError)
    ensures e.ErrorObject? && Contains(e.message, "valid") ==> r == e
    ensures !(e.ErrorObject? && Contains(e.message, "valid")) ==> r == ErrorObject(ConnectionFailed)
  {
    if e.ErrorObject? && Contains(e.message, "valid") then e else ErrorObject(ConnectionFailed)
  }

  /** The whole call, for the token of the render it was created in and the outcome fetch has. */
  function Gateway(token: Option<string>, url: string, options: RequestInit, outcome: FetchOutcome): (c: Call)
    ensures Truthy(token) <==> |c.events| > 0 && c.events[0].FetchCalled?
    ensures Truthy(token) ==> |c.events| > 0 && c.events[0].FetchCalled? && c.events[0].url == url
    ensures LogoutCalled in c.events <==> Truthy(token) && outcome == Responded(401)
    ensures c.result.Returned? <==> Truthy(token) && outcome.Responded? && outcome.status != 401
    ensures c.result.Returned? ==> outcome == Responded(c.result.status)
  {
    if !Truthy(token) then Call(Threw(ErrorObject(NotLoggedIn)), [Pushed(LoginPath)])
    else
      var sent := [FetchCalled(url, options.(headers := OutgoingHeaders(options.headers, options.body, token.value)))];
      match outcome
      case Responded(status) =>
        if status == 401 then Call(Threw(Caught(ErrorObject(SessionInvalid))), sent + [LogoutCalled, Pushed(LoginPath)])
        else Call(Returned(status), sent)
      case Rejected(e) => Call(Threw(Caught(e)), sent)
  }

  /** A text without the first character of `sub` does not include `sub`. */
  lemma {:induction false} MissingFirstChar(s: string, sub: string)
    requires |sub| > 0 && sub[0] !in s
    ensures !Contains(s, sub)
    decreases |s|
  {
    if |s| > 0 {
      assert sub[0] !in s[1..] by {
        forall j | 0 <= j < |s[1..]| ensures s[1..][j] != sub[0] { assert s[1..][j] == s[j + 1]; }
      }
      MissingFirstChar(s[1..], sub);
    }
  }

  /** `sub` occurs right after `p`. */
  lemma ContainsInMiddle(p: string, sub: string, q: string)
    ensures Contains(p + sub + q, sub)
  {
    var s := p + sub + q;
    assert s[|p|..|p| + |sub|] == sub;
    assert OccursAt(s, sub, |p|);
    ContainsIffOccurs(s, sub);
  }

  /** No letter 'v', so no "valid". */
  lemma NotLoggedInLacksValid()
    ensures !Contains(NotLoggedIn, "valid")
  {
    assert 'v' !in NotLoggedIn;
    MissingFirstChar(NotLoggedIn, "valid");
  }

  lemma SessionInvalidHasValid()
    ensures Contains(SessionInvalid, "valid")
  {
    ContainsInMiddle("Sesi Anda tidak ", "valid", " atau telah berakhir. Silakan login kembali.");
  }

  /**
   * Without a token nothing is sent: the user is sent to /login and the call
   * fails with "Anda belum login.". That error is raised before the try; had
   * it been raised inside, the catch would have replaced it.
   */
  lemma NoTokenNoRequest(token: Option<string>, url: string, options: RequestInit, outcome: FetchOutcome)
    requires !Truthy(token)
    ensures Gateway(token, url, options, outcome) == Call(Threw(ErrorObject(NotLoggedIn)), [Pushed(LoginPath)])
    ensures forall e | e in Gateway(token, url, options, outcome).events :: !e.FetchCalled?
    ensures Caught(ErrorObject(NotLoggedIn)) == ErrorObject(ConnectionFailed)
  {
    NotLoggedInLacksValid();
  }

  /**
   * A 401 ends the session: after the request, exactly one logout and one
   * redirect to /login, and the session error reaches the caller unchanged
   * because its message includes "valid".
   */
  lemma UnauthorizedEndsSession(token: string, url: string, options: RequestInit)
    requires token != ""
    ensures var c := Gateway(Some(token), url, options, Responded(401));
      c.result == Threw(ErrorObject(SessionInvalid))
      && |c.events| == 3 && c.events[0].FetchCalled?
      && c.events[1] == LogoutCalled && c.events[2] == Pushed(LoginPath)
  {
    SessionInvalidHasValid();
  }

  /**
   * Any other response is handed back as it is, after exactly one request
   * that carries the caller's options with only the headers replaced.
   */
  lemma OtherResponsesPassThrough(token: string, url: string, options: RequestInit, status: int)
    requires token != "" && status != 401
    ensures var c := Gateway(Some(token), url, options, Responded(status));
      c.result == Returned(status) && |c.events| == 1 && c.events[0].FetchCalled?
      && c.events[0].url == url
      && c.events[0].init.httpMethod == options.httpMethod && c.events[0].init.body == options.body
      && c.events[0].init.others == options.others
      && c.events[0].init.headers == OutgoingHeaders(options.headers, options.body, token)
  {
  }

  /**
   * A rejected fetch surfaces as the generic error, except an Error whose
   * message includes "valid": a transport error such as "Invalid URL" is
   * rethrown as it came.
   */
  lemma RejectionsMasked(token: string, url: string, options: RequestInit, e: JsError)
    requires token != ""
    ensures var c := Gateway(Some(token), url, options, Rejected(e));
      |c.events| == 1 && c.events[0].FetchCalled?
      && (c.result == Threw(e) || c.result == Threw(ErrorObject(ConnectionFailed)))
    ensures Gateway(Some(token), url, options, Rejected(OtherThrown)).result == Threw(ErrorObject(ConnectionFailed))
    ensures Gateway(Some(token), url, options, Rejected(ErrorObject("Invalid URL"))).result == Threw(ErrorObject("Invalid URL"))
  {
    assert "Invalid URL" == "In" + "valid" + " URL";
    ContainsInMiddle("In", "valid", " URL");
  }

  function Pushes(events: seq<Event>): seq<string>
    decreases |events|
  {
    if |events| == 0 then []
    else Pushes(events[..|events| - 1]) + (if events[|events| - 1].Pushed? then [events[|events| - 1].path] else [])
  }

  /**
   * fetchWithAuth. The token is read from the provider, `fetch` is what the
   * network answers; the router and, on a 401, the provider's session are the
   * state it changes.
   */
  method FetchWithAuth(auth: AuthProvider, router: Router, url: string, options: RequestInit, fetch: FetchOutcome)
      returns (result: Completion, ghost events: seq<Event>)
    modifies auth, auth.storage, router
    ensures var c := Gateway(old(auth.authToken), url, options, fetch);
      result == c.result && events == c.events
      && router.history == old(router.history) + Pushes(c.events)
    ensures LogoutCalled in events ==>
      auth.State() == AfterLogout(old(auth.State()))
      && auth.storage.items == Removed(old(auth.storage.items), auth.storage.failing, SessionKeys)
    ensures LogoutCalled !in events ==>
      auth.State() == old(auth.State()) && auth.storage.items == old(auth.storage.items)
  {
    var authToken := auth.authToken;
    if !Truthy(authToken) {
      router.Push(LoginPath);
      events := [Pushed(LoginPath)];
      assert Pushes(events) == Pushes([]) + [LoginPath];
      return Threw(ErrorObject(NotLoggedIn)), events;
    }
    var headers := options.headers;
    if !options.body.FormDataBody? {
      headers := headers + [JsonContentType];
    }
    headers := headers + [Header("Authorization", "Bearer " + authToken.value)];
    var init := options.(headers := headers);
    events := [FetchCalled(url, init)];
    assert Pushes(events) == [] by { assert events[..0] == []; }
    match fetch {
      case Responded(status) =>
        if status == 401 {
          auth.Logout();
          router.Push(LoginPath);
          var before := events;
          events := events + [LogoutCalled];
          assert events[..|events| - 1] == before;
          assert Pushes(events) == [];
          before := events;
          events := events + [Pushed(LoginPath)];
          assert events[..|events| - 1] == before;
          SessionInvalidHasValid();
          result := Threw(ErrorObject(SessionInvalid));
        } else {
          result := Returned(status);
        }
      case Rejected(e) =>
        result := Threw(Caught(e));
    }
  }
}
