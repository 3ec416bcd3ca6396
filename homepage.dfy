/**
 * The root page (frontend/src/app/page.tsx): once the session store has
 * finished loading, it replaces itself with the dashboard or the login page.
 */
module HomePage {
  import opened Wrappers
  import opened AuthContext
  import opened FetchGateway


  /** Where the effect sends the user; None while the session is still loading. */
  function RedirectTarget(isLoadingAuth: bool, isLoggedIn: bool): (r: Option<string>)
    ensures r.None? <==> isLoadingAuth
    ensures r == Some(DashboardPath) <==> !isLoadingAuth && isLoggedIn
    ensures r == Some(LoginPath) <==> !isLoadingAuth && !isLoggedIn
  {
    if isLoadingAuth then None
    else if isLoggedIn then Some(DashboardPath)
    else Some(LoginPath)
  }

  /**
   * Nothing happens before the mount effect of the session store has run;
   * after it, the page always leaves, to the dashboard exactly when a
   * non-empty token and id were read back from storage.
   */
  lemma RedirectAfterMount(items: map<string, string>, failing: set<StorageOp>)
    ensures RedirectTarget(Initial.isLoadingAuth, IsLoggedIn(Initial)) == None
    ensures var s := Rehydrated(Initial, items, failing);
      RedirectTarget(s.isLoadingAuth, IsLoggedIn(s))
      == Some(if !ReadFails(failing) && Truthy(Lookup(items, TokenKey)) && Truthy(Lookup(items, KaderIdKey))
              then DashboardPath else LoginPath)
  {
  }

  /** A kader who logged in with a non-empty token, and whose storage works, comes back to the dashboard. */
  lemma ReturningKader(items: map<string, string>, failing: set<StorageOp>, id: int, token: string, nama: string)
    requires token != ""
    requires SetOp(KaderIdKey) !in failing && SetOp(TokenKey) !in failing && SetOp(NamaKey) !in failing
    requires !ReadFails(failing)
    ensures var s := Rehydrated(Initial, Written(items, failing, LoginPairs(id, token, nama)), failing);
      RedirectTarget(s.isLoadingAuth, IsLoggedIn(s)) == Some(DashboardPath)
  {
    LoginRehydrateRoundTrip(items, failing, id, token, nama);
  }

  /** The effect, run after a render with the provider's current state. */
  method RedirectEffect(auth: AuthProvider, router: Router)
    modifies router
    ensures var target := RedirectTarget(auth.isLoadingAuth, auth.LoggedIn());
      target.None? ==> router.history == old(router.history)
    ensures var target := RedirectTarget(auth.isLoadingAuth, auth.LoggedIn());
      target.Some? ==>
        router.history == (if old(router.history) == [] then [] else old(router.history)[..|old(router.history)| - 1]) + [target.value]
  {
    if !auth.isLoadingAuth {
      if auth.LoggedIn() {
        router.Replace(DashboardPath);
      } else {
        router.Replace(LoginPath);
      }
    }
  }
}
