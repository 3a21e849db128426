/**
 * The `useAuth` hook (src/hooks/useAuth.ts): start-up verification and the login,
 * registration and logout handlers, each a fixed sequence of store dispatches around a
 * backend call. Calls through the shared client pass its response interceptor;
 * `verifyToken` is not defined by the API wrappers, so its outcome is a plain parameter.
 */
module UseAuth {
  import opened Wrappers
  import opened Js
  import opened KeyValueStore
  import opened AuthSlice
  import opened Navigation
  import opened AuthApi
  import opened ApiClient

  const LoginFallbackMessage := "Login failed"
  const RegisterFallbackMessage := "Registration failed"

  /** What handleLogin and handleRegister dispatch, given what the backend call produced. */
  function AuthenticateDispatches(r: Result<AuthResponse, Thrown>, fallback: string, now: int): (actions: seq<AuthAction>) {
    [SetLoading(true), ClearErrors]
    + (match r
       case Success(resp) => [LoginSuccess(resp.user, resp.token, now)]
       case Failure(e) => [LoginFailure(MessageOf(e, fallback), now)])
    + [SetLoading(false)]
  }

  /** What initializeAuth dispatches: the `logout` reducer runs only if a step threw. */
  function InitializeDispatches(threw: bool): (actions: seq<AuthAction>) {
    [SetLoading(true)] + (if threw then [Logout] else []) + [SetLoading(false)]
  }

  /** What handleLogout dispatches. */
  function LogoutDispatches(): (actions: seq<AuthAction>) {
    [SetLoading(true), SetLoading(false)]
  }

  lemma RunThree(s: AuthState, a: AuthAction, b: AuthAction, c: AuthAction)
    ensures Run(s, [a, b, c]) == Reduce(Reduce(Reduce(s, a), b), c)
  {
    RunSnoc(s, [], a);
    assert [] + [a] == [a];
    RunSnoc(s, [a], b);
    assert [a] + [b] == [a, b];
    RunSnoc(s, [a, b], c);
    assert [a, b] + [c] == [a, b, c];
  }

  lemma RunFour(s: AuthState, a: AuthAction, b: AuthAction, c: AuthAction, d: AuthAction)
    ensures Run(s, [a, b, c, d]) == Reduce(Reduce(Reduce(Reduce(s, a), b), c), d)
  {
    RunThree(s, a, b, c);
    RunSnoc(s, [a, b, c], d);
    assert [a, b, c] + [d] == [a, b, c, d];
  }

  /** A successful login or registration leaves an authenticated, idle store. */
  lemma AuthenticateSucceeds(s: AuthState, resp: AuthResponse, fallback: string, now: int)
    ensures
      var r := Run(s, AuthenticateDispatches(Success(resp), fallback, now));
      && r.isAuthenticated && !r.isLoading && r.error == None
      && r.user == Some(resp.user) && r.token == Some(resp.token)
      && r.loginAttempts == 0 && r.lastAttemptTime == None && r.lastLoginTime == Some(now)
  {
    var ds := AuthenticateDispatches(Success(resp), fallback, now);
    assert ds == [SetLoading(true), ClearErrors, LoginSuccess(resp.user, resp.token, now), SetLoading(false)];
    RunFour(s, SetLoading(true), ClearErrors, LoginSuccess(resp.user, resp.token, now), SetLoading(false));
  }

  /**
   * A failed login or registration leaves the thrown message (or the fallback for a
   * non-Error throw), an idle store, the attempt counted as `loginFailure` counts it, and
   * the session fields as they were.
   */
  lemma AuthenticateFails(s: AuthState, e: Thrown, fallback: string, now: int)
    ensures
      var r := Run(s, AuthenticateDispatches(Failure(e), fallback, now));
      && r.error == Some(if e.Error? then e.message else fallback)
      && !r.isLoading
      && r.loginAttempts == (if AttemptWindowElapsed(s.lastAttemptTime, now) then 1 else s.loginAttempts + 1)
      && r.lastAttemptTime == Some(now)
      && r.user == s.user && r.token == s.token && r.isAuthenticated == s.isAuthenticated
  {
    var msg := MessageOf(e, fallback);
    var ds := AuthenticateDispatches(Failure(e), fallback, now);
    assert ds == [SetLoading(true), ClearErrors, LoginFailure(msg, now), SetLoading(false)];
    RunFour(s, SetLoading(true), ClearErrors, LoginFailure(msg, now), SetLoading(false));
  }

  /** Start-up always ends idle; it resets the store only when a step threw. */
  lemma InitializeEndsIdle(s: AuthState, threw: bool)
    ensures !Run(s, InitializeDispatches(threw)).isLoading
    ensures threw ==> Run(s, InitializeDispatches(threw)) == InitialState
    ensures !threw ==> Run(s, InitializeDispatches(threw)) == s.(isLoading := false, error := None)
  {
    if threw {
      assert InitializeDispatches(threw) == [SetLoading(true), Logout, SetLoading(false)];
      RunThree(s, SetLoading(true), Logout, SetLoading(false));
    } else {
      assert InitializeDispatches(threw) == [SetLoading(true), SetLoading(false)];
      RunSnoc(s, [], SetLoading(true));
      assert [] + [SetLoading(true)] == [SetLoading(true)];
      RunSnoc(s, [SetLoading(true)], SetLoading(false));
    }
  }

  /** handleLogout never ends the local session: only the loading flag and the error change. */
  lemma LogoutKeepsSession(s: AuthState)
    ensures Run(s, LogoutDispatches()) == s.(isLoading := false, error := None)
    ensures Run(s, LogoutDispatches()).isAuthenticated == s.isAuthenticated
  {
    RunSnoc(s, [], SetLoading(true));
    assert [] + [SetLoading(true)] == [SetLoading(true)];
    RunSnoc(s, [SetLoading(true)], SetLoading(false));
    assert [SetLoading(true)] + [SetLoading(false)] == LogoutDispatches();
  }

  class AuthHook {
    /** The hook's `isInitialized` state variable. */
    var isInitialized: bool
    const storage: Storage
    const store: AuthStore
    const nav: Navigator
    /** The backend calls made, in order. */
    ghost var calls: seq<ApiCall>

    ghost predicate Valid()
      reads this, store
    {
      store.Valid()
    }

    constructor (storage: Storage, store: AuthStore, nav: Navigator)
      requires store.Valid()
      ensures Valid()
      ensures this.storage == storage && this.store == store && this.nav == nav
      ensures !isInitialized && calls == []
    {
      this.storage := storage;
      this.store := store;
      this.nav := nav;
      isInitialized := false;
      calls := [];
    }

    /**
     * initializeAuth. `getFault`: outcome of reading the stored token; `verify`: what
     * `verifyToken` resolves to or throws; `logoutResponse` and `removeFault`: the server
     * logout request's outcome and the interceptor's storage removal.
     */
    method InitializeAuth(getFault: Option<Thrown>, verify: Result<bool, Thrown>,
                          logoutResponse: HttpResult<()>, removeFault: Option<Thrown>)
      requires Valid()
      modifies this, storage, store
      ensures Valid() && isInitialized
      ensures
        var hasToken := getFault.None? && Truthy(Get(old(storage.items), AuthTokenKey));
        var logsOut := hasToken && verify == Success(false);
        var threw := getFault.Some? || (hasToken && verify.Failure?)
                     || (logsOut && InterceptedResult(logoutResponse, removeFault).Failure?);
        && calls == old(calls) + (if hasToken then [VerifyTokenCall] else []) + (if logsOut then [LogoutCall] else [])
        && storage.items == (if logsOut then InterceptedItems(old(storage.items), logoutResponse, removeFault)
                             else old(storage.items))
        && store.State() == Run(old(store.State()), InitializeDispatches(threw))
    {
      ghost var s0 := store.State();
      store.Dispatch(SetLoading(true));
      RunSnoc(s0, [], SetLoading(true));
      assert [] + [SetLoading(true)] == [SetLoading(true)];
      ghost var done := [SetLoading(true)];
      var threw := false;
      var token := storage.GetItem(AuthTokenKey, getFault);
      if token.Failure? {
        threw := true;
      } else if Truthy(token.value) {
        calls := calls + [VerifyTokenCall];
        if verify.Failure? {
          threw := true;
        } else if !verify.value {
          calls := calls + [LogoutCall];
          var loggedOut := OnResponse(storage, logoutResponse, removeFault);
          threw := loggedOut.Failure?;
        }
      }
      if threw {
        // the catch block
        store.Dispatch(Logout);
        RunSnoc(s0, done, Logout);
        done := done + [Logout];
      }
      // the finally block
      store.Dispatch(SetLoading(false));
      RunSnoc(s0, done, SetLoading(false));
      done := done + [SetLoading(false)];
      assert done == InitializeDispatches(threw);
      isInitialized := true;
    }

    /** The shared body of handleLogin and handleRegister. */
    method Authenticate(call: ApiCall, response: HttpResult<AuthResponse>, removeFault: Option<Thrown>,
                        fallback: string, now: int) returns (ok: bool)
      requires Valid()
      modifies this, storage, store, nav
      ensures Valid() && isInitialized == old(isInitialized)
      ensures ok <==> response.Ok?
      ensures calls == old(calls) + [call]
      ensures storage.items == InterceptedItems(old(storage.items), response, removeFault)
      ensures store.State() == Run(old(store.State()),
                                   AuthenticateDispatches(InterceptedResult(response, removeFault), fallback, now))
      ensures nav.route == (if ok then Some(MainApp) else old(nav.route))
    {
      ghost var s0 := store.State();
      store.Dispatch(SetLoading(true));
      store.Dispatch(ClearErrors);
      calls := calls + [call];
      var r := OnResponse(storage, response, removeFault);
      var third: AuthAction;
      if r.Success? {
        third := LoginSuccess(r.value.user, r.value.token, now);
        store.Dispatch(third);
        nav.NavigateToMainApp();
        ok := true;
      } else {
        third := LoginFailure(MessageOf(r.error, fallback), now);
        store.Dispatch(third);
        ok := false;
      }
      // the finally block
      store.Dispatch(SetLoading(false));
      RunFour(s0, SetLoading(true), ClearErrors, third, SetLoading(false));
      assert AuthenticateDispatches(r, fallback, now) == [SetLoading(true), ClearErrors, third, SetLoading(false)];
    }

    /** handleLogin: true exactly when the login request succeeds. */
    method HandleLogin(response: HttpResult<AuthResponse>, removeFault: Option<Thrown>, now: int) returns (ok: bool)
      requires Valid()
      modifies this, storage, store, nav
      ensures Valid() && isInitialized == old(isInitialized)
      ensures ok <==> response.Ok?
      ensures calls == old(calls) + [LoginCall]
      ensures storage.items == InterceptedItems(old(storage.items), response, removeFault)
      ensures store.State() == Run(old(store.State()),
                                   AuthenticateDispatches(InterceptedResult(response, removeFault), LoginFallbackMessage, now))
      ensures nav.route == (if ok then Some(MainApp) else old(nav.route))
    {
      ok := Authenticate(LoginCall, response, removeFault, LoginFallbackMessage, now);
    }

    /** handleRegister: as handleLogin, with its own request and fallback message. */
    method HandleRegister(response: HttpResult<AuthResponse>, removeFault: Option<Thrown>, now: int) returns (ok: bool)
      requires Valid()
      modifies this, storage, store, nav
      ensures Valid() && isInitialized == old(isInitialized)
      ensures ok <==> response.Ok?
      ensures calls == old(calls) + [RegisterCall]
      ensures storage.items == InterceptedItems(old(storage.items), response, removeFault)
      ensures store.State() == Run(old(store.State()),
                                   AuthenticateDispatches(InterceptedResult(response, removeFault), RegisterFallbackMessage, now))
      ensures nav.route == (if ok then Some(MainApp) else old(nav.route))
    {
      ok := Authenticate(RegisterCall, response, removeFault, RegisterFallbackMessage, now);
    }

    /** handleLogout: errors are swallowed; navigation to Auth only after a successful call. */
    method HandleLogout(response: HttpResult<()>, removeFault: Option<Thrown>)
      requires Valid()
      modifies this, storage, store, nav
      ensures Valid() && isInitialized == old(isInitialized)
      ensures calls == old(calls) + [LogoutCall]
      ensures storage.items == InterceptedItems(old(storage.items), response, removeFault)
      ensures store.State() == Run(old(store.State()), LogoutDispatches())
      ensures nav.route == (if response.Ok? then Some(Auth) else old(nav.route))
    {
      ghost var s0 := store.State();
      store.Dispatch(SetLoading(true));
      calls := calls + [LogoutCall];
      var r := OnResponse(storage, response, removeFault);
      if r.Success? {
        nav.NavigateToAuth();
      }
      // the finally block
      store.Dispatch(SetLoading(false));
      RunSnoc(s0, [], SetLoading(true));
      assert [] + [SetLoading(true)] == [SetLoading(true)];
      RunSnoc(s0, [SetLoading(true)], SetLoading(false));
      assert [SetLoading(true)] + [SetLoading(false)] == LogoutDispatches();
    }
  }
}
