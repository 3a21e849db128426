/**
 * The authentication slice of the Redux store (src/store/slices/authSlice.ts).
 *
 * `Reduce` is the slice's reducer as a function of the state and the dispatched action;
 * `AuthStore` holds the live state as fields and its `Dispatch` assigns them in place,
 * exactly as the reducers do on their draft, with `Reduce` as its specification.
 * The time-reading reducers (`Date.now()`) carry the clock value in their action.
 */
module AuthSlice {
  import opened Wrappers
  import opened Js
  import AppConfig

  datatype User = User(id: string, username: string, email: string, createdAt: string, lastLogin: string)

  /** A `Partial<User>` payload: each field the payload carries. */
  datatype UserPatch = UserPatch(
    id: Option<string>,
    username: Option<string>,
    email: Option<string>,
    createdAt: Option<string>,
    lastLogin: Option<string>)

  datatype AuthState = AuthState(
    user: Option<User>,
    token: Option<string>,
    isLoading: bool,
    error: Option<string>,
    isAuthenticated: bool,
    lastLoginTime: Option<int>,
    loginAttempts: int,
    lastAttemptTime: Option<int>)

  const InitialState := AuthState(None, None, false, None, false, None, 0, None)

  /** The literal `15 * 60 * 1000` after which `loginFailure` restarts the count. */
  const AttemptWindow := 15 * 60 * 1000

  /** The configured lockout duration is the window `loginFailure` hard-codes. */
  lemma LockoutDurationIsAttemptWindow()
    ensures AppConfig.LockoutDuration == AttemptWindow == 900000
    ensures AppConfig.MakeConfig(map[]).authConfig.lockoutDuration == AttemptWindow
  {
  }

  const SessionExpiredMessage := "Session expired. Please login again."

  datatype AuthAction =
    | SetUser(newUser: Option<User>)
    | SetToken(newToken: Option<string>)
    | SetLoading(loading: bool)
    | SetError(newError: Option<string>)
    | LoginAttempt(now: int)
    | LoginSuccess(user: User, token: string, now: int)
    | LoginFailure(message: string, now: int)
    | SessionExpired
    | UpdateUserProfile(patch: UserPatch)
    | ClearErrors
    | Logout

  /**
   * The invariant every reducer keeps: the attempt counter is never negative, and the
   * session is marked authenticated only while a user or a non-empty token is held.
   */
  predicate Inv(s: AuthState) {
    && s.loginAttempts >= 0
    && (s.isAuthenticated ==> s.user.Some? || Truthy(s.token))
  }

  /** The guard of `loginFailure`: a (truthy) previous attempt more than the window ago. */
  predicate AttemptWindowElapsed(lastAttemptTime: Option<int>, now: int) {
    TruthyNumber(lastAttemptTime) && now - lastAttemptTime.value > AttemptWindow
  }

  /** `{...user, ...patch, id, createdAt, lastLogin}` with the last three taken from `user`. */
  function MergeProfile(u: User, p: UserPatch): (r: User)
    ensures r.id == u.id && r.createdAt == u.createdAt && r.lastLogin == u.lastLogin
    ensures p.username.Some? ==> r.username == p.username.value
    ensures p.username.None? ==> r.username == u.username
    ensures p.email.Some? ==> r.email == p.email.value
    ensures p.email.None? ==> r.email == u.email
  {
    User(
      u.id,
      if p.username.Some? then p.username.value else u.username,
      if p.email.Some? then p.email.value else u.email,
      u.createdAt,
      u.lastLogin)
  }

  /** The slice reducer. */
  function Reduce(s: AuthState, a: AuthAction): (r: AuthState)
    ensures Inv(s) ==> Inv(r)
    // the attempt counter is kept, advanced by one, or restarted
    ensures r.loginAttempts in {s.loginAttempts, s.loginAttempts + 1, 0, 1}
  {
    match a
    case SetUser(u) =>
      s.(user := u, isAuthenticated := u.Some?, error := if u.Some? then None else s.error)
    case SetToken(t) =>
      s.(token := t, isAuthenticated := Truthy(t), error := if Truthy(t) then None else s.error)
    case SetLoading(b) =>
      s.(isLoading := b, error := if b then None else s.error)
    case SetError(e) =>
      s.(error := e, isLoading := if Truthy(e) then false else s.isLoading)
    case LoginAttempt(now) =>
      s.(loginAttempts := s.loginAttempts + 1, lastAttemptTime := Some(now), error := None)
    case LoginSuccess(u, t, now) =>
      s.(user := Some(u), token := Some(t), isAuthenticated := true, lastLoginTime := Some(now),
         loginAttempts := 0, lastAttemptTime := None, error := None, isLoading := false)
    case LoginFailure(msg, now) =>
      s.(error := Some(msg), isLoading := false,
         loginAttempts := if AttemptWindowElapsed(s.lastAttemptTime, now) then 1 else s.loginAttempts + 1,
         lastAttemptTime := Some(now))
    case SessionExpired =>
      s.(user := None, token := None, isAuthenticated := false, error := Some(SessionExpiredMessage),
         lastLoginTime := None)
    case UpdateUserProfile(p) =>
      if s.user.Some? then s.(user := Some(MergeProfile(s.user.value, p))) else s
    case ClearErrors =>
      s.(error := None)
    case Logout =>
      InitialState
  }

  /** The state after dispatching `actions` in order. */
  function Run(s: AuthState, actions: seq<AuthAction>): (r: AuthState)
    decreases |actions|
  {
    if actions == [] then s else Run(Reduce(s, actions[0]), actions[1..])
  }

  lemma {:induction false} RunConcat(s: AuthState, xs: seq<AuthAction>, ys: seq<AuthAction>)
    ensures Run(s, xs + ys) == Run(Run(s, xs), ys)
    decreases |xs|
  {
    if xs == [] {
      assert xs + ys == ys;
    } else {
      assert (xs + ys)[0] == xs[0];
      assert (xs + ys)[1..] == xs[1..] + ys;
      RunConcat(Reduce(s, xs[0]), xs[1..], ys);
    }
  }

  /** Dispatching one more action applies the reducer to the state reached so far. */
  lemma RunSnoc(s: AuthState, xs: seq<AuthAction>, a: AuthAction)
    ensures Run(s, xs + [a]) == Reduce(Run(s, xs), a)
  {
    RunConcat(s, xs, [a]);
    assert [a][1..] == [];
  }

  /** Every state reachable by dispatches from a state that keeps the invariant keeps it. */
  lemma {:induction false} RunKeepsInvariant(s: AuthState, actions: seq<AuthAction>)
    requires Inv(s)
    ensures Inv(Run(s, actions))
    decreases |actions|
  {
    if actions != [] {
      RunKeepsInvariant(Reduce(s, actions[0]), actions[1..]);
    }
  }

  lemma ReachableStatesKeepInvariant(actions: seq<AuthAction>)
    ensures Inv(Run(InitialState, actions))
    ensures Run(InitialState, actions).loginAttempts >= 0
  {
    RunKeepsInvariant(InitialState, actions);
  }

  /** Failures each at most one window after the previous attempt only ever add one. */
  function Failures(times: seq<int>, message: string): (r: seq<AuthAction>)
    ensures |r| == |times|
    ensures forall i :: 0 <= i < |times| ==> r[i] == LoginFailure(message, times[i])
  {
    seq(|times|, i requires 0 <= i < |times| => LoginFailure(message, times[i]))
  }

  lemma {:induction false} ConsecutiveFailuresAccumulate(s: AuthState, times: seq<int>, message: string)
    requires |times| > 0
    requires s.lastAttemptTime.Some? ==> times[0] - s.lastAttemptTime.value <= AttemptWindow
    requires forall i :: 0 < i < |times| ==> times[i] - times[i - 1] <= AttemptWindow
    ensures Run(s, Failures(times, message)).loginAttempts == s.loginAttempts + |times|
    ensures Run(s, Failures(times, message)).lastAttemptTime == Some(times[|times| - 1])
    ensures Run(s, Failures(times, message)).error == Some(message)
    ensures !Run(s, Failures(times, message)).isLoading
    decreases |times|
  {
    var fs := Failures(times, message);
    var s1 := Reduce(s, fs[0]);
    assert s1.loginAttempts == s.loginAttempts + 1 && s1.lastAttemptTime == Some(times[0]);
    if |times| == 1 {
      assert fs[1..] == [];
    } else {
      var rest := times[1..];
      assert fs[1..] == Failures(rest, message);
      forall i | 0 < i < |rest|
        ensures rest[i] - rest[i - 1] <= AttemptWindow
      {
        assert rest[i] == times[i + 1] && rest[i - 1] == times[i];
      }
      ConsecutiveFailuresAccumulate(s1, rest, message);
    }
  }

  /** A failure more than the window after a recorded attempt restarts the count at one. */
  lemma FailureAfterWindowRestarts(s: AuthState, message: string, now: int)
    requires s.lastAttemptTime.Some? && s.lastAttemptTime.value != 0
    requires now - s.lastAttemptTime.value > AttemptWindow
    ensures Reduce(s, LoginFailure(message, now)).loginAttempts == 1
  {
  }

  lemma SetUserTracksPayload(s: AuthState, u: Option<User>)
    ensures Reduce(s, SetUser(u)).user == u
    ensures Reduce(s, SetUser(u)).isAuthenticated <==> u.Some?
    ensures u.Some? ==> Reduce(s, SetUser(u)).error == None
    ensures u.None? ==> Reduce(s, SetUser(u)).error == s.error
    ensures Reduce(s, SetUser(u)).(user := s.user, isAuthenticated := s.isAuthenticated, error := s.error) == s
  {
  }

  lemma SetTokenTracksPayload(s: AuthState, t: Option<string>)
    ensures Reduce(s, SetToken(t)).token == t
    ensures Reduce(s, SetToken(t)).isAuthenticated <==> t.Some? && t.value != ""
    ensures Truthy(t) ==> Reduce(s, SetToken(t)).error == None
    ensures !Truthy(t) ==> Reduce(s, SetToken(t)).error == s.error
    ensures Reduce(s, SetToken(t)).(token := s.token, isAuthenticated := s.isAuthenticated, error := s.error) == s
  {
  }

  lemma SetLoadingClearsErrorWhenStarting(s: AuthState, b: bool)
    ensures Reduce(s, SetLoading(b)).isLoading == b
    ensures Reduce(s, SetLoading(b)).error == (if b then None else s.error)
    ensures Reduce(s, SetLoading(b)).(isLoading := s.isLoading, error := s.error) == s
  {
  }

  lemma SetErrorStopsLoading(s: AuthState, e: Option<string>)
    ensures Reduce(s, SetError(e)).error == e
    ensures Truthy(e) ==> !Reduce(s, SetError(e)).isLoading
    ensures !Truthy(e) ==> Reduce(s, SetError(e)).isLoading == s.isLoading
    ensures Reduce(s, SetError(e)).(isLoading := s.isLoading, error := s.error) == s
  {
  }

  lemma LoginAttemptCounts(s: AuthState, now: int)
    ensures Reduce(s, LoginAttempt(now)).loginAttempts == s.loginAttempts + 1
    ensures Reduce(s, LoginAttempt(now)).lastAttemptTime == Some(now)
    ensures Reduce(s, LoginAttempt(now)).error == None
    ensures Reduce(s, LoginAttempt(now)).(loginAttempts := s.loginAttempts, lastAttemptTime := s.lastAttemptTime, error := s.error) == s
  {
  }

  lemma LoginSuccessEstablishesSession(s: AuthState, u: User, t: string, now: int)
    ensures
      var r := Reduce(s, LoginSuccess(u, t, now));
      && r.isAuthenticated && r.user == Some(u) && r.token == Some(t)
      && r.lastLoginTime == Some(now)
      && r.loginAttempts == 0 && r.lastAttemptTime == None
      && r.error == None && !r.isLoading
  {
  }

  lemma LoginFailureCountsAttempts(s: AuthState, msg: string, now: int)
    ensures
      var r := Reduce(s, LoginFailure(msg, now));
      && r.loginAttempts == (if TruthyNumber(s.lastAttemptTime) && now - s.lastAttemptTime.value > 900000
                             then 1 else s.loginAttempts + 1)
      && r.lastAttemptTime == Some(now) && r.error == Some(msg) && !r.isLoading
      && r.user == s.user && r.token == s.token && r.isAuthenticated == s.isAuthenticated
      && r.lastLoginTime == s.lastLoginTime
  {
  }

  /** A recorded attempt at time 0 is falsy and so never restarts the count. */
  lemma AttemptAtTimeZeroNeverRestarts(s: AuthState, msg: string, now: int)
    requires s.lastAttemptTime == Some(0)
    ensures Reduce(s, LoginFailure(msg, now)).loginAttempts == s.loginAttempts + 1
  {
  }

  lemma SessionExpiredKeepsAttempts(s: AuthState)
    ensures
      var r := Reduce(s, SessionExpired);
      && r.user == None && r.token == None && !r.isAuthenticated && r.lastLoginTime == None
      && r.error == Some("Session expired. Please login again.")
      && r.loginAttempts == s.loginAttempts && r.lastAttemptTime == s.lastAttemptTime
      && r.isLoading == s.isLoading
  {
  }

  lemma UpdateUserProfileKeepsIdentity(s: AuthState, p: UserPatch)
    ensures s.user.None? ==> Reduce(s, UpdateUserProfile(p)) == s
    ensures s.user.Some? ==>
      var r := Reduce(s, UpdateUserProfile(p));
      && r.user.Some?
      && r.user.value.id == s.user.value.id
      && r.user.value.createdAt == s.user.value.createdAt
      && r.user.value.lastLogin == s.user.value.lastLogin
      && r.user.value.username == (if p.username.Some? then p.username.value else s.user.value.username)
      && r.user.value.email == (if p.email.Some? then p.email.value else s.user.value.email)
      && r.(user := s.user) == s
  {
  }

  lemma ClearErrorsOnlyClearsError(s: AuthState)
    ensures Reduce(s, ClearErrors) == s.(error := None)
    ensures Reduce(Reduce(s, ClearErrors), ClearErrors) == Reduce(s, ClearErrors)
  {
  }

  lemma LogoutResets(s: AuthState, t: AuthState)
    ensures Reduce(s, Logout) == InitialState
    ensures Reduce(s, Logout) == Reduce(t, Logout)
    ensures !Reduce(s, Logout).isAuthenticated && Reduce(s, Logout).loginAttempts == 0
  {
  }

  /** The store can be marked authenticated while it holds no user: a token alone suffices. */
  lemma TokenAloneAuthenticates(t: string)
    requires t != ""
    ensures Reduce(InitialState, SetToken(Some(t))).isAuthenticated
    ensures Reduce(InitialState, SetToken(Some(t))).user == None
  {
  }

  /** The live `auth` slice of the store. */
  class AuthStore {
    var user: Option<User>
    var token: Option<string>
    var isLoading: bool
    var error: Option<string>
    var isAuthenticated: bool
    var lastLoginTime: Option<int>
    var loginAttempts: int
    var lastAttemptTime: Option<int>

    function State(): (s: AuthState)
      reads this
    {
      AuthState(user, token, isLoading, error, isAuthenticated, lastLoginTime, loginAttempts, lastAttemptTime)
    }

    ghost predicate Valid()
      reads this
    {
      Inv(State())
    }

    constructor ()
      ensures State() == InitialState && Valid()
    {
      user, token, isLoading, error := None, None, false, None;
      isAuthenticated, lastLoginTime, loginAttempts, lastAttemptTime := false, None, 0, None;
    }

    /** `store.dispatch(a)`: run the matching reducer on the state in place. */
    method Dispatch(a: AuthAction)
      requires Valid()
      modifies this
      ensures Valid()
      ensures State() == Reduce(old(State()), a)
    {
      match a
      case SetUser(u) =>
        user := u;
        isAuthenticated := u.Some?;
        if u.Some? { error := None; }
      case SetToken(t) =>
        token := t;
        isAuthenticated := Truthy(t);
        if Truthy(t) { error := None; }
      case SetLoading(b) =>
        isLoading := b;
        if b { error := None; }
      case SetError(e) =>
        error := e;
        if Truthy(e) { isLoading := false; }
      case LoginAttempt(now) =>
        loginAttempts := loginAttempts + 1;
        lastAttemptTime := Some(now);
        error := None;
      case LoginSuccess(u, t, now) =>
        user := Some(u);
        token := Some(t);
        isAuthenticated := true;
        lastLoginTime := Some(now);
        loginAttempts := 0;
        lastAttemptTime := None;
        error := None;
        isLoading := false;
      case LoginFailure(msg, now) =>
        error := Some(msg);
        isLoading := false;
        if AttemptWindowElapsed(lastAttemptTime, now) {
          loginAttempts := 1;
        } else {
          loginAttempts := loginAttempts + 1;
        }
        lastAttemptTime := Some(now);
      case SessionExpired =>
        user := None;
        token := None;
        isAuthenticated := false;
        error := Some(SessionExpiredMessage);
        lastLoginTime := None;
      case UpdateUserProfile(p) =>
        if user.Some? {
          user := Some(MergeProfile(user.value, p));
        }
      case ClearErrors =>
        error := None;
      case Logout =>
        user, token, isLoading, error := InitialState.user, InitialState.token, InitialState.isLoading, InitialState.error;
        isAuthenticated, lastLoginTime := InitialState.isAuthenticated, InitialState.lastLoginTime;
        loginAttempts, lastAttemptTime := InitialState.loginAttempts, InitialState.lastAttemptTime;
    }
  }
}
