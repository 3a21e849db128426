# Session and authentication state of the Lumenix mobile client

This project models the client-side session machinery of the Lumenix React Native app in Dafny and proves properties of the model. The modelled parts are:

- the token manager: the freshness check of an access token's `exp` claim, the single-flight refresh through its `refreshPromise` slot, and the forced logout taken when a refresh fails;
- the Redux `auth` and `ui` slices and their reducers;
- the synchroniser between the Firebase sign-in state and the local session;
- the request and response interceptors of the shared axios client;
- the `useAuth` hook's start-up check and its login, registration and logout handlers;
- the configuration object.

Each collaborator is explicit state or a parameter:

- AsyncStorage is a `Storage` object whose `items` map the methods reassign. Every storage operation takes the rejection it is to observe as `fault`; an operation that rejects changes nothing.
- The Redux store's `auth` slice is an `AuthStore` object. Its `Dispatch` assigns the state's fields in place, as the reducers do on their draft. Its specification is the pure reducer `AuthSlice.Reduce`, and `AuthSlice.Run` folds a sequence of dispatches.
- Navigation is a `Navigator` whose `route` records the root route last requested (`Auth` or `MainApp`).
- `Date.now()` is a `now` value. The time-reading reducers carry it inside their action.
- Backend, Firebase and token-decoding results are parameters: `HttpResult` for calls through the shared client, and `Result` for the others.
- For `parseToken`, `token.split('.')[1]` is modelled exactly. `atob` followed by `JSON.parse` is an abstract `decode: string -> Option<Claims>`.
- A pending refresh promise is a `Promise` object. Its `result` is filled in when the refresh settles, so every caller holding it sees the same outcome.
- Singletons are explicitly constructed objects that share the same `Storage`, `AuthStore` and `Navigator`.

JavaScript semantics kept explicit: string truthiness (`Js.Truthy`: present and non-empty), number truthiness of `lastAttemptTime` (`Js.TruthyNumber`: a recorded time of 0 counts as absent), `||` with a fallback (`Js.Or`), and `error instanceof Error ? error.message : fallback` (`Js.MessageOf`).

Some behaviour one might expect of such a client is absent from the code, and the model follows the code:

- The code has no rate limiter, no queue of requests waiting on a refresh, and no replay after a 401. `maxLoginAttempts` and `lockoutDuration` are defined but nothing reads them. The attempt counter only counts: `AuthSlice.ConsecutiveFailuresAccumulate` shows it passing 5 with nothing blocking.
- A successful refresh stores only `auth_token`; `refresh_token` is left as it was. A 401 removes only `auth_token`.
- `handleLogin` and `handleRegister` put the token in the store but never in storage. `handleLogout` never dispatches `logout`, so the local session survives it (`UseAuth.LogoutKeepsSession`).
- `isAuthenticated` is not "user and session both present". A token alone raises it (`AuthSlice.TokenAloneAuthenticates`). What every reducer keeps is the weaker `AuthSlice.Inv`.
- `authAPI.verifyToken` and `authAPI.loginWithFirebase` are called but not defined in `src/services/auth/auth.ts`. Their outcomes, including a throw, are parameters.

## Model

| member | source | states |
|---|---|---|
| AppConfig.MakeConfig | src/config/index.ts:16-32 | a set, non-empty `REACT_APP_API_URL` wins; otherwise the production URL exactly when `REACT_APP_ENV` is 'production', else the development URL; the URL, env and version are never empty; the two flags are never both true; the auth constants are 3600000, 300000, 5 and 900000 ms, and tokenExpiration exceeds refreshThreshold |
| AppConfig.UnsetEnvironmentIsNeitherFlagged | src/config/index.ts:21-25 | with `REACT_APP_ENV` unset, `env` is 'development', yet neither `isDevelopment` nor `isProduction` holds, and the development URL is used |
| AppConfig.NonProductionUsesDevUrl | src/config/index.ts:16-21 | any `REACT_APP_ENV` other than 'production' (and no `REACT_APP_API_URL`) selects the development URL, which defaults to localhost |
| AuthSlice.Reduce | src/store/slices/authSlice.ts:23-127 | every reducer keeps `loginAttempts >= 0` and `isAuthenticated ==> user present or token truthy`; the attempt counter is only kept, advanced by one, or restarted at 0 or 1 |
| AuthSlice.LockoutDurationIsAttemptWindow | src/config/index.ts:30 | the configured `lockoutDuration` equals the 15-minute literal window that `loginFailure` uses (src/store/slices/authSlice.ts:89) |
| AuthSlice.AuthStore.constructor | src/store/slices/authSlice.ts:23-32 | the store starts in `initialState` and satisfies the invariant |
| AuthSlice.AuthStore.Dispatch | src/store/slices/authSlice.ts:33-128 | dispatching an action assigns the fields in place so that the new state is the reducer applied to the old one, and the invariant is kept |
| AuthSlice.RunKeepsInvariant | src/store/slices/authSlice.ts:33-128 | any sequence of dispatches from a state satisfying the invariant ends in a state that satisfies it |
| AuthSlice.ReachableStatesKeepInvariant | src/store/slices/authSlice.ts:23-128 | every state reachable from `initialState` satisfies the invariant, in particular `loginAttempts >= 0` |
| AuthSlice.SetUserTracksPayload | src/store/slices/authSlice.ts:38-44 | `setUser(u)` stores `u`; `isAuthenticated` holds iff `u` is non-null; `error` is cleared only for a non-null `u`; nothing else changes |
| AuthSlice.SetTokenTracksPayload | src/store/slices/authSlice.ts:46-52 | `setToken(t)` stores `t`; `isAuthenticated` holds iff `t` is present and non-empty; `error` is cleared only then; nothing else changes |
| AuthSlice.SetLoadingClearsErrorWhenStarting | src/store/slices/authSlice.ts:54-59 | `setLoading(true)` clears `error`; `setLoading(false)` leaves it; nothing else changes |
| AuthSlice.SetErrorStopsLoading | src/store/slices/authSlice.ts:61-66 | `setError(e)` stores `e`; a truthy `e` forces `isLoading` false, otherwise `isLoading` is kept |
| AuthSlice.LoginAttemptCounts | src/store/slices/authSlice.ts:68-72 | `loginAttempt` adds one attempt, records `now` and clears `error`; nothing else changes |
| AuthSlice.LoginSuccessEstablishesSession | src/store/slices/authSlice.ts:74-83 | after `loginSuccess` the store is authenticated with the payload's user and token, `lastLoginTime = now`, zero attempts, no last attempt time, no error, not loading |
| AuthSlice.LoginFailureCountsAttempts | src/store/slices/authSlice.ts:85-96 | `loginFailure` restarts the count at 1 when a truthy last attempt lies more than 900000 ms back, else adds one; it records `now`, the message and `isLoading = false`, and leaves the session fields alone |
| AuthSlice.AttemptAtTimeZeroNeverRestarts | src/store/slices/authSlice.ts:89 | a last attempt recorded at time 0 is falsy, so the count never restarts |
| AuthSlice.FailureAfterWindowRestarts | src/store/slices/authSlice.ts:89-91 | a failure more than the window after a truthy last attempt sets the count to 1 |
| AuthSlice.ConsecutiveFailuresAccumulate | src/store/slices/authSlice.ts:85-96 | n failures, each at most 15 minutes after the previous attempt, add exactly n to the count and leave the last time, the last message and `isLoading = false` |
| AuthSlice.SessionExpiredKeepsAttempts | src/store/slices/authSlice.ts:98-105 | `sessionExpired` clears user, token, `isAuthenticated` and `lastLoginTime`, sets the fixed expiry message, and keeps the attempt count, the last attempt time and `isLoading` |
| AuthSlice.UpdateUserProfileKeepsIdentity | src/store/slices/authSlice.ts:107-118 | with no user, `updateUserProfile` changes nothing; otherwise it merges username and email from the payload and keeps `id`, `createdAt` and `lastLogin`; nothing else changes |
| AuthSlice.MergeProfile | src/store/slices/authSlice.ts:109-116 | the merged user keeps the original `id`, `createdAt` and `lastLogin` and takes each other field from the payload when present |
| AuthSlice.ClearErrorsOnlyClearsError | src/store/slices/authSlice.ts:120-122 | `clearErrors` clears `error` and nothing else, and is idempotent |
| AuthSlice.LogoutResets | src/store/slices/authSlice.ts:124-127 | `logout` yields exactly `initialState`, whatever the prior state |
| AuthSlice.TokenAloneAuthenticates | src/store/slices/authSlice.ts:46-52 | from `initialState`, `setToken` of a non-empty token raises `isAuthenticated` while no user is held |
| UiSlice.UiStore.constructor | src/store/slices/uiSlice.ts:8-11 | the UI slice starts not refreshing, with the light theme |
| UiSlice.UiStore.SetRefreshing | src/store/slices/uiSlice.ts:17-19 | `setRefreshing(b)` sets `isRefreshing = b` and keeps the theme |
| UiSlice.UiStore.SetTheme | src/store/slices/uiSlice.ts:20-22 | `setTheme(t)` sets the theme and keeps `isRefreshing` |
| Tokens.FirstDot | src/services/auth/tokenManager.ts:73 | the index of the first '.', or the length when there is none: no '.' occurs before it |
| Tokens.Segment | src/services/auth/tokenManager.ts:73 | `split('.')[n]` contains no '.', and a segment past the first exists only when the token contains a '.' |
| Tokens.SegmentOfJwt | src/services/auth/tokenManager.ts:73 | for a token `header.payload.rest` with dot-free header and payload, the second segment is exactly the payload |
| Tokens.NoDotNoPayload | src/services/auth/tokenManager.ts:73-78 | a token without '.' has no payload segment, so parsing fails |
| Tokens.ParseToken | src/services/auth/tokenManager.ts:71-79 | a token without any '.' has no payload segment, so parsing fails (`atob(undefined)` throws and the method throws 'Invalid token format') |
| Tokens.ParseJwt | src/services/auth/tokenManager.ts:71-79 | a token `header.payload.signature` with dot-free header and payload parses to exactly what decoding the payload yields |
| Tokens.SegmentOfTwoParts | src/services/auth/tokenManager.ts:73 | for a two-part token `header.rest` with a dot-free header, the second segment is `rest` up to its first '.' |
| Tokens.ValidateToken | src/services/auth/tokenManager.ts:58-69 | valid exactly when the token parses, carries `exp`, and more than the 300000 ms threshold remains before `exp * 1000`; an unparsable token is invalid rather than an error |
| Tokens.TokenAtThresholdIsInvalid | src/services/auth/tokenManager.ts:61-65 | a token exactly at the threshold, or past it, is invalid |
| Tokens.ExpiredTokenIsInvalid | src/services/auth/tokenManager.ts:61-65 | a token whose expiry has passed is invalid |
| Tokens.FreshTokenIsValid | src/services/auth/tokenManager.ts:61-65 | a token with more than the threshold left is valid |
| Tokens.ValidityIsMonotone | src/services/auth/tokenManager.ts:58-65 | a token valid now was valid at every earlier instant |
| Tokens.UnparsableTokenIsInvalid | src/services/auth/tokenManager.ts:66-79 | a token with no second segment, or whose payload does not decode, is invalid |
| Tokens.ValidateJwt | src/services/auth/tokenManager.ts:58-79 | for a `header.payload.signature` token, validity depends only on the decoded payload's `exp` against `now + 300000` |
| Tokens.TokenManager.constructor | src/services/auth/tokenManager.ts:14-19 | a new manager has an empty refresh slot and no refresh call outstanding |
| Tokens.TokenManager.GetNewToken | src/services/auth/tokenManager.ts:28-56 | while a refresh is pending, the caller gets the same promise and no request is sent; otherwise one request to `apiUrl + '/auth/refresh-token'` is sent and its fresh promise fills the slot; at most one refresh is ever outstanding |
| Tokens.TokenManager.SettleRefresh | src/services/auth/tokenManager.ts:36-52 | settling frees the slot on both paths; on success only `auth_token` changes to the new token, which the promise yields; if the call or the write fails, the forced logout runs and the promise rejects with 'Failed to refresh authentication token' |
| Tokens.TokenManager.HandleTokenError | src/services/auth/tokenManager.ts:81-92 | the store ends in `initialState` and the route in `Auth` whether or not the storage clear succeeds; when it succeeds both keys are gone, otherwise storage is unchanged |
| Tokens.ConcurrentCallersShareOneRefresh | src/services/auth/tokenManager.ts:28-56 | two callers before settlement hold the same promise, which settles once, and the slot is free again afterwards |
| ApiClient.OnRequest | src/services/api/client.ts:15-22 | the `Authorization` header becomes `Bearer <token>` exactly when a truthy `auth_token` is stored; otherwise the headers are untouched; a failed read rejects the request |
| ApiClient.InterceptedResult | src/services/api/client.ts:28-40 | successes pass through unchanged; a 401 becomes the error 'Unauthorized' (or the storage error if the removal fails); any other rejection propagates unchanged; no retry |
| ApiClient.InterceptedItems | src/services/api/client.ts:33-38 | a 401 removes `auth_token` and no other key; any other outcome leaves storage untouched |
| ApiClient.UnauthorizedKeepsRefreshToken | src/services/api/client.ts:33-35 | after a 401 the refresh token is still stored, with its value |
| ApiClient.OnResponse | src/services/api/client.ts:28-40 | the response interceptor returns the intercepted result and leaves the intercepted storage |
| AuthSync.AuthSynchronizer.constructor | src/services/auth/authSync.ts:10-15 | a new synchroniser is not initialised and holds no unsubscribe handle |
| AuthSync.AuthSynchronizer.StartSync | src/services/auth/authSync.ts:24-80 | a no-op when already initialised; a stored token with no provider user runs the forced logout before the listener is attached; `isInitialized` becomes true only once the listener is installed; a failed read or subscription runs the forced logout and leaves it false |
| AuthSync.AuthSynchronizer.OnAuthStateChanged | src/services/auth/authSync.ts:45-73 | a signed-in notification with a successful exchange writes both tokens in one batch, dispatches `setToken` then `setUser`, and routes to `MainApp`; a signed-out notification or any failure runs the forced logout |
| AuthSync.SignedInAuthenticates | src/services/auth/authSync.ts:61-62 | after the two dispatches the store is authenticated with the exchanged user and token, with no error and the attempt fields unchanged |
| AuthSync.StartStopAreIdempotent | src/services/auth/authSync.ts:24-27 | starting twice keeps the first handle and stays initialised, stopping twice leaves no handle and the flag false, and the log shows one subscription and its one release |
| AuthSync.AuthSynchronizer.StopSync | src/services/auth/authSync.ts:82-88 | a held handle is released exactly once and cleared, and `isInitialized` becomes false; a second call releases nothing |
| AuthSync.AuthSynchronizer.HandleSyncError | src/services/auth/authSync.ts:90-102 | the store ends in `initialState` and the route in `Auth` whether or not the storage clear succeeds; when it succeeds both keys are gone |
| UseAuth.AuthHook.InitializeAuth | src/hooks/useAuth.ts:22-47 | verification is requested only when a truthy `auth_token` is stored, and server logout only when verification returns false; `logout` is dispatched only if a step threw; it ends with `isInitialized` set |
| UseAuth.InitializeEndsIdle | src/hooks/useAuth.ts:23-46 | start-up ends with `isLoading = false`; it ends in `initialState` when a step threw, and otherwise changes only the loading flag and the error |
| UseAuth.AuthHook.HandleLogin | src/hooks/useAuth.ts:53-82 | returns true iff the login request succeeds; dispatches `setLoading(true)`, `clearErrors`, `loginSuccess` or `loginFailure`, then `setLoading(false)`; routes to `MainApp` only on success |
| UseAuth.AuthHook.HandleRegister | src/hooks/useAuth.ts:85-115 | as login, with the registration request and the fallback 'Registration failed' |
| UseAuth.AuthenticateSucceeds | src/hooks/useAuth.ts:56-68 | after a successful login or registration the store is authenticated with the response's user and token, idle, with no error and zero attempts |
| UseAuth.AuthenticateFails | src/hooks/useAuth.ts:69-81 | after a failure the error is the thrown message (or the fallback for a non-Error throw), the store is idle, the attempt is counted as `loginFailure` counts it, and the session fields are unchanged |
| UseAuth.AuthHook.HandleLogout | src/hooks/useAuth.ts:118-134 | routes to `Auth` only when the logout request succeeds; errors are swallowed; only the loading flag sequence is dispatched |
| UseAuth.LogoutKeepsSession | src/hooks/useAuth.ts:118-134 | `handleLogout` ends idle with no error and leaves user, token and `isAuthenticated` as they were |

## Left out

- React rendering, the screens, and field validation are not part of this model. So are the Firebase SDK set-up, the store's middleware set-up, and the `getInstance` singleton mechanics.
- Real concurrency is not modelled. A refresh is two steps of a sequential machine: start (`GetNewToken`) and settle (`SettleRefresh`). Interleavings inside the `await` points are not modelled.
- Network transport, timeouts and `console.error` logging are left out. Backend and provider results are parameters.
- `atob` and `JSON.parse` are the abstract `decode`. `exp` is an integer count of seconds, so fractional or non-numeric `exp` values coerced by JavaScript are not modelled.
- KeyValueStore.Storage.MultiSet: a rejected batch write changes nothing. A partial batch write is not modelled.
- KeyValueStore.Storage.MultiRemove: a rejected batch removal changes nothing. A partial removal is not modelled.
- AuthSlice.Reduce: `loginFailure` reads `Date.now()` twice. The model uses one clock value for both reads.
- AuthSlice.UpdateUserProfileKeepsIdentity: a payload key that is present but explicitly `undefined` is treated as absent. A real spread would copy `undefined` over the field.
- Navigation.Navigator: `navigationRef.current` is assumed mounted. An unmounted ref, which makes the reset a no-op, is not modelled.
- ApiClient.OnRequest: the request interceptor's error handler (src/services/api/client.ts:23-25) is not modelled. Nothing earlier in a one-interceptor chain can reject, so the handler never runs.
- The API wrappers in src/services/auth/auth.ts are not modelled beyond the shape of their results. `updatePassword` and `forgotPassword` are unused by the core and left out.
