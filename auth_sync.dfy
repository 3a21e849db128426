/**
 * The synchroniser between the identity provider's sign-in state and the local session
 * (src/services/auth/authSync.ts). The provider is abstract: whether it reports a current
 * user, the handle its `onAuthStateChanged` subscription returns (or the error it
 * throws), and, per notification, the outcome of fetching the provider credential and
 * exchanging it with the backend.
 */
module AuthSync {
  import opened Wrappers
  import opened Js
  import opened KeyValueStore
  import opened AuthSlice
  import opened Navigation
  import opened AuthApi

  /** What the synchroniser did to the provider subscription and the session, in order. */
  datatype SyncEvent = Subscribed(handle: nat) | Unsubscribed(handle: nat) | ForcedLogout

  /** The dispatches of a successful signed-in notification. */
  function SignedInDispatches(resp: AuthResponse): (actions: seq<AuthAction>) {
    [SetToken(Some(resp.token)), SetUser(Some(resp.user))]
  }

  /** After a successful exchange the store holds the exchanged user and token and is authenticated. */
  lemma SignedInAuthenticates(s: AuthState, resp: AuthResponse)
    ensures
      var r := Run(s, SignedInDispatches(resp));
      && r.isAuthenticated && r.user == Some(resp.user) && r.token == Some(resp.token)
      && r.error == None
      && r.loginAttempts == s.loginAttempts && r.lastAttemptTime == s.lastAttemptTime
  {
    RunSnoc(s, [SetToken(Some(resp.token))], SetUser(Some(resp.user)));
    RunSnoc(s, [], SetToken(Some(resp.token)));
    assert [] + [SetToken(Some(resp.token))] == [SetToken(Some(resp.token))];
    assert [SetToken(Some(resp.token))] + [SetUser(Some(resp.user))] == SignedInDispatches(resp);
  }

  class AuthSynchronizer {
    var unsubscribe: Option<nat>
    var isInitialized: bool
    const storage: Storage
    const store: AuthStore
    const nav: Navigator
    ghost var log: seq<SyncEvent>

    /**
     * Initialised exactly while a listener handle is held. `startSync` subscribes only
     * when no handle is held, so at most one listener is ever attached.
     */
    ghost predicate Valid()
      reads this, store
    {
      && store.Valid()
      && (isInitialized <==> unsubscribe.Some?)
    }

    constructor (storage: Storage, store: AuthStore, nav: Navigator)
      requires store.Valid()
      ensures Valid()
      ensures this.storage == storage && this.store == store && this.nav == nav
      ensures unsubscribe == None && !isInitialized && log == []
    {
      this.storage := storage;
      this.store := store;
      this.nav := nav;
      unsubscribe := None;
      isInitialized := false;
      log := [];
    }

    /**
     * startSync. `getFault`: outcome of reading the stored token; `hasCurrentUser`: whether
     * the provider reports a signed-in user; `subscription`: the handle returned by
     * `onAuthStateChanged`, or the error it throws; `orphanRemoveFault` and
     * `catchRemoveFault`: outcomes of the storage clears of the two forced-logout paths.
     */
    method StartSync(getFault: Option<Thrown>, hasCurrentUser: bool, subscription: Result<nat, Thrown>,
                     orphanRemoveFault: Option<Thrown>, catchRemoveFault: Option<Thrown>)
      requires Valid()
      modifies this, storage, store, nav
      ensures Valid()
      ensures old(isInitialized) ==>
        && unchanged(this) && storage.items == old(storage.items)
        && store.State() == old(store.State()) && nav.route == old(nav.route)
      ensures !old(isInitialized) && getFault.Some? ==>
        && !isInitialized && unsubscribe == None
        && log == old(log) + [ForcedLogout]
        && storage.items == ClearSession(old(storage.items), catchRemoveFault)
        && store.State() == InitialState && nav.route == Some(Auth)
      ensures !old(isInitialized) && getFault.None? ==>
        var orphan := Truthy(Get(old(storage.items), AuthTokenKey)) && !hasCurrentUser;
        var checked := if orphan then ClearSession(old(storage.items), orphanRemoveFault) else old(storage.items);
        var before := if orphan then [ForcedLogout] else [];
        && (subscription.Success? ==>
              && isInitialized && unsubscribe == Some(subscription.value)
              && log == old(log) + before + [Subscribed(subscription.value)]
              && storage.items == checked
              && store.State() == (if orphan then InitialState else old(store.State()))
              && nav.route == (if orphan then Some(Auth) else old(nav.route)))
        && (subscription.Failure? ==>
              && !isInitialized && unsubscribe == None
              && log == old(log) + before + [ForcedLogout]
              && storage.items == ClearSession(checked, catchRemoveFault)
              && store.State() == InitialState && nav.route == Some(Auth))
    {
      if isInitialized {
        return;
      }
      StopSync();
      var stored := storage.GetItem(AuthTokenKey, getFault);
      if stored.Failure? {
        HandleSyncError(catchRemoveFault);
        return;
      }
      if Truthy(stored.value) {
        if !hasCurrentUser {
          // a local token but no provider user: an orphaned session
          HandleSyncError(orphanRemoveFault);
        }
      }
      if subscription.Failure? {
        HandleSyncError(catchRemoveFault);
        return;
      }
      unsubscribe := Some(subscription.value);
      log := log + [Subscribed(subscription.value)];
      isInitialized := true;
    }

    /**
     * The body of the `onAuthStateChanged` listener. `signedIn`: whether the notification
     * carries a user; `exchange`: the outcome of `getIdToken` followed by the backend
     * exchange; `setFault`: outcome of storing the pair; `removeFault`: outcome of the
     * storage clear on the forced-logout path.
     */
    method OnAuthStateChanged(signedIn: bool, exchange: Result<AuthResponse, Thrown>,
                              setFault: Option<Thrown>, removeFault: Option<Thrown>)
      requires Valid()
      modifies this, storage, store, nav
      ensures Valid()
      ensures unsubscribe == old(unsubscribe) && isInitialized == old(isInitialized)
      ensures signedIn && exchange.Success? && setFault.None? ==>
        && storage.items == old(storage.items)[AuthTokenKey := exchange.value.token][RefreshTokenKey := exchange.value.refreshToken]
        && store.State() == Run(old(store.State()), SignedInDispatches(exchange.value))
        && nav.route == Some(MainApp)
        && log == old(log)
      ensures !(signedIn && exchange.Success? && setFault.None?) ==>
        && storage.items == ClearSession(old(storage.items), removeFault)
        && store.State() == InitialState && nav.route == Some(Auth)
        && log == old(log) + [ForcedLogout]
    {
      if signedIn {
        if exchange.Success? {
          var resp := exchange.value;
          SetAllPair(storage.items, AuthTokenKey, resp.token, RefreshTokenKey, resp.refreshToken);
          var stored := storage.MultiSet([(AuthTokenKey, resp.token), (RefreshTokenKey, resp.refreshToken)], setFault);
          if stored.Pass? {
            ghost var s0 := store.State();
            store.Dispatch(SetToken(Some(resp.token)));
            store.Dispatch(SetUser(Some(resp.user)));
            RunSnoc(s0, [SetToken(Some(resp.token))], SetUser(Some(resp.user)));
            RunSnoc(s0, [], SetToken(Some(resp.token)));
            assert [] + [SetToken(Some(resp.token))] == [SetToken(Some(resp.token))];
            assert [SetToken(Some(resp.token))] + [SetUser(Some(resp.user))] == SignedInDispatches(resp);
            nav.NavigateToMainApp();
            return;
          }
        }
        // the catch block: credential, exchange or storage failure
        HandleSyncError(removeFault);
      } else {
        HandleSyncError(removeFault);
      }
    }

    /** stopSync: release the listener if one is held; a second call changes nothing more. */
    method StopSync()
      requires Valid()
      modifies this
      ensures Valid()
      ensures unsubscribe == None && !isInitialized
      ensures old(unsubscribe).Some? ==> log == old(log) + [Unsubscribed(old(unsubscribe).value)]
      ensures old(unsubscribe).None? ==> log == old(log)
    {
      if unsubscribe.Some? {
        log := log + [Unsubscribed(unsubscribe.value)];
        unsubscribe := None;
      }
      isInitialized := false;
    }

    /** handleSyncError: clear both keys, reset the store, go to Auth; never throws. */
    method HandleSyncError(removeFault: Option<Thrown>)
      requires Valid()
      modifies this`log, storage, store, nav
      ensures Valid()
      ensures log == old(log) + [ForcedLogout]
      ensures store.State() == InitialState && nav.route == Some(Auth)
      ensures storage.items == ClearSession(old(storage.items), removeFault)
    {
      var removed := storage.MultiRemove({AuthTokenKey, RefreshTokenKey}, removeFault);
      if removed.Pass? {
        store.Dispatch(Logout);
        nav.NavigateToAuth();
      } else {
        // the catch block: the same reset, without the storage clear
        store.Dispatch(Logout);
        nav.NavigateToAuth();
      }
      log := log + [ForcedLogout];
    }
  }

  /**
   * Starting twice attaches one listener and keeps the first handle; stopping twice
   * releases it once. `held` and `released` are the handle slot after the two starts and
   * after the two stops.
   */
  method StartStopAreIdempotent(handle: nat, other: nat)
    returns (held: Option<nat>, startedTwice: bool, released: Option<nat>, stoppedTwice: bool, ghost events: seq<SyncEvent>)
    ensures held == Some(handle) && startedTwice
    ensures released == None && !stoppedTwice
    ensures events == [Subscribed(handle), Unsubscribed(handle)]
  {
    var storage := new Storage(map[]);
    var store := new AuthStore();
    var nav := new Navigator();
    var sync := new AuthSynchronizer(storage, store, nav);
    sync.StartSync(None, false, Success(handle), None, None);
    sync.StartSync(None, false, Success(other), None, None);
    held, startedTwice := sync.unsubscribe, sync.isInitialized;
    sync.StopSync();
    sync.StopSync();
    released, stoppedTwice, events := sync.unsubscribe, sync.isInitialized, sync.log;
  }
}
