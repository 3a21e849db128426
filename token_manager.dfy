/**
 * The token manager (src/services/auth/tokenManager.ts): freshness check of an access
 * token's `exp` claim, single-flight refresh through the `refreshPromise` slot, and the
 * forced-logout path taken when a refresh fails.
 *
 * Decoding is split as the source splits it: `token.split('.')[1]` is modelled exactly;
 * `atob` followed by `JSON.parse` is the abstract `decode` parameter. A pending promise
 * is a `Promise` object whose `result` is filled in when it settles.
 */
module Tokens {
  import opened Wrappers
  import opened Js
  import AppConfig
  import opened KeyValueStore
  import opened AuthSlice
  import opened Navigation

  /** The decoded payload; a field is None when it is missing or not of the expected type. */
  datatype Claims = Claims(exp: Option<int>, iat: Option<int>, uid: Option<string>)

  type Decoder = string -> Option<Claims>

  const RefreshPath := "/auth/refresh-token"
  const RefreshFailedMessage := "Failed to refresh authentication token"

  /** The index of the first '.' of `s`, or `|s|` when it has none. */
  function FirstDot(s: string): (k: nat)
    ensures k <= |s|
    ensures '.' !in s[..k]
    ensures k < |s| ==> s[k] == '.'
    decreases |s|
  {
    if s == [] then 0
    else if s[0] == '.' then 0
    else
      var k' := FirstDot(s[1..]);
      assert s[..k' + 1] == [s[0]] + s[1..][..k'];
      k' + 1
  }

  /** `s.split('.')[n]`, or None (`undefined`) when `s` has at most `n` separators. */
  function Segment(s: string, n: nat): (r: Option<string>)
    ensures r.Some? ==> '.' !in r.value
    ensures n > 0 ==> (r.Some? ==> '.' in s)
    decreases |s|
  {
    var k := FirstDot(s);
    if n == 0 then Some(s[..k])
    else if k == |s| then None
    else Segment(s[k + 1..], n - 1)
  }

  lemma FirstDotAfterPrefix(a: string, rest: string)
    requires '.' !in a
    ensures FirstDot(a + "." + rest) == |a|
  {
    var s := a + "." + rest;
    assert s[|a|] == '.';
    assert forall i :: 0 <= i < |a| ==> s[i] == a[i];
  }

  /** The second segment of `header.payload.rest` is the payload. */
  lemma SegmentOfJwt(header: string, payload: string, rest: string)
    requires '.' !in header && '.' !in payload
    ensures Segment(header + "." + payload + "." + rest, 1) == Some(payload)
  {
    var s := header + "." + payload + "." + rest;
    FirstDotAfterPrefix(header, payload + "." + rest);
    assert s == header + "." + (payload + "." + rest);
    var tail := s[|header| + 1..];
    assert tail == payload + "." + rest;
    FirstDotAfterPrefix(payload, rest);
    assert tail[..|payload|] == payload;
  }

  /** The second segment of a two-part `header.payload` is the payload, up to any later '.'. */
  lemma SegmentOfTwoParts(header: string, payload: string)
    requires '.' !in header
    ensures Segment(header + "." + payload, 1) == Some(payload[..FirstDot(payload)])
  {
    var s := header + "." + payload;
    FirstDotAfterPrefix(header, payload);
    assert s[|header| + 1..] == payload;
  }

  /** A string without any '.' has no second segment, so it cannot be parsed. */
  lemma NoDotNoPayload(s: string)
    requires '.' !in s
    ensures Segment(s, 1) == None
  {
  }

  /** parseToken: None where the source throws 'Invalid token format'. */
  function ParseToken(decode: Decoder, token: string): (r: Option<Claims>)
    ensures '.' !in token ==> r.None?
  {
    match Segment(token, 1)
    case None => None
    case Some(payload) => decode(payload)
  }

  /** A JWT-shaped token parses to whatever its payload segment decodes to. */
  lemma ParseJwt(decode: Decoder, header: string, payload: string, signature: string)
    requires '.' !in header && '.' !in payload
    ensures ParseToken(decode, header + "." + payload + "." + signature) == decode(payload)
  {
    SegmentOfJwt(header, payload, signature);
  }

  /** The expiry in milliseconds (`exp * 1000`), when the token parses and carries one. */
  function ExpiryMillis(decode: Decoder, token: string): (millis: Option<int>) {
    match ParseToken(decode, token)
    case Some(Claims(Some(exp), _, _)) => Some(exp * 1000)
    case _ => None
  }

  /** validateToken at clock value `now` (milliseconds). */
  function ValidateToken(decode: Decoder, token: string, now: int): (valid: bool)
    // valid exactly when the token parses and more than the threshold remains before expiry
    ensures valid <==> ExpiryMillis(decode, token).Some? && ExpiryMillis(decode, token).value - now > AppConfig.RefreshThreshold
    ensures ParseToken(decode, token).None? ==> !valid
  {
    match ParseToken(decode, token)
    case Some(Claims(Some(exp), _, _)) => now < exp * 1000 - AppConfig.RefreshThreshold
    case _ => false
  }

  lemma TokenAtThresholdIsInvalid(decode: Decoder, token: string, exp: int, now: int)
    requires ParseToken(decode, token).Some? && ParseToken(decode, token).value.exp == Some(exp)
    requires now >= exp * 1000 - 300000
    ensures !ValidateToken(decode, token, now)
  {
  }

  lemma ExpiredTokenIsInvalid(decode: Decoder, token: string, now: int)
    requires ExpiryMillis(decode, token).Some? && now >= ExpiryMillis(decode, token).value
    ensures !ValidateToken(decode, token, now)
  {
  }

  lemma FreshTokenIsValid(decode: Decoder, token: string, exp: int, now: int)
    requires ParseToken(decode, token).Some? && ParseToken(decode, token).value.exp == Some(exp)
    requires now < exp * 1000 - 300000
    ensures ValidateToken(decode, token, now)
  {
  }

  /** A token valid now was valid at every earlier instant. */
  lemma ValidityIsMonotone(decode: Decoder, token: string, earlier: int, now: int)
    requires earlier <= now && ValidateToken(decode, token, now)
    ensures ValidateToken(decode, token, earlier)
  {
  }

  /** A token with no second segment, or whose payload does not decode, is invalid. */
  lemma UnparsableTokenIsInvalid(decode: Decoder, token: string, now: int)
    requires Segment(token, 1).None? || decode(Segment(token, 1).value).None?
    ensures !ValidateToken(decode, token, now)
  {
  }

  /** For a token shaped `header.payload.signature`, validity reads the payload's `exp`. */
  lemma ValidateJwt(decode: Decoder, header: string, payload: string, signature: string, now: int)
    requires '.' !in header && '.' !in payload
    ensures ValidateToken(decode, header + "." + payload + "." + signature, now) <==>
      decode(payload).Some? && decode(payload).value.exp.Some? &&
      now < decode(payload).value.exp.value * 1000 - 300000
  {
    SegmentOfJwt(header, payload, signature);
  }

  /** A refresh call sent to the backend. */
  datatype RefreshRequest = RefreshRequest(url: string, refreshToken: string)

  /** A promise of the refreshed access token; `result` stays None until it settles. */
  class Promise {
    var result: Option<Result<string, Thrown>>

    constructor ()
      ensures result == None
    {
      result := None;
    }
  }

  class TokenManager {
    var refreshPromise: Promise?
    const storage: Storage
    const store: AuthStore
    const nav: Navigator
    const apiUrl: string
    /** The refresh calls sent to the backend, in order, and how many of them have settled. */
    ghost var requests: seq<RefreshRequest>
    ghost var settled: nat

    /** Single flight: exactly the one call behind `refreshPromise` is outstanding, if any. */
    ghost predicate Valid()
      reads this, store, refreshPromise
    {
      && store.Valid()
      && |requests| == settled + (if refreshPromise == null then 0 else 1)
      && (refreshPromise != null ==> refreshPromise.result == None)
    }

    constructor (storage: Storage, store: AuthStore, nav: Navigator, apiUrl: string)
      requires store.Valid()
      ensures Valid()
      ensures this.storage == storage && this.store == store && this.nav == nav && this.apiUrl == apiUrl
      ensures refreshPromise == null && requests == [] && settled == 0
    {
      this.storage := storage;
      this.store := store;
      this.nav := nav;
      this.apiUrl := apiUrl;
      refreshPromise := null;
      requests := [];
      settled := 0;
    }

    /** getNewToken: reuse the pending refresh, or send one and remember its promise. */
    method GetNewToken(refreshToken: string) returns (p: Promise)
      requires Valid()
      modifies this
      ensures Valid()
      ensures refreshPromise == p && p.result == None && settled == old(settled)
      ensures old(refreshPromise) != null ==> p == old(refreshPromise) && requests == old(requests)
      ensures old(refreshPromise) == null ==>
        fresh(p) && requests == old(requests) + [RefreshRequest(apiUrl + RefreshPath, refreshToken)]
    {
      if refreshPromise != null {
        return refreshPromise;
      }
      p := new Promise();
      requests := requests + [RefreshRequest(apiUrl + RefreshPath, refreshToken)];
      refreshPromise := p;
    }

    /**
     * The pending refresh settles. `response` is the backend's answer (the new token, or
     * the rejection), `setFault` the outcome of storing it, `removeFault` the outcome of
     * the storage clear on the failure path.
     */
    method SettleRefresh(response: Result<string, Thrown>, setFault: Option<Thrown>, removeFault: Option<Thrown>)
      requires Valid() && refreshPromise != null
      modifies this, refreshPromise, storage, store, nav
      ensures Valid() && refreshPromise == null
      ensures requests == old(requests) && settled == old(settled) + 1
      ensures response.Success? && setFault.None? ==>
        && old(refreshPromise).result == Some(Success(response.value))
        && storage.items == old(storage.items)[AuthTokenKey := response.value]
        && store.State() == old(store.State()) && nav.route == old(nav.route)
      ensures !(response.Success? && setFault.None?) ==>
        && old(refreshPromise).result == Some(Failure(Error(RefreshFailedMessage)))
        && storage.items == ClearSession(old(storage.items), removeFault)
        && store.State() == InitialState && nav.route == Some(Auth)
    {
      var p := refreshPromise;
      var outcome: Result<string, Thrown>;
      if response.Success? {
        var stored := storage.SetItem(AuthTokenKey, response.value, setFault);
        if stored.Pass? {
          outcome := Success(response.value);
        } else {
          HandleTokenError(removeFault);
          outcome := Failure(Error(RefreshFailedMessage));
        }
      } else {
        HandleTokenError(removeFault);
        outcome := Failure(Error(RefreshFailedMessage));
      }
      p.result := Some(outcome);
      settled := settled + 1;
      refreshPromise := null;
    }

    /** handleTokenError: clear both keys, reset the store, go to Auth; never throws. */
    method HandleTokenError(removeFault: Option<Thrown>)
      requires store.Valid()
      modifies storage, store, nav
      ensures store.Valid() && store.State() == InitialState && nav.route == Some(Auth)
      ensures storage.items == ClearSession(old(storage.items), removeFault)
    {
      var removed := storage.MultiRemove({AuthTokenKey, RefreshTokenKey}, removeFault);
      if removed.Pass? {
        store.Dispatch(Logout);
        nav.NavigateToAuth();
      } else {
        // the catch block: the same reset, without the storage clear
        store.Dispatch(Logout);
        nav.NavigateToAuth();
      }
    }
  }

  /**
   * Two callers ask for a refresh before it settles: one request is sent, both hold the
   * same promise, and after settlement the slot is free for the next refresh.
   */
  method ConcurrentCallersShareOneRefresh(apiUrl: string, rt1: string, rt2: string, response: Result<string, Thrown>)
    returns (shared: bool, freedAfterSettle: bool)
    ensures shared && freedAfterSettle
  {
    var storage := new Storage(map[RefreshTokenKey := rt1]);
    var store := new AuthStore();
    var nav := new Navigator();
    var tm := new TokenManager(storage, store, nav, apiUrl);
    var p1 := tm.GetNewToken(rt1);
    var p2 := tm.GetNewToken(rt2);
    assert |tm.requests| == 1 && tm.requests[0].refreshToken == rt1;
    tm.SettleRefresh(response, None, None);
    shared := p1 == p2 && p1.result.Some?;
    freedAfterSettle := tm.refreshPromise == null;
    var p3 := tm.GetNewToken(rt2);
    assert p3 != p1 && |tm.requests| == 2;
  }
}
