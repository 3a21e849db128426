/**
 * The shared HTTP client's interceptors (src/services/api/client.ts). Transport is
 * abstract: the response interceptor receives what axios produced, a response body or a
 * rejection carrying the HTTP status when a response arrived.
 */
module ApiClient {
  import opened Wrappers
  import opened Js
  import opened KeyValueStore

  const UnauthorizedMessage := "Unauthorized"
  const AuthorizationHeader := "Authorization"

  /** What axios hands to the response interceptor. */
  datatype HttpResult<+T> = Ok(data: T) | Rejected(status: Option<int>, error: Thrown)

  predicate IsUnauthorized<T>(res: HttpResult<T>) {
    res.Rejected? && res.status == Some(401)
  }

  /** What the caller of the request receives once the response interceptor has run. */
  function InterceptedResult<T>(res: HttpResult<T>, removeFault: Option<Thrown>): (r: Result<T, Thrown>)
    ensures r.Success? <==> res.Ok?
    ensures res.Ok? ==> r.value == res.data
    ensures IsUnauthorized(res) && removeFault.None? ==> r == Failure(Error(UnauthorizedMessage))
    ensures IsUnauthorized(res) && removeFault.Some? ==> r == Failure(removeFault.value)
    ensures res.Rejected? && !IsUnauthorized(res) ==> r == Failure(res.error)
  {
    match res
    case Ok(data) => Success(data)
    case Rejected(status, e) =>
      if status == Some(401) then
        (if removeFault.Some? then Failure(removeFault.value) else Failure(Error(UnauthorizedMessage)))
      else Failure(e)
  }

  /** The stored items once the response interceptor has run. */
  function InterceptedItems<T>(items: map<string, string>, res: HttpResult<T>, removeFault: Option<Thrown>): (r: map<string, string>)
    ensures IsUnauthorized(res) && removeFault.None? ==> AuthTokenKey !in r
    ensures forall k :: k in items && k != AuthTokenKey ==> k in r && r[k] == items[k]
    ensures r.Keys <= items.Keys
    ensures !IsUnauthorized(res) ==> r == items
  {
    if IsUnauthorized(res) && removeFault.None? then items - {AuthTokenKey} else items
  }

  /** A 401 drops the access token but leaves the refresh token stored. */
  lemma UnauthorizedKeepsRefreshToken<T>(items: map<string, string>, res: HttpResult<T>)
    requires IsUnauthorized(res) && RefreshTokenKey in items
    ensures AuthTokenKey !in InterceptedItems(items, res, None)
    ensures RefreshTokenKey in InterceptedItems(items, res, None)
    ensures InterceptedItems(items, res, None)[RefreshTokenKey] == items[RefreshTokenKey]
  {
  }

  /** The outgoing request's configuration, whose headers the request interceptor edits. */
  class RequestConfig {
    var headers: map<string, string>

    constructor (headers0: map<string, string>)
      ensures headers == headers0
    {
      headers := headers0;
    }
  }

  /** Request interceptor: attach `Bearer <token>` when a truthy access token is stored. */
  method OnRequest(storage: Storage, config: RequestConfig, getFault: Option<Thrown>) returns (r: Outcome<Thrown>)
    modifies config
    ensures getFault.Some? ==> r == Fail(getFault.value) && config.headers == old(config.headers)
    ensures getFault.None? && Truthy(Get(storage.items, AuthTokenKey)) ==>
      r == Pass && config.headers == old(config.headers)[AuthorizationHeader := "Bearer " + storage.items[AuthTokenKey]]
    ensures getFault.None? && !Truthy(Get(storage.items, AuthTokenKey)) ==>
      r == Pass && config.headers == old(config.headers)
  {
    var token := storage.GetItem(AuthTokenKey, getFault);
    if token.Failure? {
      return Fail(token.error);
    }
    if Truthy(token.value) {
      config.headers := config.headers[AuthorizationHeader := "Bearer " + token.value.value];
    }
    r := Pass;
  }

  /** Response interceptor: pass successes through, turn a 401 into `Unauthorized`. */
  method OnResponse<T>(storage: Storage, res: HttpResult<T>, removeFault: Option<Thrown>) returns (r: Result<T, Thrown>)
    modifies storage
    ensures r == InterceptedResult(res, removeFault)
    ensures storage.items == InterceptedItems(old(storage.items), res, removeFault)
  {
    match res
    case Ok(data) =>
      r := Success(data);
    case Rejected(status, e) =>
      if status == Some(401) {
        var removed := storage.RemoveItem(AuthTokenKey, removeFault);
        if removed.Fail? {
          return Failure(removed.error);
        }
        return Failure(Error(UnauthorizedMessage));
      }
      r := Failure(e);
  }
}
