/**
 * The interceptors of the main API client (src/services/apiClient.ts). A rejected
 * promise is modelled as returning the value it rejects with.
 */
module ApiClient {
  import opened Basics
  import opened Session
  import opened Http

  /** The session after a 401: the token is removed and the browser is sent to `/login`. */
  function AfterUnauthorized(s: SessionState): (r: SessionState)
    ensures r.storage == s.storage - {AccessTokenKey}
    ensures r.user == s.user && r.location == "/login"
  {
    s.(storage := s.storage - {AccessTokenKey}, location := "/login")
  }

  /** The request interceptor: attach `Bearer <access_token>` when the token is truthy. */
  method OnRequest(config: RequestConfig, storage: map<string, string>) returns (r: RequestConfig)
    modifies config`headers
    ensures r == config
    ensures config.headers == WithAuthorization(old(config.headers), storage, AccessTokenKey)
  {
    if HasValue(storage, AccessTokenKey) {
      config.headers := config.headers[AuthorizationHeader := Bearer(storage[AccessTokenKey])];
    }
    r := config;
  }

  /** The request error handler: reject with the same error. */
  method OnRequestError<E>(error: E) returns (rejected: E)
    ensures rejected == error
  {
    rejected := error;
  }

  /** The response handler: pass the response through. */
  method OnResponse<R>(response: R) returns (r: R)
    ensures r == response
  {
    r := response;
  }

  /**
   * The response error handler: on 401 remove `access_token` (only it) and go to
   * `/login`; every other error, 5xx included, changes nothing. It rejects with the same
   * error, except that `null` or `undefined` makes its first line, which reads
   * `error.response`, throw a TypeError: it then rejects with that and changes nothing.
   */
  method OnResponseError(error: Failure, app: AppState) returns (rejected: Failure)
    modifies app`storage, app`location
    ensures error.Nullish? ==> rejected == PropertyReadError(error) && app.State() == old(app.State())
    ensures !error.Nullish? ==> rejected == error
    ensures app.State() == if Status(error) == Some(401) then AfterUnauthorized(old(app.State()))
                           else old(app.State())
  {
    if error.Nullish? {
      return PropertyReadError(error);
    }
    if Status(error) == Some(401) {
      app.storage := app.storage - {AccessTokenKey};
      app.location := "/login";
    }
    rejected := error;
  }
}
