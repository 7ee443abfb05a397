/**
 * The interceptors of the second API client (src/services/axios.ts). It reads its
 * token from the key `token`, not `access_token`, and never touches the session.
 */
module AxiosClient {
  import opened Basics
  import opened Session
  import opened Http

  /** The request interceptor: attach `Bearer <token>` when the key `token` is truthy. */
  method OnRequest(config: RequestConfig, storage: map<string, string>) returns (r: RequestConfig)
    modifies config`headers
    ensures r == config
    ensures config.headers == WithAuthorization(old(config.headers), storage, LegacyTokenKey)
  {
    var token := if LegacyTokenKey in storage then storage[LegacyTokenKey] else "";
    if token != "" {
      config.headers := config.headers[AuthorizationHeader := Bearer(token)];
    }
    r := config;
  }

  /**
   * A token stored only under `access_token`, as the login flow and the restore
   * expect it, is never attached by this client.
   */
  lemma AccessTokenNeverAttached(headers: map<string, string>, storage: map<string, string>)
    requires HasValue(storage, AccessTokenKey) && !HasValue(storage, LegacyTokenKey)
    ensures WithAuthorization(headers, storage, LegacyTokenKey) == headers
    ensures AuthorizationHeader in WithAuthorization(headers, storage, AccessTokenKey)
  {
  }

  /** Successful responses pass through. */
  method OnResponse<R>(response: R) returns (r: R)
    ensures r == response
  {
    r := response;
  }

  /** Errors are rejected unchanged; there is no session to change. */
  method OnResponseError(error: Failure) returns (rejected: Failure)
    ensures rejected == error
  {
    rejected := error;
  }
}
