/**
 * What the HTTP layer hands to the application: the shapes a thrown error can take,
 * the `Authorization` header of section 2.1 of RFC 6750, and the request config that
 * the interceptors change in place.
 */
module Http {
  import opened Basics
  import opened Session

  /** The `response` member of a thrown value. */
  datatype ResponseSlot =
    | NoResponseKey                 // `"response" in error` is false
    | ResponseUndefined             // the key is there but holds undefined
    | Response(status: Option<int>, dataMessage: string)  // "" when data.message is missing or empty

  /**
   * A thrown value: `null` or `undefined`, another value that is not an object (a
   * string, say), or an object (an axios error, say).
   */
  datatype Failure =
    | Nullish(isUndefined: bool)    // `undefined` when true, `null` otherwise
    | NonObject
    | ErrorObject(response: ResponseSlot, message: string)  // "" when message is missing or empty

  /**
   * The TypeError that reading `.response` of `null` or `undefined` throws, with the
   * message V8 gives it.
   */
  function PropertyReadError(f: Failure): (e: Failure)
    requires f.Nullish?
    ensures e.ErrorObject? && e.response.NoResponseKey? && e.message != ""
  {
    ErrorObject(NoResponseKey, "Cannot read properties of " + (if f.isUndefined then "undefined" else "null")
                               + " (reading 'response')")
  }

  /** `error && typeof error === "object" && "response" in error`. */
  predicate HasResponseKey(f: Failure) {
    f.ErrorObject? && !f.response.NoResponseKey?
  }

  /** `error.response?.status`. */
  function Status(f: Failure): Option<int> {
    if f.ErrorObject? && f.response.Response? then f.response.status else None
  }

  /** `error.response?.data?.message`, with "" standing for every falsy value. */
  function ServerMessage(f: Failure): string {
    if f.ErrorObject? && f.response.Response? then f.response.dataMessage else ""
  }

  /** `error.message`, with "" standing for every falsy value. */
  function TransportMessage(f: Failure): string {
    if f.ErrorObject? then f.message else ""
  }

  const AuthorizationHeader := "Authorization"
  const BearerPrefix := "Bearer "

  /** The header value `Bearer <token>`. */
  function Bearer(token: string): (v: string)
    ensures |v| == |BearerPrefix| + |token|
  {
    BearerPrefix + token
  }

  /** The token a `Bearer` header value carries, if it is one. */
  function BearerToken(v: string): Option<string> {
    if |v| >= |BearerPrefix| && v[..|BearerPrefix|] == BearerPrefix
    then Some(v[|BearerPrefix|..])
    else None
  }

  /** A server reading the header gets back exactly the token the client sent. */
  lemma BearerRoundTrip(token: string)
    ensures BearerToken(Bearer(token)) == Some(token)
  {
    assert Bearer(token)[..|BearerPrefix|] == BearerPrefix;
    assert Bearer(token)[|BearerPrefix|..] == token;
  }

  /**
   * The headers after a request interceptor that reads its token from `key`: the
   * `Authorization` header is set exactly when that key holds a truthy value.
   */
  function WithAuthorization(headers: map<string, string>, storage: map<string, string>, key: string)
    : (r: map<string, string>)
    ensures HasValue(storage, key) ==> AuthorizationHeader in r
                                       && BearerToken(r[AuthorizationHeader]) == Some(storage[key])
    ensures HasValue(storage, key) ==> r.Keys == headers.Keys + {AuthorizationHeader}
    ensures !HasValue(storage, key) ==> r == headers
    ensures forall h :: h in headers && h != AuthorizationHeader ==> h in r && r[h] == headers[h]
  {
    if HasValue(storage, key) then
      BearerRoundTrip(storage[key]);
      headers[AuthorizationHeader := Bearer(storage[key])]
    else headers
  }

  /** An outgoing request's config object, which request interceptors mutate. */
  class RequestConfig {
    var url: string
    var headers: map<string, string>

    constructor (url: string, headers: map<string, string>)
      ensures this.url == url && this.headers == headers
    {
      this.url := url;
      this.headers := headers;
    }
  }
}
