/*
 * The single API client: its base URL, the request interceptor that attaches
 * the stored bearer token (section 2.1 of RFC 6750), and the response
 * interceptor that shows opted-in success messages and routes every failure
 * to the global error handler before re-raising it.
 */
module ApiClient {
  import opened Js
  import opened ErrorContext
  import ErrorHandler

  /** `BASE_URL || "/api"`, where BASE_URL is the build-time environment
      setting (absent when not configured). */
  function BaseUrl(configured: Option<string>): (url: string)
    ensures url != ""
    ensures configured.Some? && configured.value != "" ==> url == configured.value
    ensures configured.None? || configured.value == "" ==> url == "/api"
  {
    if configured.Some? && configured.value != "" then configured.value else "/api"
  }

  /** `localStorage.getItem("token")` gave a truthy string. */
  predicate HasToken(stored: Option<string>) {
    stored.Some? && stored.value != ""
  }

  const BearerPrefix: string := "Bearer "

  /** The Authorization header value: the "Bearer" scheme, one space, the token. */
  function BearerCredentials(token: string): string {
    BearerPrefix + token
  }

  /** How a server reads the token back out of the header. */
  function TokenOf(header: string): Option<string> {
    if |header| >= |BearerPrefix| && header[..|BearerPrefix|] == BearerPrefix
    then Some(header[|BearerPrefix|..])
    else None
  }

  /** The header carries the token unchanged: reading it back gives the
      token the client stored. */
  lemma BearerRoundTrip(token: string)
    ensures TokenOf(BearerCredentials(token)) == Some(token)
  {
    assert BearerCredentials(token)[..|BearerPrefix|] == BearerPrefix;
    assert BearerCredentials(token)[|BearerPrefix|..] == token;
  }

  /** Distinct tokens give distinct headers. */
  lemma BearerInjective(t1: string, t2: string)
    requires BearerCredentials(t1) == BearerCredentials(t2)
    ensures t1 == t2
  {
    BearerRoundTrip(t1);
    BearerRoundTrip(t2);
  }

  /** The request config the interceptor receives and returns. */
  class RequestConfig {
    var headers: map<string, string>
    var showSuccess: Value

    constructor (headers: map<string, string>, showSuccess: Value)
      ensures this.headers == headers && this.showSuccess == showSuccess
    {
      this.headers := headers;
      this.showSuccess := showSuccess;
    }
  }

  /** The request interceptor: with a token stored, the Authorization header
      becomes exactly "Bearer " + token; without one the config passes
      through untouched. */
  method InterceptRequest(config: RequestConfig, stored: Option<string>) returns (out: RequestConfig)
    modifies config
    ensures out == config
    ensures HasToken(stored) ==>
              config.headers == old(config.headers)["Authorization" := BearerCredentials(stored.value)]
    ensures !HasToken(stored) ==> config.headers == old(config.headers)
    ensures config.showSuccess == old(config.showSuccess)
  {
    if HasToken(stored) {
      config.headers := config.headers["Authorization" := BearerCredentials(stored.value)];
    }
    out := config;
  }

  /** A resolved response: the config it was sent with (`showSuccess`) and
      its payload (`data`). */
  datatype Response = Response(showSuccess: Value, data: Value)

  /** What the success path does: the toast it shows, if any, and the
      response it hands on. */
  datatype Fulfilled = Fulfilled(toast: Option<Value>, response: Response)

  /** The response interceptor's success path. A toast appears only when the
      call opted in and the payload has a truthy message, and it shows that
      message; the response itself is returned unchanged. */
  function OnFulfilled(r: Response): (f: Fulfilled)
    ensures f.response == r
    ensures f.toast.Some? <==> Truthy(r.showSuccess) && Truthy(Field(r.data, "message"))
    ensures f.toast.Some? ==> f.toast.value == Field(r.data, "message")
  {
    if Truthy(r.showSuccess) && Truthy(Field(r.data, "message"))
    then Fulfilled(Some(Field(r.data, "message")), r)
    else Fulfilled(None, r)
  }

  /** The response interceptor's failure path: the error goes to the global
      handler exactly once and is then re-raised unchanged to the caller. */
  method OnRejected(slot: ErrorSlot, error: Value) returns (rejected: Value)
    modifies slot.current
    ensures rejected == error
    ensures slot.current == old(slot.current)
    ensures slot.current != null ==>
              slot.current.error == ErrorHandler.Message(error) &&
              slot.current.setErrorCalls == old(slot.current.setErrorCalls) + 1
  {
    ErrorHandler.HandleError(slot, error);
    rejected := error;
  }
}
