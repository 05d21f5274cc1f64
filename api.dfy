/** The shared HTTP client: one fixed configuration, a request interceptor
    that presents the stored token as a bearer credential, and a response
    interceptor that tears the session down on 401. */
module Api {
  import opened Wrappers
  import opened Text
  import Auth
  import Browser

  const BaseUrl: string := "https://secrete-96mz.onrender.com/api/v1"
  const DefaultTimeoutMs: int := 10000
  const AuthorizationHeader: string := "Authorization"
  const LoginPath: string := "/login"

  /** The body of an error response, as far as the pages read it: `data.message`. */
  datatype ErrorBody = ErrorBody(message: Option<string>)

  /** `error.response`: the status and body the server sent. */
  datatype ErrorResponse = ErrorResponse(status: int, data: ErrorBody)

  /** A rejected request. `response` is absent when no answer came (a timeout,
      a network failure); `code` and `message` are those of the error object. */
  datatype HttpError = HttpError(response: Option<ErrorResponse>, code: Option<string>, message: string)

  /** How an awaited call ends: the promise resolves with a value or rejects
      with an error. */
  datatype Settled<T> = Resolved(value: T) | Rejected(error: HttpError)

  /** `err.response?.data?.message`. */
  function ServerMessage(e: HttpError): (r: Option<string>)
    ensures e.response.None? ==> r.None?
    ensures e.response.Some? ==> r == e.response.value.data.message
  {
    if e.response.Some? then e.response.value.data.message else None
  }

  /** `error.response?.status === 401`: an error with no answer never counts. */
  function Unauthorized(e: HttpError): (b: bool)
    ensures b ==> e.response.Some?
    ensures e.response.Some? ==> (b <==> e.response.value.status == 401)
  {
    e.response.Some? && e.response.value.status == 401
  }

  /** The value of an Authorization header carrying `token` with the Bearer
      scheme (section 2.1 of RFC 6750). */
  function Bearer(token: string): (v: string)
    ensures StartsWith(v, "Bearer ") && |v| == |token| + 7 && v[7..] == token
  {
    "Bearer " + token
  }

  /** The credentials of a Bearer Authorization value, `None` for any other
      value. */
  function Credentials(value: string): (r: Option<string>)
    ensures r.Some? ==> Bearer(r.value) == value
    ensures r.None? <==> !StartsWith(value, "Bearer ")
  {
    if StartsWith(value, "Bearer ") then
      assert value == value[..7] + value[7..];
      Some(value[7..])
    else None
  }

  /** A Bearer value gives its token back. */
  lemma BearerRoundTrip(token: string)
    ensures Credentials(Bearer(token)) == Some(token)
  {
    assert Bearer(token)[..7] == "Bearer ";
    assert Bearer(token)[7..] == token;
  }

  /** The headers the request interceptor leaves: for a truthy token an
      Authorization header whose credentials are exactly that token; every
      other header untouched; without a token, no change at all. */
  function Authorize(headers: map<string, string>, token: Option<string>): (r: map<string, string>)
    ensures Truthy(token) ==> AuthorizationHeader in r && r[AuthorizationHeader] == Bearer(token.value)
    ensures Truthy(token) ==> Credentials(r[AuthorizationHeader]) == Some(token.value)
    ensures !Truthy(token) ==> r == headers
    ensures r.Keys == headers.Keys + (if Truthy(token) then {AuthorizationHeader} else {})
    ensures forall k :: k in headers && k != AuthorizationHeader ==> r[k] == headers[k]
  {
    if Truthy(token) then
      BearerRoundTrip(token.value);
      headers[AuthorizationHeader := Bearer(token.value)]
    else headers
  }

  /** One request's configuration once the instance defaults are merged in:
      the fixed base address, the instance timeout unless the call overrides
      it, the call's path and its headers. */
  class RequestConfig {
    const baseUrl: string
    const timeoutMs: int
    const url: string
    var headers: map<string, string>

    constructor (url: string, headers: map<string, string>, timeoutOverride: Option<int>)
      ensures this.baseUrl == BaseUrl && this.url == url && this.headers == headers
      ensures this.timeoutMs == if timeoutOverride.Some? then timeoutOverride.value else DefaultTimeoutMs
    {
      this.baseUrl := BaseUrl;
      this.url := url;
      this.headers := headers;
      this.timeoutMs := timeoutOverride.GetOr(DefaultTimeoutMs);
    }
  }

  /** The shared instance, wired to the token slot and to the browser's
      address. */
  class Client {
    const store: Auth.TokenStore
    const location: Browser.Location

    constructor (store: Auth.TokenStore, location: Browser.Location)
      ensures this.store == store && this.location == location
    {
      this.store := store;
      this.location := location;
    }

    /** The request interceptor: it sets the Authorization header on the
        config in place and hands the same config on; the slot is only read. */
    method OnRequest(config: RequestConfig) returns (out: RequestConfig)
      modifies config
      ensures out == config
      ensures config.headers == Authorize(old(config.headers), old(store.token))
      ensures store.token == old(store.token)
    {
      var token := store.token;
      if Truthy(token) {
        config.headers := config.headers[AuthorizationHeader := Bearer(token.value)];
      }
      out := config;
    }

    /** The response interceptor: a success passes through; a rejection is
        passed on as the same rejection, and when its status is 401 the token
        is evicted and the browser sent to the login page first. */
    method OnResponse<T>(reply: Settled<T>) returns (out: Settled<T>)
      modifies store, location
      ensures out == reply
      ensures reply.Rejected? && Unauthorized(reply.error) ==> store.token == None && location.path == LoginPath
      ensures !(reply.Rejected? && Unauthorized(reply.error)) ==>
        store.token == old(store.token) && location.path == old(location.path)
    {
      if reply.Rejected? && Unauthorized(reply.error) {
        store.Remove();
        location.Navigate(LoginPath);
      }
      out := reply;
    }
  }
}
