/** The request gateway of src/services/api.ts: one HTTP client whose request
    interceptor attaches the stored token as a bearer credential and whose
    response interceptor reacts to HTTP 401 by clearing the token and sending
    the browser to the login screen. What the server answers is a parameter. */
module Gateway {
  import opened Wrappers
  import opened CredentialStore
  import opened Types

  /** A failed call as the interceptors see it: the response status, or `None`
      when no response arrived (network failure, timeout). */
  datatype HttpError = HttpError(status: Option<int>)

  /** How a call ends, before and after the interceptors. */
  datatype Reply<+T> = Ok(value: T) | Err(error: HttpError)

  const AuthorizationHeader: string := "Authorization"
  const BearerPrefix: string := "Bearer "

  /** The header value `Bearer ${token}`; the token is recovered by dropping
      the 7-character prefix. */
  function Bearer(token: string): (h: string)
    ensures |h| == |token| + 7
    ensures h[..7] == "Bearer " && h[7..] == token
  {
    BearerPrefix + token
  }

  /** The headers the request interceptor leaves on a request, given the token
      stored when the request is dispatched. */
  function WithBearer(headers: map<string, string>, token: Option<string>): (r: map<string, string>)
    ensures Present(token) ==> r.Keys == headers.Keys + {AuthorizationHeader} && r[AuthorizationHeader] == Bearer(token.value)
    ensures !Present(token) ==> r == headers
    ensures forall k :: k in headers && k != AuthorizationHeader ==> k in r && r[k] == headers[k]
  {
    if Present(token) then headers[AuthorizationHeader := Bearer(token.value)] else headers
  }

  /** The status test of the response interceptor: `error.response &&
      error.response.status === 401`. */
  predicate IsUnauthorized(e: HttpError)
  {
    e.status == Some(401)
  }

  /** The request interceptor's error handler: a request-stage error is
      rejected unchanged. */
  function OnRequestError<T>(e: HttpError): (r: Reply<T>)
    ensures r.Err? && r.error == e
  {
    Err(e)
  }

  /** The options of one outgoing request; the interceptor edits its headers
      in place. */
  class RequestConfig {
    var url: string
    var headers: map<string, string>

    constructor (url: string, headers: map<string, string>)
      ensures this.url == url && this.headers == headers
    {
      this.url := url;
      this.headers := headers;
    }
  }

  class ApiClient {
    /** The browser storage the interceptors read and clear. */
    const store: TokenSlot
    /** The last value assigned to `window.location.href`, if any. */
    var location: Option<string>

    constructor (store: TokenSlot)
      ensures this.store == store && location == None
    {
      this.store := store;
      location := None;
    }

    /** The request interceptor: reads the token at dispatch time and, when
        one is present, sets `Authorization: Bearer <token>` on the config it
        was handed, which it returns. */
    method OnRequest(config: RequestConfig) returns (r: RequestConfig)
      modifies config
      ensures r == config
      ensures config.url == old(config.url)
      ensures config.headers == WithBearer(old(config.headers), store.token)
    {
      var token := store.GetItem();
      if Present(token) {
        config.headers := config.headers[AuthorizationHeader := Bearer(token.value)];
      }
      r := config;
    }

    /** The response interceptor's success handler: the response passes
        through unchanged and no storage is touched. */
    method OnResponse<T>(response: T) returns (r: Reply<T>)
      ensures r == Ok(response)
    {
      r := Ok(response);
    }

    /** The response interceptor's error handler: on 401 the token is removed
        and the browser is sent to the login screen; every error, 401 included,
        is rejected to the caller unchanged. */
    method OnResponseError<T>(e: HttpError) returns (r: Reply<T>)
      modifies store, this`location
      ensures r == Err(e)
      ensures IsUnauthorized(e) ==> store.token == None && location == Some(LoginPath)
      ensures !IsUnauthorized(e) ==> store.token == old(store.token) && location == old(location)
    {
      if IsUnauthorized(e) {
        store.RemoveItem();
        location := Some(LoginPath);
      }
      r := Err(e);
    }

    /** One call through the client: a fresh config with the client's default
        headers passes the request interceptor, the server answers `reply`, and
        the answer passes the response interceptor. `authorization` is the
        Authorization header that went out with the request. */
    method Send<T>(url: string, reply: Reply<T>) returns (authorization: Option<string>, r: Reply<T>)
      modifies store, this`location
      ensures authorization == if Present(old(store.token)) then Some(Bearer(old(store.token).value)) else None
      ensures r == reply
      ensures reply.Err? && IsUnauthorized(reply.error) ==> store.token == None && location == Some(LoginPath)
      ensures !(reply.Err? && IsUnauthorized(reply.error)) ==> store.token == old(store.token) && location == old(location)
    {
      var config := new RequestConfig(url, map["Content-Type" := "application/json"]);
      config := OnRequest(config);
      authorization := if AuthorizationHeader in config.headers then Some(config.headers[AuthorizationHeader]) else None;
      match reply {
        case Ok(response) =>
          r := OnResponse(response);
        case Err(e) =>
          r := OnResponseError(e);
      }
    }
  }

  /** Dropping the prefix of the header gives back exactly the token that was
      stored at dispatch time. */
  lemma BearerRoundTrip(headers: map<string, string>, token: Option<string>)
    requires Present(token)
    ensures WithBearer(headers, token)[AuthorizationHeader][7..] == token.value
    ensures WithBearer(headers, token)[AuthorizationHeader][..7] == BearerPrefix
  {
  }

  /** Distinct tokens give distinct headers, so the header identifies the
      stored token. */
  lemma BearerInjective(t1: string, t2: string)
    ensures Bearer(t1) == Bearer(t2) ==> t1 == t2
  {
    if Bearer(t1) == Bearer(t2) {
      assert t1 == Bearer(t1)[7..];
    }
  }
}
