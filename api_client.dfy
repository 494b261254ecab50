/**
 * The configured HTTP client (lib/api-client.ts): its base URL, the request
 * interceptor that attaches the stored token, and the response interceptor
 * that ends the session on a 401. The network itself is not modelled: the
 * settled outcome of each request is supplied by the caller.
 */
module ApiClient {

  import opened Wrappers
  import opened Web

  /**
   * A rejected call: the error's `message` and, when the server answered,
   * the HTTP status of `error.response`.
   */
  datatype Error = Error(status: Option<int>, message: string)

  predicate IsUnauthorized(e: Error) {
    e.status == Some(401)
  }

  const DefaultBaseUrl := "http://localhost:8000/api"
  const LoginPage := "/login"

  /** `process.env.NEXT_PUBLIC_API_URL || "http://localhost:8000/api"`. */
  function BaseUrl(env: Option<string>): (url: string)
    ensures url != ""
    ensures env.Some? && env.value != "" ==> url == env.value
    ensures env.None? || env.value == "" ==> url == DefaultBaseUrl
  {
    if env.Some? && env.value != "" then env.value else DefaultBaseUrl
  }

  /** The token the client would send: the stored `auth_token` when it is present and non-empty. */
  function StoredToken(storage: map<string, string>): (t: Option<string>)
    ensures t.Some? <==> TokenKey in storage && storage[TokenKey] != ""
    ensures t.Some? ==> t.value == storage[TokenKey]
  {
    if TokenKey in storage && storage[TokenKey] != "" then Some(storage[TokenKey]) else None
  }

  /** The `Authorization` header value for a token. */
  function AuthorizationHeader(token: string): (header: string)
    ensures |header| == |"Token "| + |token|
    ensures header[..|"Token "|] == "Token " && header[|"Token "|..] == token
  {
    "Token " + token
  }

  /** Local storage with the session's token and user removed; every other key kept. */
  function ClearedStorage(storage: map<string, string>): (r: map<string, string>)
    ensures TokenKey !in r && UserKey !in r
    ensures forall k :: k in r <==> k in storage && k != TokenKey && k != UserKey
    ensures forall k :: k in r ==> r[k] == storage[k]
  {
    storage - {TokenKey, UserKey}
  }

  /**
   * Local storage after the response interceptor has seen error `e`. A
   * rejected request never writes: every key left keeps its value, and only a
   * 401 removes anything, exactly the two session keys.
   */
  function StorageAfterError(storage: map<string, string>, e: Error): (r: map<string, string>)
    ensures forall k :: k in r ==> k in storage && r[k] == storage[k]
    ensures forall k :: k in storage && k != TokenKey && k != UserKey ==> k in r
    ensures !IsUnauthorized(e) ==> r == storage
    ensures IsUnauthorized(e) ==> TokenKey !in r && UserKey !in r
  {
    if IsUnauthorized(e) then ClearedStorage(storage) else storage
  }

  /** `window.location.href` after the response interceptor has seen error `e`. */
  function HrefAfterError(href: string, e: Error): (next: string)
    ensures IsUnauthorized(e) ==> next == LoginPage
    ensures !IsUnauthorized(e) ==> next == href
  {
    if IsUnauthorized(e) then LoginPage else href
  }

  /** The configuration of one outgoing request. */
  class RequestConfig {
    const verb: string
    const url: string
    var headers: map<string, string>

    /** The instance defaults: JSON content type, no authorisation. */
    constructor (verb: string, url: string)
      ensures this.verb == verb && this.url == url
      ensures headers == map["Content-Type" := "application/json"]
    {
      this.verb := verb;
      this.url := url;
      headers := map["Content-Type" := "application/json"];
    }
  }

  /**
   * The request interceptor. On the client (`browser != null`, i.e. `window`
   * is defined) a stored non-empty token is attached as `Authorization:
   * Token <token>`; otherwise the headers are left as they are. The same
   * config object is returned.
   */
  method OnRequest(config: RequestConfig, browser: Browser?) returns (r: RequestConfig)
    modifies config
    ensures r == config
    ensures browser != null && StoredToken(browser.storage).Some? ==>
      config.headers == old(config.headers)["Authorization" := AuthorizationHeader(StoredToken(browser.storage).value)]
    ensures browser == null || StoredToken(browser.storage).None? ==> config.headers == old(config.headers)
  {
    if browser != null {
      var token := browser.GetItem(TokenKey);
      if token.Some? && token.value != "" {
        config.headers := config.headers["Authorization" := AuthorizationHeader(token.value)];
      }
    }
    r := config;
  }

  /**
   * The error branch of the response interceptor. A 401 seen on the client
   * removes the token and the stored user and sends the browser to the login
   * page; every error, 401 included, is rejected again unchanged.
   */
  method OnResponseError<T>(e: Error, browser: Browser?) returns (r: Result<T, Error>)
    modifies browser
    ensures r == Err(e)
    ensures browser != null ==> browser.storage == StorageAfterError(old(browser.storage), e)
    ensures browser != null ==> browser.href == HrefAfterError(old(browser.href), e)
    ensures browser != null ==> browser.cookies == old(browser.cookies)
  {
    if IsUnauthorized(e) && browser != null {
      browser.RemoveItem(TokenKey);
      browser.RemoveItem(UserKey);
      browser.href := LoginPage;
    }
    r := Err(e);
  }

  /**
   * One request through the client: the request interceptor runs, the
   * server's answer `outcome` arrives, and the response interceptor passes a
   * success through unchanged or handles the error.
   */
  method Send<T>(config: RequestConfig, browser: Browser?, outcome: Result<T, Error>) returns (r: Result<T, Error>)
    modifies config, browser
    ensures r == outcome
    ensures browser != null && StoredToken(old(browser.storage)).Some? ==>
      config.headers == old(config.headers)["Authorization" := AuthorizationHeader(StoredToken(old(browser.storage)).value)]
    ensures browser == null || StoredToken(old(browser.storage)).None? ==> config.headers == old(config.headers)
    ensures browser != null && outcome.Ok? ==> browser.storage == old(browser.storage) && browser.href == old(browser.href)
    ensures browser != null && outcome.Err? ==>
      browser.storage == StorageAfterError(old(browser.storage), outcome.error) &&
      browser.href == HrefAfterError(old(browser.href), outcome.error)
    ensures browser != null ==> browser.cookies == old(browser.cookies)
  {
    var sent := OnRequest(config, browser);
    if outcome.Ok? {
      r := outcome;
    } else {
      r := OnResponseError(outcome.error, browser);
    }
  }
}
