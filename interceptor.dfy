/**
 * The JWT interceptor: every outgoing request gets `Authorization: Bearer <token>` unless
 * it goes to an authentication endpoint, and a 401 answer clears the stored tokens before
 * the error travels on unchanged.
 */
module Interceptor {
  import opened Wrappers
  import opened Text
  import opened Storage
  import opened Token
  import opened Api
  import opened Auth

  /** The URL fragments that mark a request as exempt (matched case-sensitively). */
  const AuthFragments: seq<string> :=
    ["/auth/login", "/auth/register", "/auth/signup", "/Auth/signup", "/Auth/login", "/auth/refresh"]

  /** An outgoing request: its URL and its headers. */
  datatype HttpRequest = HttpRequest(url: string, headers: map<string, string>)

  /** `isAuthEndpoint`: the URL contains one of the six fragments. */
  function IsAuthEndpoint(url: string): (r: bool)
    ensures r <==> exists i :: 0 <= i < |AuthFragments| && Contains(url, AuthFragments[i])
  {
    IncludesAny(url, AuthFragments)
  }

  /** The request that goes on: the bearer header is added exactly when a token exists and the URL is not exempt. */
  function Authorize(req: HttpRequest, token: Option<string>): (r: HttpRequest)
    ensures r.url == req.url
    ensures token.Some? && token.value != "" && !IsAuthEndpoint(req.url) ==>
              r.headers == req.headers["Authorization" := "Bearer " + token.value]
    ensures token.None? || token.value == "" || IsAuthEndpoint(req.url) ==> r == req
  {
    if token.Some? && token.value != "" && !IsAuthEndpoint(req.url) then
      HttpRequest(req.url, req.headers["Authorization" := "Bearer " + token.value])
    else req
  }

  /** The service's own signup and login calls never carry a token, whatever the base URL. */
  lemma AuthCallsAreExempt(baseUrl: string)
    ensures IsAuthEndpoint(RequestUrl(baseUrl, LoginEndpoint))
    ensures IsAuthEndpoint(RequestUrl(baseUrl, SignupEndpoint))
  {
    assert RequestUrl(baseUrl, LoginEndpoint) == baseUrl + "/Auth/login";
    ContainsAppended(baseUrl, "/Auth/login");
    assert AuthFragments[4] == "/Auth/login";
    assert RequestUrl(baseUrl, SignupEndpoint) == baseUrl + "/Auth/signup";
    ContainsAppended(baseUrl, "/Auth/signup");
    assert AuthFragments[3] == "/Auth/signup";
  }

  /** The match is case-sensitive: a capitalised refresh path is not exempt. */
  lemma CapitalisedRefreshIsNotExempt()
    ensures !IsAuthEndpoint("/Auth/refresh")
  {
    var url := "/Auth/refresh";
    assert url[0..12][6] == 'r' && url[1..13][0] == 'A';
    assert url[0..11][6] == 'r' && url[1..12][0] == 'A' && url[2..13][0] == 'u';
    assert !Includes(url, "/auth/login");
    assert !Includes(url, "/auth/register");
    assert !Includes(url, "/auth/signup");
    assert !Includes(url, "/Auth/signup");
    assert !Includes(url, "/Auth/login");
    assert !Includes(url, "/auth/refresh");
    assert !IncludesAny(url, AuthFragments);
  }

  class JwtInterceptor {
    const tokens: TokenService

    constructor(tokens: TokenService)
      ensures this.tokens == tokens
    {
      this.tokens := tokens;
    }

    /** The request handed to the next handler. */
    method Intercept(req: HttpRequest) returns (out: HttpRequest)
      ensures out == Authorize(req, tokens.GetAccessToken())
    {
      out := Authorize(req, tokens.GetAccessToken());
    }

    /**
     * The `catchError` step: 401 clears both tokens (and does not navigate), 403 and every
     * other status change nothing, and the error is rethrown as it came.
     */
    method OnError(failure: HttpFailure) returns (rethrown: HttpFailure)
      modifies tokens.storage
      ensures rethrown == failure
      ensures failure.status == 401 ==> tokens.storage.items == Cleared(old(tokens.storage.items))
      ensures failure.status != 401 ==> tokens.storage.items == old(tokens.storage.items)
    {
      if failure.status == 401 {
        tokens.ClearTokens();
      }
      rethrown := failure;
    }
  }
}
