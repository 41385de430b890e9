/**
 * TokenRetryTransport: the retry transport of the Port client, extended with one
 * more retry case. An unauthorized response caused by an expired cached token
 * makes the transport fetch a fresh token, write it into the response's
 * Authorization header and answer "retry" without asking the base transport.
 */
module TokenRetry {
  import opened Wrappers
  import opened Text
  import Headers

  /** HTTPStatus.UNAUTHORIZED */
  const Unauthorized := 401
  /**
   * Path of the endpoint that issues tokens. A response whose request URL contains this
   * string anywhere (the token endpoint itself, but also e.g. a query parameter) is never refreshed.
   */
  const AccessTokenPath := "/auth/access_token"
  const AuthorizationHeader := "Authorization"

  /** The cached token object of the auth client; only its expiry flag is read. */
  datatype TokenObject = TokenObject(expired: bool)

  /** An exception raised while obtaining a token. */
  datatype Fault = Fault(reason: string)

  /** What awaiting `port_client.auth.token` yields: a token string, or a raised fault. */
  type TokenFetch = Result<string, Fault>

  /** The header value written after a refresh: `f"Bearer {token}"`. */
  function BearerValue(token: string): string
  {
    "Bearer " + token
  }

  /** `is_token_error`, over the values it reads. */
  function IsTokenError(status: int, url: string, lastToken: Option<TokenObject>): (r: bool)
    ensures r <==>
      && status == Unauthorized
      && !IsSubstring(AccessTokenPath, url)
      && lastToken.Some?
      && lastToken.value.expired
  {
    status == Unauthorized && !Contains(url, AccessTokenPath) && lastToken.Some? && lastToken.value.expired
  }

  /** The parts of a response the decision reads. */
  datatype ResponseView = ResponseView(status: int, url: string, headers: Headers.HeaderMap)

  /**
   * The effect of one retry decision: the answer (or the fault raised), the
   * response headers afterwards, and how many token fetches and base-predicate
   * consultations it made.
   */
  datatype Outcome = Outcome(result: Result<bool, Fault>, headers: Headers.HeaderMap, tokenFetches: nat, baseConsults: nat)

  /**
   * The retry decision shared by `_should_retry_async` and `_should_retry`, given the
   * response, the cached token object, what a token fetch would yield, and what the
   * base transport's predicate answers for this response.
   */
  function Decide(r: ResponseView, lastToken: Option<TokenObject>, fetch: TokenFetch, baseDecision: bool): (o: Outcome)
    // Token error: exactly one fetch, the base predicate is never consulted.
    ensures IsTokenError(r.status, r.url, lastToken) ==> o.tokenFetches == 1 && o.baseConsults == 0
    // Token error and a successful fetch: retry, with the fetched token as bearer credential.
    ensures IsTokenError(r.status, r.url, lastToken) && fetch.Success? ==>
      && o.result == Success(true)
      && Headers.Get(o.headers, AuthorizationHeader) == Some(BearerValue(fetch.value))
    // Only the Authorization entry can change.
    ensures forall name :: Headers.Lower(name) != Headers.Lower(AuthorizationHeader) ==>
      Headers.Get(o.headers, name) == Headers.Get(r.headers, name)
    // Token error and a failed fetch: the fault propagates, headers untouched.
    ensures IsTokenError(r.status, r.url, lastToken) && fetch.Failure? ==>
      o.result == Failure(fetch.error) && o.headers == r.headers
    // No token error: no fetch, no header change, the base predicate's answer unchanged.
    ensures !IsTokenError(r.status, r.url, lastToken) ==>
      && o.result == Success(baseDecision)
      && o.headers == r.headers
      && o.tokenFetches == 0
      && o.baseConsults == 1
    // A fault is raised only by a failed refresh, and then there is no "retry" answer.
    ensures o.result.Failure? ==> IsTokenError(r.status, r.url, lastToken) && fetch == Failure(o.result.error)
  {
    if IsTokenError(r.status, r.url, lastToken) then
      match fetch
      case Success(token) => Outcome(Success(true), Headers.Set(r.headers, AuthorizationHeader, BearerValue(token)), 1, 0)
      case Failure(fault) => Outcome(Failure(fault), r.headers, 1, 0)
    else
      Outcome(Success(baseDecision), r.headers, 0, 1)
  }

  /**
   * A response whose request URL contains `/auth/access_token` anywhere (the token
   * endpoint itself among others) is never refreshed, whatever its status and cached token.
   */
  lemma AccessTokenEndpointFallsThrough(
    prefix: string, suffix: string, status: int, headers: Headers.HeaderMap,
    lastToken: Option<TokenObject>, fetch: TokenFetch, baseDecision: bool)
    ensures var o := Decide(ResponseView(status, prefix + AccessTokenPath + suffix, headers), lastToken, fetch, baseDecision);
      && o.result == Success(baseDecision)
      && o.headers == headers
      && o.tokenFetches == 0
  {
    ContainsInfix(prefix, AccessTokenPath, suffix);
  }

  /**
   * The scenario of the unit tests: a 401 from `https://api.example.com/data` with an
   * expired cached token and a fetch yielding `NEW_TOKEN` is retried, and the header
   * then reads `Bearer NEW_TOKEN`.
   */
  lemma ExpiredTokenOnDataEndpoint(r: ResponseView, baseDecision: bool)
    requires r.status == 401 && r.url == "https://api.example.com/data"
    ensures var o := Decide(r, Some(TokenObject(true)), Success("NEW_TOKEN"), baseDecision);
      && o.result == Success(true)
      && Headers.Get(o.headers, AuthorizationHeader) == Some("Bearer " + "NEW_TOKEN")
      && o.tokenFetches == 1
      && o.baseConsults == 0
  {
    DataUrlIsNotTokenPath();
    assert IsTokenError(r.status, r.url, Some(TokenObject(true)));
  }

  lemma DataUrlIsNotTokenPath()
    ensures !IsSubstring(AccessTokenPath, "https://api.example.com/data")
  {
    var url := "https://api.example.com/data";
    forall i | 0 <= i <= |url| - |AccessTokenPath|
      ensures !OccursAt(url, AccessTokenPath, i)
    {
      var k := if i == 7 then 2 else if i == 6 then 1 else 0;
      assert url[i..i + |AccessTokenPath|][k] == url[i + k];
      assert url[i + k] != AccessTokenPath[k];
    }
  }

  /** The auth client of the Port client, as far as the transport uses it. */
  class Auth {
    /** `last_token_object`: the cached token, if any. */
    var lastTokenObject: Option<TokenObject>
    /** What the next await of `token` yields (the credential endpoint is not modelled). */
    var nextToken: TokenFetch
    /** Number of token fetches made so far. */
    ghost var fetches: nat

    constructor (lastTokenObject: Option<TokenObject>, nextToken: TokenFetch)
      ensures this.lastTokenObject == lastTokenObject && this.nextToken == nextToken && fetches == 0
    {
      this.lastTokenObject := lastTokenObject;
      this.nextToken := nextToken;
      fetches := 0;
    }

    /** `await self.port_client.auth.token` */
    method Token() returns (t: TokenFetch)
      modifies this`fetches
      ensures t == nextToken
      ensures fetches == old(fetches) + 1
    {
      t := nextToken;
      fetches := fetches + 1;
    }
  }

  /** An httpx response: its status and request URL are fixed, its headers are mutable. */
  class Response {
    const status: int
    /** `str(response.request.url)` */
    const url: string
    var headers: Headers.HeaderMap

    constructor (status: int, url: string, headers: Headers.HeaderMap)
      ensures this.status == status && this.url == url && this.headers == headers
    {
      this.status := status;
      this.url := url;
      this.headers := headers;
    }

    function View(): ResponseView
      reads this
    {
      ResponseView(status, url, headers)
    }
  }

  class TokenRetryTransport {
    /** `self.port_client.auth` */
    const auth: Auth
    /** The base `RetryTransport._should_retry` / `_should_retry_async`, taken as given. */
    const baseShouldRetry: ResponseView -> bool
    /** Number of times the base predicate has been consulted. */
    ghost var baseConsults: nat

    constructor (auth: Auth, baseShouldRetry: ResponseView -> bool)
      ensures this.auth == auth && this.baseShouldRetry == baseShouldRetry && baseConsults == 0
    {
      this.auth := auth;
      this.baseShouldRetry := baseShouldRetry;
      baseConsults := 0;
    }

    /** `is_token_error(response)` */
    predicate IsTokenErrorResponse(response: Response)
      reads auth, response
    {
      IsTokenError(response.status, response.url, auth.lastTokenObject)
    }

    /** `super()._should_retry(response)` */
    method BaseShouldRetry(response: Response) returns (b: bool)
      modifies this`baseConsults
      ensures b == baseShouldRetry(response.View())
      ensures baseConsults == old(baseConsults) + 1
    {
      b := baseShouldRetry(response.View());
      baseConsults := baseConsults + 1;
    }

    /**
     * `_handle_unauthorized`: fetch a token, then set the response's Authorization
     * header to the bearer value. A failed fetch raises before any header is written.
     */
    method HandleUnauthorized(response: Response) returns (raised: Option<Fault>)
      modifies response`headers, auth`fetches
      ensures auth.fetches == old(auth.fetches) + 1
      ensures auth.nextToken.Success? ==>
        && raised == None
        && response.headers == Headers.Set(old(response.headers), AuthorizationHeader, BearerValue(auth.nextToken.value))
      ensures auth.nextToken.Failure? ==>
        && raised == Some(auth.nextToken.error)
        && response.headers == old(response.headers)
    {
      var token := auth.Token();
      match token
      case Failure(fault) =>
        raised := Some(fault);
      case Success(t) =>
        response.headers := Headers.Set(response.headers, AuthorizationHeader, BearerValue(t));
        raised := None;
    }

    /** `_should_retry_async` */
    method ShouldRetryAsync(response: Response) returns (r: Result<bool, Fault>)
      modifies response`headers, auth`fetches, this`baseConsults
      ensures var o := Decide(old(response.View()), old(auth.lastTokenObject), old(auth.nextToken), baseShouldRetry(old(response.View())));
        && r == o.result
        && response.headers == o.headers
        && auth.fetches == old(auth.fetches) + o.tokenFetches
        && baseConsults == old(baseConsults) + o.baseConsults
    {
      if IsTokenErrorResponse(response) {
        var raised := HandleUnauthorized(response);
        if raised.Some? {
          return Failure(raised.value);
        }
        return Success(true);
      }
      var b := BaseShouldRetry(response);
      return Success(b);
    }

    /**
     * `_should_retry`, the blocking path. Whether the refresh runs directly or on a
     * helper thread that is joined, it completes before the answer and a fault it
     * raises reaches the caller; both ways are this one refresh step.
     */
    method ShouldRetry(response: Response) returns (r: Result<bool, Fault>)
      modifies response`headers, auth`fetches, this`baseConsults
      ensures var o := Decide(old(response.View()), old(auth.lastTokenObject), old(auth.nextToken), baseShouldRetry(old(response.View())));
        && r == o.result
        && response.headers == o.headers
        && auth.fetches == old(auth.fetches) + o.tokenFetches
        && baseConsults == old(baseConsults) + o.baseConsults
    {
      if IsTokenErrorResponse(response) {
        var exceptionHolder: seq<Fault> := [];
        var raised := HandleUnauthorized(response);
        if raised.Some? {
          exceptionHolder := exceptionHolder + [raised.value];
        }
        if exceptionHolder != [] {
          return Failure(exceptionHolder[0]);
        }
        return Success(true);
      }
      var b := BaseShouldRetry(response);
      return Success(b);
    }
  }

  /**
   * The blocking and the asynchronous path agree: two transports whose auth clients
   * are in the same state and whose base predicates agree, asked about two responses
   * that look the same, give the same answer, leave the same headers and make the
   * same number of token fetches and base consultations.
   */
  method PathsAgree(blocking: TokenRetryTransport, suspending: TokenRetryTransport, a: Response, b: Response)
    returns (ra: Result<bool, Fault>, rb: Result<bool, Fault>)
    requires a != b && blocking != suspending && blocking.auth != suspending.auth
    requires a.View() == b.View()
    requires blocking.auth.lastTokenObject == suspending.auth.lastTokenObject
    requires blocking.auth.nextToken == suspending.auth.nextToken
    requires blocking.baseShouldRetry(a.View()) == suspending.baseShouldRetry(b.View())
    modifies a`headers, b`headers, blocking.auth`fetches, suspending.auth`fetches, blocking`baseConsults, suspending`baseConsults
    ensures ra == rb && a.headers == b.headers
    ensures blocking.auth.fetches - old(blocking.auth.fetches) == suspending.auth.fetches - old(suspending.auth.fetches)
    ensures blocking.baseConsults - old(blocking.baseConsults) == suspending.baseConsults - old(suspending.baseConsults)
  {
    ra := blocking.ShouldRetry(a);
    rb := suspending.ShouldRetryAsync(b);
  }

  /**
   * The unit-test scenario run through both entry points: a transport whose auth
   * client holds an expired token and yields `NEW_TOKEN`, asked about a 401 from
   * `https://api.example.com/data`, once per path on a fresh response.
   */
  method ExpiredTokenScenario() returns (asyncResult: Result<bool, Fault>, asyncHeader: Option<string>,
                                         syncResult: Result<bool, Fault>, syncHeader: Option<string>)
    ensures asyncResult == syncResult == Success(true)
    ensures asyncHeader == syncHeader == Some("Bearer " + "NEW_TOKEN")
  {
    var auth := new Auth(Some(TokenObject(true)), Success("NEW_TOKEN"));
    var transport := new TokenRetryTransport(auth, _ => false);
    DataUrlIsNotTokenPath();
    var first := new Response(401, "https://api.example.com/data", map[]);
    asyncResult := transport.ShouldRetryAsync(first);
    asyncHeader := Headers.Get(first.headers, AuthorizationHeader);
    var second := new Response(401, "https://api.example.com/data", map[]);
    syncResult := transport.ShouldRetry(second);
    syncHeader := Headers.Get(second.headers, AuthorizationHeader);
  }
}
