/** The authenticated-request pipeline of `WompiClient` as functions of the
    state it touches: the cache entries and the requests sent so far. The
    class in client.dfy is proved to follow these functions; the lemmas here
    state what the pipeline promises: a cached token is reused, a missing
    one costs exactly one token exchange, every API call carries the token
    and the URL built from the base URL and the endpoint, and failures are
    reported without retrying. */
module Gateway {
  import opened Wrappers
  import opened Php
  import opened Json
  import opened Http
  import opened Cache
  import opened Wompi

  /** The state the pipeline reads and changes. */
  datatype Env = Env(cache: map<string, Entry>, sent: seq<Outbound>)

  /** The outcome of one step: a value or an exception, and the new state. */
  datatype Step<T> = Step(result: Result<T, Error>, env: Env)

  /** The one cache key the client uses. */
  const TokenKey: string := "wompi_access_token"

  /** The token currently cached, as `Cache::get` returns it. */
  function CachedToken(env: Env): Option<string>
  {
    Lookup(env.cache, TokenKey)
  }

  /** The form body of the client-credentials grant (section 4.4 of RFC 6749). */
  function AuthForm(c: Credentials): map<string, string>
    requires CredentialsSet(c)
  {
    map["grant_type" := "client_credentials",
        "client_id" := c.clientId.value,
        "client_secret" := c.clientSecret.value,
        "audience" := "wompi_api"]
  }

  /** The token request, posted to the authorization URL. */
  function AuthRequest(c: Credentials): Outbound
    requires CredentialsSet(c)
  {
    AuthExchange(c.authUrl.value, AuthForm(c))
  }

  /** `getAccessTokenFromWompi()`: one token request. A rejection becomes a
      PaymentGatewayException; an unreachable server is not caught. */
  function TokenExchange(c: Credentials, s: Services, env: Env): (st: Step<Grant>)
    requires CredentialsSet(c)
    ensures st.env == env.(sent := env.sent + [AuthRequest(c)])
  {
    var sent := env.sent + [AuthRequest(c)];
    match s.authServer(sent)
    case Granted(g) => Step(Success(g), env.(sent := sent))
    case AuthRejected => Step(Failure(PaymentGatewayError(AuthFailed)), env.(sent := sent))
    case AuthUnreachable => Step(Failure(ConnectionError), env.(sent := sent))
  }

  /** `getAccessToken()`: the cached token if it is truthy; otherwise a
      token exchange whose token is cached under `wompi_access_token` with
      TTL `expires_in` and returned. A token it returns is the one the cache
      then holds, a failure leaves the cache as it was, and at most the one
      token request is sent. */
  function AccessToken(c: Credentials, s: Services, env: Env): (st: Step<string>)
    requires CredentialsSet(c)
    ensures st.result.Success? ==> CachedToken(st.env) == Some(st.result.value)
    ensures st.result.Failure? ==> st.env.cache == env.cache
    ensures st.env.sent == env.sent || st.env.sent == env.sent + [AuthRequest(c)]
    ensures TruthyOpt(CachedToken(env)) ==> st == Step(Success(CachedToken(env).value), env)
  {
    var cached := CachedToken(env);
    if TruthyOpt(cached) then Step(Success(cached.value), env)
    else
      var ex := TokenExchange(c, s, env);
      match ex.result
      case Failure(e) => Step(Failure(e), ex.env)
      case Success(g) =>
        Step(Success(g.accessToken), ex.env.(cache := ex.env.cache[TokenKey := Entry(g.accessToken, g.expiresIn)]))
  }

  /** `sprintf('%s/%s', rtrim($apiUrl, '/'), ltrim($endpoint, '/'))`. */
  function JoinUrl(base: string, endpoint: string): (url: string)
    ensures |url| <= |base| + 1 + |endpoint|
    ensures (base == [] || base[|base| - 1] != '/') && (endpoint == [] || endpoint[0] != '/')
            ==> url == base + "/" + endpoint
  {
    RTrim(base, '/') + "/" + LTrim(endpoint, '/')
  }

  /** `$response->json() ?? []` as the value of a method declared to return
      `array`: an undecodable body and the JSON `null` both give `[]`, an
      array is returned as it is, and any other JSON value is a TypeError. */
  function ResponseArray(decoded: Option<Value>): (r: Result<Value, Error>)
    ensures r.Success? ==> r.value.IsArray()
    ensures decoded == None || decoded == Some(Null) ==> r == Success(EmptyArray)
    ensures decoded.Some? && decoded.value.IsArray() ==> r == Success(decoded.value)
    ensures r.Failure? <==> decoded.Some? && decoded.value != Null && !decoded.value.IsArray()
    ensures r.Failure? ==> r.error == ReturnTypeError
  {
    match decoded
    case None => Success(EmptyArray)
    case Some(v) =>
      if v == Null then Success(EmptyArray)
      else if v.IsArray() then Success(v)
      else Failure(ReturnTypeError)
  }

  /** `makeAuthenticatedRequest($method, $endpoint, $data)`. A failure to
      get a token passes through unchanged; a rejected API call becomes
      "API request failed: {endpoint}"; an unreachable API is not caught.
      A successful result is always an array, only the token lookup touches
      the cache, and at most two requests are appended to those sent. */
  function AuthenticatedRequest(c: Credentials, s: Services, env: Env, verb: Verb, endpoint: string,
                                data: map<string, Value>): (st: Step<Value>)
    requires CredentialsSet(c)
    ensures st.result.Success? ==> st.result.value.IsArray()
    ensures st.env.cache == AccessToken(c, s, env).env.cache
    ensures |env.sent| <= |st.env.sent| <= |env.sent| + 2 && st.env.sent[..|env.sent|] == env.sent
  {
    var tok := AccessToken(c, s, env);
    match tok.result
    case Failure(e) => Step(Failure(e), tok.env)
    case Success(token) =>
      var sent := tok.env.sent + [ApiCall(verb, JoinUrl(c.apiUrl.value, endpoint), token, data)];
      var env' := tok.env.(sent := sent);
      match s.apiServer(sent)
      case Answered(body) => Step(ResponseArray(s.decode(body)), env')
      case ApiRejected => Step(Failure(PaymentGatewayError("API request failed: " + endpoint)), env')
      case ApiUnreachable => Step(Failure(ConnectionError), env')
  }

  /** The URL has exactly one slash at the join, whatever slashes the base
      URL ended with or the endpoint started with; without such slashes it
      is the plain `base + "/" + endpoint`. */
  lemma JoinUrlSingleSlash(base: string, endpoint: string, b: string, e: string, m: nat, n: nat)
    requires base == b + Repeat('/', m) && (b == [] || b[|b| - 1] != '/')
    requires endpoint == Repeat('/', n) + e && (e == [] || e[0] != '/')
    ensures JoinUrl(base, endpoint) == b + "/" + e
  {
    RTrimAbsorbs(b, '/', m);
    LTrimAbsorbs(e, '/', n);
  }

  /** What one `getAccessToken()` does. With a truthy cached token: returns
      it, sends nothing, changes nothing. Otherwise: sends exactly one token
      request, and on a grant caches and returns its token with TTL
      `expires_in`; on a failure leaves the cache alone. Either way a token
      it returns is the one the cache then holds. */
  lemma AccessTokenEffect(c: Credentials, s: Services, env: Env)
    requires CredentialsSet(c)
    ensures var st := AccessToken(c, s, env);
      && (TruthyOpt(CachedToken(env)) ==> st == Step(Success(CachedToken(env).value), env))
      && (!TruthyOpt(CachedToken(env)) ==>
            && st.env.sent == env.sent + [AuthRequest(c)]
            && match s.authServer(env.sent + [AuthRequest(c)])
               case Granted(g) =>
                 st.result == Success(g.accessToken)
                 && st.env.cache == env.cache[TokenKey := Entry(g.accessToken, g.expiresIn)]
               case AuthRejected =>
                 st.result == Failure(PaymentGatewayError(AuthFailed)) && st.env.cache == env.cache
               case AuthUnreachable =>
                 st.result == Failure(ConnectionError) && st.env.cache == env.cache)
      && Exchanges(st.env.sent) == Exchanges(env.sent) + (if TruthyOpt(CachedToken(env)) then 0 else 1)
      && ApiCalls(st.env.sent) == ApiCalls(env.sent)
      && (st.result.Success? ==> CachedToken(st.env) == Some(st.result.value))
  {
  }

  /** What one authenticated request does after getting its token: if that
      failed, nothing more is sent and the error is reported as it is;
      otherwise exactly one API call goes out, to the joined URL with the
      token as bearer and the caller's data, the cache is not touched again,
      and the reply decides the result, without retry. */
  lemma RequestEffect(c: Credentials, s: Services, env: Env, verb: Verb, endpoint: string, data: map<string, Value>)
    requires CredentialsSet(c)
    ensures var tok := AccessToken(c, s, env);
            var st := AuthenticatedRequest(c, s, env, verb, endpoint, data);
      && (tok.result.Failure? ==> st == Step(Failure(tok.result.error), tok.env))
      && (tok.result.Success? ==>
            && st.env.cache == tok.env.cache
            && st.env.sent == tok.env.sent + [ApiCall(verb, JoinUrl(c.apiUrl.value, endpoint), tok.result.value, data)]
            && match s.apiServer(st.env.sent)
               case Answered(body) => st.result == ResponseArray(s.decode(body))
               case ApiRejected => st.result == Failure(PaymentGatewayError("API request failed: " + endpoint))
               case ApiUnreachable => st.result == Failure(ConnectionError))
      && (st.result.Success? ==> st.result.value.IsArray())
  {
  }

  /** An authenticated request adds the token step's exchanges and, when it
      got a token, exactly one API call: a failed call is never retried. */
  lemma RequestCounts(c: Credentials, s: Services, env: Env, verb: Verb, endpoint: string, data: map<string, Value>)
    requires CredentialsSet(c)
    ensures var tok := AccessToken(c, s, env);
            var st := AuthenticatedRequest(c, s, env, verb, endpoint, data);
      && Exchanges(st.env.sent) == Exchanges(tok.env.sent)
      && ApiCalls(st.env.sent) == ApiCalls(tok.env.sent) + (if tok.result.Success? then 1 else 0)
  {
    var tok := AccessToken(c, s, env);
    RequestEffect(c, s, env, verb, endpoint, data);
    if tok.result.Success? {
      CountsAppend(tok.env.sent, [ApiCall(verb, JoinUrl(c.apiUrl.value, endpoint), tok.result.value, data)]);
    }
  }

  /** Two back-to-back requests make at most one token exchange: none if a
      truthy token was cached, otherwise exactly one, as long as the token
      the first request obtained is truthy. Both calls carry that token. */
  lemma TwoRequestsOneExchange(c: Credentials, s: Services, env: Env,
                               verb1: Verb, endpoint1: string, data1: map<string, Value>,
                               verb2: Verb, endpoint2: string, data2: map<string, Value>)
    requires CredentialsSet(c)
    requires AccessToken(c, s, env).result.Success? && Truthy(AccessToken(c, s, env).result.value)
    ensures var first := AuthenticatedRequest(c, s, env, verb1, endpoint1, data1);
            var second := AuthenticatedRequest(c, s, first.env, verb2, endpoint2, data2);
            var token := AccessToken(c, s, env).result.value;
      && Exchanges(second.env.sent) == Exchanges(env.sent) + (if TruthyOpt(CachedToken(env)) then 0 else 1)
      && ApiCalls(second.env.sent) == ApiCalls(env.sent) + 2
      && second.env.sent[|second.env.sent| - 2].bearer == token
      && second.env.sent[|second.env.sent| - 1].bearer == token
  {
    var tok := AccessToken(c, s, env);
    var first := AuthenticatedRequest(c, s, env, verb1, endpoint1, data1);
    AccessTokenEffect(c, s, env);
    RequestEffect(c, s, env, verb1, endpoint1, data1);
    RequestCounts(c, s, env, verb1, endpoint1, data1);
    assert CachedToken(first.env) == Some(tok.result.value);
    AccessTokenEffect(c, s, first.env);
    RequestEffect(c, s, first.env, verb2, endpoint2, data2);
    RequestCounts(c, s, first.env, verb2, endpoint2, data2);
  }

  /** Once the cached token has expired or been evicted, the next request
      makes exactly one new token exchange. */
  lemma EvictedTokenRefetched(c: Credentials, s: Services, env: Env, verb: Verb, endpoint: string, data: map<string, Value>)
    requires CredentialsSet(c)
    ensures var evicted := env.(cache := env.cache - {TokenKey});
            var st := AuthenticatedRequest(c, s, evicted, verb, endpoint, data);
            Exchanges(st.env.sent) == Exchanges(env.sent) + 1
  {
    var evicted := env.(cache := env.cache - {TokenKey});
    assert CachedToken(evicted) == None;
    AccessTokenEffect(c, s, evicted);
    RequestCounts(c, s, evicted, verb, endpoint, data);
  }

  /** Two `getAplicativoData()` calls starting from an empty cache, when the
      authorization server grants a truthy token: three requests go out, the
      first of them the one token exchange, and both API calls carry the
      granted token. */
  lemma FreshCacheTwoCalls(c: Credentials, s: Services)
    requires CredentialsSet(c)
    requires s.authServer([AuthRequest(c)]).Granted?
    requires Truthy(s.authServer([AuthRequest(c)]).grant.accessToken)
    ensures var first := AuthenticatedRequest(c, s, Env(map[], []), Get, "Aplicativo", map[]);
            var second := AuthenticatedRequest(c, s, first.env, Get, "Aplicativo", map[]);
            var token := s.authServer([AuthRequest(c)]).grant.accessToken;
      && |second.env.sent| == 3
      && Exchanges(second.env.sent) == 1
      && second.env.sent[0] == AuthRequest(c)
      && second.env.sent[1] == ApiCall(Get, JoinUrl(c.apiUrl.value, "Aplicativo"), token, map[])
      && second.env.sent[2] == ApiCall(Get, JoinUrl(c.apiUrl.value, "Aplicativo"), token, map[])
  {
    var start := Env(map[], []);
    assert CachedToken(start) == None;
    AccessTokenEffect(c, s, start);
    assert [] + [AuthRequest(c)] == [AuthRequest(c)];
    TwoRequestsOneExchange(c, s, start, Get, "Aplicativo", map[], Get, "Aplicativo", map[]);
    var first := AuthenticatedRequest(c, s, start, Get, "Aplicativo", map[]);
    var second := AuthenticatedRequest(c, s, first.env, Get, "Aplicativo", map[]);
    RequestEffect(c, s, start, Get, "Aplicativo", map[]);
    AccessTokenEffect(c, s, first.env);
    RequestEffect(c, s, first.env, Get, "Aplicativo", map[]);
    CountsAppend([], second.env.sent);
    assert [] + second.env.sent == second.env.sent;
  }
}
