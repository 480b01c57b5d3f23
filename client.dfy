/** The `WompiClient` object. Its credentials and services never change
    after construction; the cache it shares with the rest of the host
    application and the record of the requests it has sent do. Every method
    is proved to do what the corresponding function in module Gateway says. */
module Client {
  import opened Wrappers
  import opened Php
  import opened Json
  import opened Http
  import opened Cache
  import opened Wompi
  import opened Gateway

  class WompiClient {
    const credentials: Credentials
    const services: Services
    /** The host's cache, shared with every other client and process. */
    const cache: Store
    /** The requests this client has sent, oldest first. */
    var sent: seq<Outbound>

    /** Every constructed client has all four credentials set. */
    ghost predicate Valid()
    {
      CredentialsSet(credentials)
    }

    /** The state the pipeline acts on. */
    function State(): Env
      reads this, cache
    {
      Env(cache.entries, sent)
    }

    /** The constructor once its guard has passed. */
    constructor (credentials: Credentials, services: Services, cache: Store)
      requires CredentialsSet(credentials)
      ensures Valid()
      ensures this.credentials == credentials && this.cache == cache && sent == []
      ensures this.services == services
    {
      this.credentials := credentials;
      this.services := services;
      this.cache := cache;
      sent := [];
    }

    /** `new WompiClient(...)`: throws ConfigurationException("Wompi
        credentials are not set") when a credential is null, "" or "0", and
        otherwise yields a client with the given credentials, services and
        cache that has sent nothing. */
    static method Create(credentials: Credentials, services: Services, cache: Store)
      returns (r: Result<WompiClient, Error>)
      ensures r.Failure? <==> ConstructorCheck(credentials).Some?
      ensures r.Failure? ==> r.error == ConfigurationError(CredentialsNotSet)
      ensures r.Success? ==> fresh(r.value) && r.value.Valid() && r.value.credentials == credentials
                             && r.value.cache == cache && r.value.sent == []
                             && r.value.services == services
    {
      var error := ConstructorCheck(credentials);
      if error.Some? {
        return Failure(error.value);
      }
      var client := new WompiClient(credentials, services, cache);
      return Success(client);
    }

    /** `getAccessTokenFromWompi()`: posts the client-credentials form to the
        authorization URL. */
    method FetchAccessToken() returns (r: Result<Grant, Error>)
      requires Valid()
      modifies this
      ensures Step(r, State()) == TokenExchange(credentials, services, old(State()))
    {
      var request := AuthExchange(credentials.authUrl.value, AuthForm(credentials));
      sent := sent + [request];
      match services.authServer(sent)
      case Granted(g) => r := Success(g);
      case AuthRejected => r := Failure(PaymentGatewayError(AuthFailed));
      case AuthUnreachable => r := Failure(ConnectionError);
    }

    /** `getAccessToken()`: reads the cache and, when it holds no truthy
        token, fetches one and stores it with its lifetime as TTL. */
    method GetAccessToken() returns (r: Result<string, Error>)
      requires Valid()
      modifies this, cache
      ensures Step(r, State()) == AccessToken(credentials, services, old(State()))
    {
      var cached := cache.Get(TokenKey);
      if TruthyOpt(cached) {
        return Success(cached.value);
      }
      var grant := FetchAccessToken();
      if grant.Failure? {
        return Failure(grant.error);
      }
      cache.Put(TokenKey, grant.value.accessToken, grant.value.expiresIn);
      r := Success(grant.value.accessToken);
    }

    /** `makeAuthenticatedRequest($method, $endpoint, $data)`. */
    method MakeAuthenticatedRequest(verb: Verb, endpoint: string, data: map<string, Value>)
      returns (r: Result<Value, Error>)
      requires Valid()
      modifies this, cache
      ensures Step(r, State()) == AuthenticatedRequest(credentials, services, old(State()), verb, endpoint, data)
    {
      var token := GetAccessToken();
      if token.Failure? {
        return Failure(token.error);
      }
      var url := JoinUrl(credentials.apiUrl.value, endpoint);
      sent := sent + [ApiCall(verb, url, token.value, data)];
      match services.apiServer(sent)
      case Answered(body) => r := ResponseArray(services.decode(body));
      case ApiRejected => r := Failure(PaymentGatewayError("API request failed: " + endpoint));
      case ApiUnreachable => r := Failure(ConnectionError);
    }

    /** `createPaymentLink($data)`: POST EnlacePago. */
    method CreatePaymentLink(data: map<string, Value>) returns (r: Result<Value, Error>)
      requires Valid()
      modifies this, cache
      ensures Step(r, State()) == AuthenticatedRequest(credentials, services, old(State()), Post, "EnlacePago", data)
    {
      r := MakeAuthenticatedRequest(Post, "EnlacePago", data);
    }

    /** `createTransaction3DS($data)`: POST Transaccion. */
    method CreateTransaction3DS(data: map<string, Value>) returns (r: Result<Value, Error>)
      requires Valid()
      modifies this, cache
      ensures Step(r, State()) == AuthenticatedRequest(credentials, services, old(State()), Post, "Transaccion", data)
    {
      r := MakeAuthenticatedRequest(Post, "Transaccion", data);
    }

    /** `getAplicativoData()`: GET Aplicativo with no data. */
    method GetAplicativoData() returns (r: Result<Value, Error>)
      requires Valid()
      modifies this, cache
      ensures Step(r, State()) == AuthenticatedRequest(credentials, services, old(State()), Get, "Aplicativo", map[])
    {
      r := MakeAuthenticatedRequest(Get, "Aplicativo", map[]);
    }

    /** `tokenizeCard($data)`: POST Tokenizacion. */
    method TokenizeCard(data: map<string, Value>) returns (r: Result<Value, Error>)
      requires Valid()
      modifies this, cache
      ensures Step(r, State()) == AuthenticatedRequest(credentials, services, old(State()), Post, "Tokenizacion", data)
    {
      r := MakeAuthenticatedRequest(Post, "Tokenizacion", data);
    }

    /** `getTokenizedCard($tokenId)`: GET Tokenizacion/{id} with no data. */
    method GetTokenizedCard(tokenId: string) returns (r: Result<Value, Error>)
      requires Valid()
      modifies this, cache
      ensures Step(r, State()) == AuthenticatedRequest(credentials, services, old(State()), Get, "Tokenizacion/" + tokenId, map[])
    {
      r := MakeAuthenticatedRequest(Get, "Tokenizacion/" + tokenId, map[]);
    }

    /** `deleteTokenizedCard($tokenId)`: DELETE Tokenizacion/{id} with no data. */
    method DeleteTokenizedCard(tokenId: string) returns (r: Result<Value, Error>)
      requires Valid()
      modifies this, cache
      ensures Step(r, State()) == AuthenticatedRequest(credentials, services, old(State()), Delete, "Tokenizacion/" + tokenId, map[])
    {
      r := MakeAuthenticatedRequest(Delete, "Tokenizacion/" + tokenId, map[]);
    }

    /** `createRecurringCharge($data)`: POST CargoRecurrente. */
    method CreateRecurringCharge(data: map<string, Value>) returns (r: Result<Value, Error>)
      requires Valid()
      modifies this, cache
      ensures Step(r, State()) == AuthenticatedRequest(credentials, services, old(State()), Post, "CargoRecurrente", data)
    {
      r := MakeAuthenticatedRequest(Post, "CargoRecurrente", data);
    }

    /** `executeTestTransaction($data)`: POST TransaccionPrueba. */
    method ExecuteTestTransaction(data: map<string, Value>) returns (r: Result<Value, Error>)
      requires Valid()
      modifies this, cache
      ensures Step(r, State()) == AuthenticatedRequest(credentials, services, old(State()), Post, "TransaccionPrueba", data)
    {
      r := MakeAuthenticatedRequest(Post, "TransaccionPrueba", data);
    }
  }
}
