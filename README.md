# Wompi payment-gateway client, modelled in Dafny

This project models `WompiClient`, the core of a Laravel client library for
the Wompi payment gateway (El Salvador). The client:

- refuses to be constructed unless its four credentials (authorization URL,
  API URL, client id, client secret) are all set;
- obtains an OAuth2 access token with the client-credentials grant
  (section 4.4 of RFC 6749) and keeps it in the host's cache under the key
  `wompi_access_token`, reusing it until the cache drops it;
- sends each of its eight API operations as one bearer-authenticated request
  (section 2.1 of RFC 6750) to `rtrim(apiUrl, '/') . '/' . ltrim(endpoint, '/')`
  and returns the decoded JSON reply as an array;
- checks webhook and redirect signatures, both HMAC-SHA256 keyed with the
  client secret and compared with `hash_equals`;
- validates a webhook request through four ordered checks, and tells whether
  webhook data reports a successful payment.

## Layout

| file | module | contents |
|---|---|---|
| wrappers.dfy | Wrappers | `Option` (PHP's `null`) and `Result` (a value or an exception) |
| php.dfy | Php | PHP string truthiness (`""` and `"0"` are false), `rtrim`/`ltrim` with one character |
| json.dfy | Json | what `json_decode($s, true)` yields; the decoder is a parameter |
| http.dfy | Http | outbound requests, server replies, counts of token exchanges and API calls |
| signature.dfy | Signature | the HMAC check and the undelimited redirect message |
| cache.dfy | Cache | the host's key-value cache, as a class |
| wompi.dfy | Wompi | credentials, errors, the constructor guard, the signature checks, the webhook pipeline, `isSuccessfulPayment` |
| gateway.dfy | Gateway | the token cache and the authenticated-request template as functions of the state (cache entries and requests sent), with their lemmas |
| client.dfy | Client | the `WompiClient` class; `Create` follows the constructor guard `Wompi.ConstructorCheck`, and each request method is proved to follow the Gateway function for it |

The HMAC function, the JSON decoder and the two servers (reached through
`hash_hmac`, `json_decode` and the `Http` facade) are parameters, collected
in `Wompi.Services`. The `Cache` facade is the `Cache.Store` object passed
to the constructor. `rtrim` and `ltrim` are defined in `Php`, and
`hash_equals` is string equality in `Signature.Verify`. A server is a function
of every request this client has sent so far, to either server, the request
being answered last; requests from other clients sharing the cache are not
part of it.
That keeps the model deterministic without fixing what a server answers.
The state that changes is the shared cache (`Cache.Store`) and the client's
record of the requests it has sent (`WompiClient.sent`).

Exceptions are `Wompi.Error` values:

- `ConfigurationError` is ConfigurationException.
- `PaymentGatewayError` is PaymentGatewayException, with its exact message.
- `ConnectionError` is Laravel's ConnectionException (server unreachable).
- `ReturnTypeError` is PHP's TypeError when a method declared to return
  `array` would return another value.

### Behaviour worth noting

- Only a RequestException (a 4xx or 5xx reply) is caught and turned into
  PaymentGatewayException (src/WompiClient.php:60, :83). A
  ConnectionException is not a RequestException, so an unreachable server
  escapes both `getAccessTokenFromWompi` and `makeAuthenticatedRequest`
  unchanged.
- A reply body that does not decode gives `[]`: Laravel's `json()` returns
  `null` for it, and `?? []` replaces that (src/WompiClient.php:82).
- "Empty" means falsy in PHP: a credential, cached token, hash header or
  webhook body equal to `"0"` counts as absent (src/WompiClient.php:21, :33,
  :190, :196). A granted token equal to `""` or `"0"` is cached, but it is
  never read back as a hit, so every call then makes a new token exchange.
- On the webhook path, a correctly signed body that decodes to JSON `null` or
  to a scalar passes every check and then fails the `array` return type
  (src/WompiClient.php:210).

## Model

| member | source | states |
|---|---|---|
| `Php.RTrim` | src/WompiClient.php:75 | `rtrim($s, '/')` is a prefix of `s` that does not end in `/`, and only `/` was cut |
| `Php.LTrim` | src/WompiClient.php:75 | `ltrim($e, '/')` is a suffix of `e` that does not start with `/`, and only `/` was cut |
| `Php.RTrimAbsorbs` | src/WompiClient.php:75 | any number of trailing slashes makes no difference to `rtrim` |
| `Php.LTrimAbsorbs` | src/WompiClient.php:75 | any number of leading slashes makes no difference to `ltrim` |
| `Gateway.JoinUrl` | src/WompiClient.php:75 | the request URL is never longer than base, one `/` and endpoint; when the base has no trailing `/` and the endpoint no leading `/` it is exactly `base + "/" + endpoint` |
| `Gateway.JoinUrlSingleSlash` | src/WompiClient.php:75 | the request URL has exactly one `/` at the join, whatever slashes either side carried; without such slashes it is `apiUrl + "/" + endpoint` |
| `Wompi.ConstructorCheck` | src/WompiClient.php:15-24 | construction throws ConfigurationException("Wompi credentials are not set") exactly when one of the four credentials is null, `""` or `"0"` |
| `Client.WompiClient.Create` | src/WompiClient.php:15-24 | `new WompiClient` fails with that error exactly when the guard refuses; otherwise it yields a fresh client with those credentials, services and cache that has sent nothing |
| `Client.WompiClient.constructor` | src/WompiClient.php:15-20 | a constructed client holds its credentials, all set, the given services and cache, and has sent nothing |
| `Wompi.ValidateWebhookSignature` | src/WompiClient.php:171-180 | true exactly when the received hash equals HMAC(secret, raw body), so any other string is false, not an exception; ConfigurationException only when the secret is unset |
| `Wompi.ValidateRedirectParams` | src/WompiClient.php:218-235 | true exactly when the received hash equals HMAC(secret, redirect message); ConfigurationException only when the secret is unset |
| `Wompi.ConstructedClientNeverLacksSecret` | src/WompiClient.php:173-175 | for credentials that passed the constructor guard, the two "secret is not set" branches (lines 173-175 and 220-222) are never taken |
| `Signature.RedirectMessage` | src/WompiClient.php:224-230 | the message is the seven fields run together with no delimiter: its length is the sum of theirs, and it starts with `idTransaccion` and ends with `mensaje` |
| `Signature.RedirectMessageIgnoresOtherKeys` | src/WompiClient.php:224-230 | the redirect message depends only on the seven signed fields |
| `Wompi.RedirectVerdictIgnoresOtherKeys` | src/WompiClient.php:218-235 | keys outside the seven signed fields never change the redirect verdict |
| `Signature.RedirectMissingFieldsAreEmpty` | src/WompiClient.php:224-230 | a missing field reads as `""`: with only id and amount present the message is id followed by amount |
| `Signature.RedirectBoundaryIsAmbiguous` | src/WompiClient.php:224-230 | without a delimiter, monto="1"/esReal="23" and monto="12"/esReal="3" give the same message |
| `Wompi.RedirectVerdictBoundaryShift` | src/WompiClient.php:224-234 | hence those two parameter sets get the same verdict for every hash |
| `Signature.RedirectMessageExample` | tests/Unit/WompiClientRedirectTest.php:10-34 | the seven example fields concatenate to `txn_123100.001VISA1AUTH123Transaccion Aprobada` |
| `Wompi.ValidateWebhookRequest` | src/WompiClient.php:186-211 | the checks come in order (header, body, secret, signature over the raw body, JSON, array type); each failure occurs exactly when the earlier checks pass and its own fails; success returns exactly the decoded body |
| `Wompi.WebhookSignatureBeforeDecoding` | src/WompiClient.php:200-208 | the decoder can change the outcome only once header and body are present and the raw body's signature is valid |
| `Wompi.SignedWebhookAccepted` | src/WompiClient.php:186-211 | a body signed with the client secret that decodes to an array is accepted and returned as decoded |
| `Wompi.IsSuccessfulPayment` | src/WompiClient.php:240-244 | true exactly when `resultadoTransaccion` is present and is the string `ExitosaAprobada`; defined for every array, so it never throws |
| `Wompi.SuccessIsStrictIdentity` | src/WompiClient.php:240-244 | the comparison is `===`: `true`, `null`, numbers and other strings are not success, and neither is a missing key |
| `Gateway.TokenExchange` | src/WompiClient.php:44-66 | one token exchange sends exactly one client-credentials request to the authorization URL and changes nothing else |
| `Client.WompiClient.FetchAccessToken` | src/WompiClient.php:44-66 | the method sends that request and returns the grant, PaymentGatewayException("Failed to authenticate with Wompi") on a rejection, or the uncaught connection error |
| `Gateway.AccessToken` | src/WompiClient.php:29-39 | a truthy cached token is returned with nothing sent and nothing changed; a returned token is the one the cache then holds; a failure leaves the cache as it was; at most the one token request is sent |
| `Cache.Store.Get` | src/WompiClient.php:31 | `Cache::get` gives the value stored under the key, or null exactly when the key holds nothing |
| `Gateway.AccessTokenEffect` | src/WompiClient.php:29-39 | a truthy cached token is returned with nothing sent and nothing changed; otherwise exactly one exchange, whose token is cached under `wompi_access_token` with TTL `expires_in` and returned, and on failure the cache is not written; a returned token is the cached one |
| `Client.WompiClient.GetAccessToken` | src/WompiClient.php:29-39 | the method's result, cache and sent requests are those of `Gateway.AccessToken` |
| `Cache.Store.Put` | src/WompiClient.php:35 | `Cache::put` overwrites one key with the value and its TTL, and leaves the other keys alone |
| `Cache.Store.Forget` | src/WompiClient.php:31-36 | the cached token's TTL running out (or an eviction) removes that one key, after which `Cache::get` gives null, and leaves the other keys alone |
| `Gateway.ResponseArray` | src/WompiClient.php:82 | a reply body decoding to nothing or to `null` gives `[]`; an array is returned unchanged; a scalar is a TypeError; a successful result is always an array |
| `Gateway.AuthenticatedRequest` | src/WompiClient.php:71-90 | a successful result is always an array; the cache changes only as the token lookup changes it; the requests sent only grow, by at most a token exchange and one API call |
| `Gateway.RequestEffect` | src/WompiClient.php:71-90 | a token failure propagates unchanged with no API call; otherwise one call to the joined URL carrying the token `getAccessToken` returned and the caller's data; a rejection gives PaymentGatewayException("API request failed: {endpoint}") |
| `Gateway.RequestCounts` | src/WompiClient.php:78-89 | an authenticated request adds exactly one API call when it has a token and none otherwise, so a failed call is not retried |
| `Client.WompiClient.MakeAuthenticatedRequest` | src/WompiClient.php:71-90 | the method's result, cache and sent requests are those of `Gateway.AuthenticatedRequest` |
| `Gateway.TwoRequestsOneExchange` | src/WompiClient.php:29-39 | when the first request obtains a truthy token, two back-to-back requests make one token exchange, or none if a truthy token was cached, and both API calls carry the same token |
| `Gateway.EvictedTokenRefetched` | src/WompiClient.php:31-36 | once the cached token has expired or been evicted, the next request makes exactly one new exchange |
| `Gateway.FreshCacheTwoCalls` | tests/Unit/WompiClientAuthenticationTest.php:43-67 | two `getAplicativoData()` calls from an empty cache send three requests, the first being the only token exchange |
| `Client.WompiClient.CreatePaymentLink` | src/WompiClient.php:97-100 | POST `EnlacePago` with the caller's data |
| `Client.WompiClient.CreateTransaction3DS` | src/WompiClient.php:107-110 | POST `Transaccion` with the caller's data |
| `Client.WompiClient.GetAplicativoData` | src/WompiClient.php:117-120 | GET `Aplicativo` with no data |
| `Client.WompiClient.TokenizeCard` | src/WompiClient.php:127-130 | POST `Tokenizacion` with the caller's data |
| `Client.WompiClient.GetTokenizedCard` | src/WompiClient.php:135-138 | GET `Tokenizacion/{id}` with no data |
| `Client.WompiClient.DeleteTokenizedCard` | src/WompiClient.php:143-146 | DELETE `Tokenizacion/{id}` with no data |
| `Client.WompiClient.CreateRecurringCharge` | src/WompiClient.php:153-156 | POST `CargoRecurrente` with the caller's data |
| `Client.WompiClient.ExecuteTestTransaction` | src/WompiClient.php:161-164 | POST `TransaccionPrueba` with the caller's data |

## Left out

- HTTP transport: requests are records and replies are abstract. Form and JSON body encoding, headers other than the bearer token, redirects and status codes are not modelled. A reply is an answer, a rejection (4xx/5xx) or an unreachable server.
- Logging (`Log::error`, `Log::info`): it has no effect on results.
- The exception chain: the RequestException attached as the cause of PaymentGatewayException is not modelled.
- HMAC-SHA256 internals and the constant-time behaviour of `hash_equals`: HMAC is a parameter and `hash_equals` is string equality. Timing cannot be stated in Dafny.
- JSON decoding: it is a parameter. PHP arrays are modelled as string-keyed maps or lists, so integer keys and key order are not modelled. Numbers are reals, so the int/float distinction is not modelled. PHP's one empty array appears as two values: `Json.EmptyArray` (`Dict(map[])`, the literal `[]` in the code) and `List([])` (the JSON text `[]`). `Gateway.ResponseArray` keeps them apart.
- Malformed token replies: a grant always carries `access_token` and `expires_in`. PHP's warnings for missing keys, and the effects that follow, are not modelled.
- Cache expiry and wall-clock time: an entry stays until `Cache.Store.Forget` removes it. The TTL is stored as given.
- Cache.Store.Put: stores the entry whatever its TTL. Laravel's `Cache::put` forgets the key instead when the TTL is 0 or less, so with `expires_in <= 0` the promises of Gateway.AccessToken, Gateway.AccessTokenEffect, Gateway.TwoRequestsOneExchange and Gateway.FreshCacheTwoCalls that the granted token is held in the cache, and that a second request reuses it, do not hold for the program.
- Concurrent cache-miss races between processes: the code has no locking, and the model is sequential.
- Header lookup in the framework's Request (`wompi_hash` versus `Wompi-Hash`): the header is given as an optional string.
- Redirect parameter values that are not strings, such as query arrays: parameters are a string-to-string map.
- The service provider, the facade, the configuration file and the example controller: they only wire and call the client.
