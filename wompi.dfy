/** The parts of `WompiClient` that compute without state: the constructor
    guard, the webhook and redirect signature checks, the webhook request
    pipeline and the success test on webhook data. The client's credentials
    and the services it relies on (HMAC, JSON decoding, the two servers) are
    passed explicitly. */
module Wompi {
  import opened Wrappers
  import opened Php
  import opened Json
  import opened Http
  import opened Signature

  /** The four constructor arguments, each a `?string`. */
  datatype Credentials = Credentials(
    authUrl: Option<string>,
    apiUrl: Option<string>,
    clientId: Option<string>,
    clientSecret: Option<string>)

  /** What the client reaches through Laravel's facades and PHP built-ins. */
  datatype Services = Services(
    hmac: Hmac,
    decode: Decoder,
    authServer: AuthServer,
    apiServer: ApiServer)

  /** The exceptions that leave the client. `ConnectionError` is Laravel's
      ConnectionException, which the client does not catch; `ReturnTypeError`
      is PHP's TypeError when a method declared to return `array` would
      return something else. */
  datatype Error =
    | ConfigurationError(message: string)
    | PaymentGatewayError(message: string)
    | ConnectionError
    | ReturnTypeError

  const CredentialsNotSet: string := "Wompi credentials are not set"
  const SecretNotSet: string := "Wompi webhook secret is not set"
  const AuthFailed: string := "Failed to authenticate with Wompi"
  const HeaderRequired: string := "Webhook request invalid: wompi_hash header is required"
  const BodyRequired: string := "Webhook request invalid: body is required"
  const SignatureInvalid: string := "Webhook request invalid: signature is invalid"
  const JsonInvalid: string := "Webhook request invalid: json is invalid"

  /** A `?string` that PHP reads as false: `null`, "" or "0". */
  predicate Unset(x: Option<string>)
  {
    x == None || x == Some("") || x == Some("0")
  }

  /** All four credentials are truthy: the state of every constructed client. */
  predicate CredentialsSet(c: Credentials)
  {
    TruthyOpt(c.authUrl) && TruthyOpt(c.clientId) && TruthyOpt(c.clientSecret) && TruthyOpt(c.apiUrl)
  }

  /** The constructor's guard: the exception it throws, if any. It refuses
      exactly when one of the four credentials is null, "" or "0". */
  function ConstructorCheck(c: Credentials): (r: Option<Error>)
    ensures r.None? <==> !(Unset(c.authUrl) || Unset(c.apiUrl) || Unset(c.clientId) || Unset(c.clientSecret))
    ensures r.None? <==> CredentialsSet(c)
    ensures r.Some? ==> r.value == ConfigurationError(CredentialsNotSet)
  {
    if !TruthyOpt(c.authUrl) || !TruthyOpt(c.clientId) || !TruthyOpt(c.clientSecret) || !TruthyOpt(c.apiUrl)
    then Some(ConfigurationError(CredentialsNotSet))
    else None
  }

  /** `validateWebhookSignature($body, $receivedHash)`. With a secret set it
      accepts exactly the HMAC of the raw body under the secret; without one
      it throws a configuration error. */
  function ValidateWebhookSignature(c: Credentials, s: Services, body: string, receivedHash: string): (r: Result<bool, Error>)
    ensures r.Failure? <==> Unset(c.clientSecret)
    ensures r.Failure? ==> r.error == ConfigurationError(SecretNotSet)
    ensures r.Success? ==> (r.value <==> receivedHash == s.hmac(c.clientSecret.value, body))
  {
    if !TruthyOpt(c.clientSecret) then Failure(ConfigurationError(SecretNotSet))
    else Success(Verify(s.hmac, c.clientSecret.value, body, receivedHash))
  }

  /** `validateRedirectParams($params, $receivedHash)`: the same check over
      the redirect message of the seven signed fields. */
  function ValidateRedirectParams(c: Credentials, s: Services, params: map<string, string>, receivedHash: string): (r: Result<bool, Error>)
    ensures r.Failure? <==> Unset(c.clientSecret)
    ensures r.Failure? ==> r.error == ConfigurationError(SecretNotSet)
    ensures r.Success? ==> (r.value <==> receivedHash == s.hmac(c.clientSecret.value, RedirectMessage(params)))
  {
    if !TruthyOpt(c.clientSecret) then Failure(ConfigurationError(SecretNotSet))
    else Success(Verify(s.hmac, c.clientSecret.value, RedirectMessage(params), receivedHash))
  }

  /** The header carries the HMAC of the raw body under the client secret. */
  predicate SignedBody(c: Credentials, s: Services, header: Option<string>, body: string)
  {
    header.Some? && c.clientSecret.Some? && header.value == s.hmac(c.clientSecret.value, body)
  }

  /** `validateWebhookRequest($request)` for a request with the given
      `wompi_hash` header and raw body. The checks come in a fixed order
      (header, body, signature over the raw body, JSON) and each failure has
      its own message; the decoded body is returned only when all pass and
      it is an array. */
  function ValidateWebhookRequest(c: Credentials, s: Services, header: Option<string>, body: string): (r: Result<Value, Error>)
    ensures r == Failure(PaymentGatewayError(HeaderRequired)) <==> Unset(header)
    ensures r == Failure(PaymentGatewayError(BodyRequired)) <==> !Unset(header) && (body == "" || body == "0")
    ensures r == Failure(ConfigurationError(SecretNotSet))
        <==> !Unset(header) && Truthy(body) && Unset(c.clientSecret)
    ensures r == Failure(PaymentGatewayError(SignatureInvalid))
        <==> !Unset(header) && Truthy(body) && !Unset(c.clientSecret) && !SignedBody(c, s, header, body)
    ensures r == Failure(PaymentGatewayError(JsonInvalid))
        <==> !Unset(header) && Truthy(body) && !Unset(c.clientSecret) && SignedBody(c, s, header, body)
             && s.decode(body) == None
    ensures r == Failure(ReturnTypeError)
        <==> !Unset(header) && Truthy(body) && !Unset(c.clientSecret) && SignedBody(c, s, header, body)
             && s.decode(body).Some? && !s.decode(body).value.IsArray()
    ensures r.Success?
        <==> !Unset(header) && Truthy(body) && !Unset(c.clientSecret) && SignedBody(c, s, header, body)
             && s.decode(body).Some? && s.decode(body).value.IsArray()
    ensures r.Success? ==> s.decode(body) == Some(r.value)
  {
    if !TruthyOpt(header) then Failure(PaymentGatewayError(HeaderRequired))
    else if !Truthy(body) then Failure(PaymentGatewayError(BodyRequired))
    else
      match ValidateWebhookSignature(c, s, body, header.value)
      case Failure(e) => Failure(e)
      case Success(valid) =>
        if !valid then Failure(PaymentGatewayError(SignatureInvalid))
        else
          match s.decode(body)
          case None => Failure(PaymentGatewayError(JsonInvalid))
          case Some(v) => if v.IsArray() then Success(v) else Failure(ReturnTypeError)
  }

  /** `isset($data[$key])`: the key is present and its value is not null. */
  predicate IsSet(data: Value, key: string)
  {
    data.Dict? && key in data.fields && data.fields[key] != Null
  }

  /** `isSuccessfulPayment($webhookData)`: the field `resultadoTransaccion`
      is the string "ExitosaAprobada", compared strictly (`===`). */
  function IsSuccessfulPayment(data: Value): (ok: bool)
    requires data.IsArray()
    ensures ok <==> data.Dict? && "resultadoTransaccion" in data.fields
                    && data.fields["resultadoTransaccion"] == Str("ExitosaAprobada")
  {
    IsSet(data, "resultadoTransaccion") && data.fields["resultadoTransaccion"] == Str("ExitosaAprobada")
  }

  /** For a constructed client the "secret is not set" branches of the two
      signature checks, and of the webhook pipeline, are never taken. */
  lemma ConstructedClientNeverLacksSecret(c: Credentials, s: Services, header: Option<string>, body: string,
                                          params: map<string, string>, receivedHash: string)
    requires ConstructorCheck(c).None?
    ensures ValidateWebhookSignature(c, s, body, receivedHash).Success?
    ensures ValidateRedirectParams(c, s, params, receivedHash).Success?
    ensures !ValidateWebhookRequest(c, s, header, body).Failure?
         || !ValidateWebhookRequest(c, s, header, body).error.ConfigurationError?
  {
  }

  /** The webhook signature is checked on the raw body before any decoding:
      changing the JSON decoder can only change the outcome of a request
      whose header and body are present and whose signature is valid. */
  lemma WebhookSignatureBeforeDecoding(c: Credentials, s: Services, other: Decoder, header: Option<string>, body: string)
    requires ValidateWebhookRequest(c, s.(decode := other), header, body) != ValidateWebhookRequest(c, s, header, body)
    ensures !Unset(header) && Truthy(body) && SignedBody(c, s, header, body)
  {
  }

  /** A correctly signed webhook whose body decodes to an array is accepted
      and yields exactly the decoded body. */
  lemma SignedWebhookAccepted(c: Credentials, s: Services, body: string, data: Value)
    requires CredentialsSet(c)
    requires Truthy(body) && Truthy(s.hmac(c.clientSecret.value, body))
    requires s.decode(body) == Some(data) && data.IsArray()
    ensures ValidateWebhookRequest(c, s, Some(s.hmac(c.clientSecret.value, body)), body) == Success(data)
  {
  }

  /** Keys outside the seven signed fields never change a redirect verdict. */
  lemma RedirectVerdictIgnoresOtherKeys(c: Credentials, s: Services, p: map<string, string>, q: map<string, string>,
                                        receivedHash: string)
    requires forall k :: k in RedirectFields ==> FieldOr(p, k) == FieldOr(q, k)
    ensures ValidateRedirectParams(c, s, p, receivedHash) == ValidateRedirectParams(c, s, q, receivedHash)
  {
    RedirectMessageIgnoresOtherKeys(p, q);
  }

  /** Because the fields are not delimited, moving characters between the
      amount and the `esReal` flag keeps a valid signature valid. */
  lemma RedirectVerdictBoundaryShift(c: Credentials, s: Services, p: map<string, string>, receivedHash: string)
    ensures ValidateRedirectParams(c, s, p["monto" := "1"]["esReal" := "23"], receivedHash)
         == ValidateRedirectParams(c, s, p["monto" := "12"]["esReal" := "3"], receivedHash)
  {
    RedirectBoundaryIsAmbiguous(p);
  }

  /** The comparison is strict: a present `resultadoTransaccion` makes the
      payment successful only when it is that exact string; `true`, `null`,
      numbers and other strings do not. */
  lemma SuccessIsStrictIdentity(fields: map<string, Value>, v: Value)
    ensures IsSuccessfulPayment(Dict(fields["resultadoTransaccion" := v])) <==> v == Str("ExitosaAprobada")
    ensures !IsSuccessfulPayment(Dict(fields - {"resultadoTransaccion"}))
  {
  }
}
