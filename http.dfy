/** The HTTP traffic of the client: the requests it sends to the
    authorization server and to the API, and the replies it can get back.
    Transport, form and JSON encoding are not modelled; a reply is either an
    answer, a rejection (a 4xx or 5xx status, on which Laravel's `throw()`
    raises a RequestException), or an unreachable server (Laravel's
    ConnectionException). */
module Http {
  import opened Json

  datatype Verb = Get | Post | Delete

  /** One outbound request, as the server receives it. */
  datatype Outbound =
    | AuthExchange(url: string, form: map<string, string>)
    | ApiCall(verb: Verb, url: string, bearer: string, data: map<string, Value>)

  /** The fields `access_token` and `expires_in` of a successful token reply. */
  datatype Grant = Grant(accessToken: string, expiresIn: int)

  datatype AuthReply = Granted(grant: Grant) | AuthRejected | AuthUnreachable

  datatype ApiReply = Answered(body: string) | ApiRejected | ApiUnreachable

  /** A server answers as a function of every request this client has sent
      so far, to either server, the request being answered last. */
  type AuthServer = seq<Outbound> -> AuthReply
  type ApiServer = seq<Outbound> -> ApiReply

  /** The number of token exchanges in a trace of requests. */
  function Exchanges(sent: seq<Outbound>): nat
  {
    if sent == [] then 0
    else Exchanges(sent[..|sent| - 1]) + (if sent[|sent| - 1].AuthExchange? then 1 else 0)
  }

  /** The number of API calls in a trace of requests. */
  function ApiCalls(sent: seq<Outbound>): nat
  {
    if sent == [] then 0
    else ApiCalls(sent[..|sent| - 1]) + (if sent[|sent| - 1].ApiCall? then 1 else 0)
  }

  /** Every request is either a token exchange or an API call, and the
      counts of both add up over concatenated traces. */
  lemma {:induction false} CountsAppend(a: seq<Outbound>, b: seq<Outbound>)
    ensures Exchanges(a + b) == Exchanges(a) + Exchanges(b)
    ensures ApiCalls(a + b) == ApiCalls(a) + ApiCalls(b)
    ensures Exchanges(b) + ApiCalls(b) == |b|
    decreases |b|
  {
    if b == [] {
      assert a + b == a;
    } else {
      var b' := b[..|b| - 1];
      assert (a + b)[..|a + b| - 1] == a + b';
      assert (a + b)[|a + b| - 1] == b[|b| - 1];
      CountsAppend(a, b');
    }
  }
}
