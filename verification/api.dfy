/**
 The backend capability the facade delegates to. Its two implementations
 (the session-based `WebApi` and the token-based `RestApi`) are not part of
 this model; what remains is the set of operations the facade may invoke,
 the configuration each backend object is built from, and an abstract
 remote service that answers each message.
 */
module Api {
  import opened PhpValues

  /** A backend object as constructed by the facade: its class and the
      constructor arguments it was given. */
  datatype Backend =
    | WebApi(username: Value, password: Value, options: Value)
    | RestApi(username: Value, password: Value, options: Value, apiKey: Value)

  /** One invocation of a backend operation, with its arguments. */
  datatype Call =
    | SearchClientId(email: Value)
    | GetClient(clientId: int)
    | CreateClient(client: Value, password: Value, captchaId: Value)
    | SearchAccountId(domain: Value)
    | GetAccount(accountId: Value)
    | GetCaptcha
    | CheckCaptcha(captchaId: Value, solution: Value)
    | ListClients(page: Value)
    | GetClientLoginUrl(clientId: int)

  /** A call addressed to a particular backend object. */
  datatype Sent = Sent(to: Backend, call: Call)

  /** What a backend call produces: a value, or an exception it raised. */
  datatype Reply = Answer(value: Value) | Raised(reason: string)

  /** The remote side: the reply to a message may depend on every message
      sent before it (creating a client changes what a search finds), so it
      is a function of the history as well as of the message. */
  type Network = (seq<Sent>, Sent) -> Reply

  predicate IsSearch(c: Call) {
    c.SearchClientId? || c.SearchAccountId?
  }

  /** The lookup operation for an entity class. */
  function SearchCall(cls: Entity, query: Value): Call {
    match cls
    case Client => SearchClientId(query)
    case Account => SearchAccountId(query)
  }

  /** The number of lookup calls in a trace. */
  function CountSearches(trace: seq<Sent>): nat {
    if trace == [] then 0
    else (if IsSearch(trace[0].call) then 1 else 0) + CountSearches(trace[1..])
  }

  /** Counting lookups distributes over concatenation of traces. */
  lemma {:induction false} CountSearchesAppend(a: seq<Sent>, b: seq<Sent>)
    ensures CountSearches(a + b) == CountSearches(a) + CountSearches(b)
  {
    if a == [] {
      assert a + b == b;
    } else {
      assert (a + b)[1..] == a[1..] + b;
      CountSearchesAppend(a[1..], b);
    }
  }
}
