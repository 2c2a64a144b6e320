/**
 A facade instance over its lifetime: a sequence of public operations issued
 one after another against the same instance. The facade keeps no state of
 its own besides the backend chosen at construction, so a session is the
 operations run in order, each one seeing the backend messages of those
 before it.
 */
module Session {
  import opened PhpValues
  import opened Resolution
  import Api
  import opened YouHosting

  /** One public operation with its arguments. */
  datatype Request =
    | GetClientReq(client: Value)
    | GetLoginUrlReq(client: Value)
    | GetAccountReq(account: Value)
    | CreateClientReq(prototype: Value, password: Value, captchaId: Value)
    | GetCaptchaReq
    | CheckCaptchaReq(captchaId: Value, solution: Value)
    | ListClientsReq(page: Value)

  /** The results of a session, one per request, and every message it sent. */
  datatype Transcript = Transcript(results: seq<Result<Value>>, sent: seq<Api.Sent>)

  /** The number of lookups a request calls for: one when it takes a
      reference that must be searched for, none otherwise. */
  function LookupsNeeded(php: Builtins, req: Request): nat {
    match req
    case GetClientReq(c) => if NeedsLookup(Client, php, c) then 1 else 0
    case GetLoginUrlReq(c) => if NeedsLookup(Client, php, c) then 1 else 0
    case GetAccountReq(a) => if NeedsLookup(Account, php, a) then 1 else 0
    case _ => 0
  }

  function TotalLookupsNeeded(php: Builtins, reqs: seq<Request>): nat {
    if reqs == [] then 0 else LookupsNeeded(php, reqs[0]) + TotalLookupsNeeded(php, reqs[1..])
  }

  /** Whether a backend call is the lookup a request's reference calls for:
      the entity's own search, made with the reference's query. Requests
      that take no reference call for no lookup. */
  predicate IsLookupFor(req: Request, c: Api.Call) {
    match req
    case GetClientReq(x) => c == Api.SearchClientId(Query(Client, x))
    case GetLoginUrlReq(x) => c == Api.SearchClientId(Query(Client, x))
    case GetAccountReq(x) => c == Api.SearchAccountId(Query(Account, x))
    case _ => false
  }

  /** One request against the facade: it sends at most two messages, all to
      the facade's own backend, and exactly the lookups it calls for. */
  function Perform(f: Facade, net: Api.Network, php: Builtins, history: seq<Api.Sent>, req: Request): (o: Outcome)
    ensures |o.sent| <= 2
    ensures forall m :: m in o.sent ==> m.to == f.api
    ensures Api.CountSearches(o.sent) == LookupsNeeded(php, req)
    ensures forall m :: m in o.sent && Api.IsSearch(m.call) ==> IsLookupFor(req, m.call)
  {
    match req
    case GetClientReq(c) =>
      var o := GetClient(f, net, php, history, c);
      ServedAsRouting(f, net, php, history, GetClientOp, c, o);
      o
    case GetLoginUrlReq(c) =>
      var o := GetLoginUrl(f, net, php, history, c);
      ServedAsRouting(f, net, php, history, GetLoginUrlOp, c, o);
      o
    case GetAccountReq(a) =>
      var o := GetAccount(f, net, php, history, a);
      ServedAsRouting(f, net, php, history, GetAccountOp, a, o);
      o
    case CreateClientReq(c, password, captchaId) =>
      var o := CreateClient(f, net, history, c, password, captchaId);
      assert Api.CountSearches(o.sent) == 0 + Api.CountSearches([]) by {
        if o.sent != [] { assert o.sent[1..] == []; }
      }
      o
    case GetCaptchaReq =>
      var o := GetCaptcha(f, net, history);
      assert Api.CountSearches(o.sent) == 0 + Api.CountSearches(o.sent[1..]);
      assert o.sent[1..] == [];
      o
    case CheckCaptchaReq(id, solution) =>
      var o := CheckCaptcha(f, net, history, id, solution);
      assert Api.CountSearches(o.sent) == 0 + Api.CountSearches(o.sent[1..]);
      assert o.sent[1..] == [];
      o
    case ListClientsReq(page) =>
      var o := ListClients(f, net, history, page);
      assert Api.CountSearches(o.sent) == 0 + Api.CountSearches(o.sent[1..]);
      assert o.sent[1..] == [];
      o
  }

  /** A session: the requests performed in order on one instance. Every
      message of the whole session goes to the backend chosen when the
      instance was built, each request sends at most two messages, and no
      resolved ID is remembered between requests: the session makes exactly
      as many lookups as its requests call for. */
  function Run(f: Facade, net: Api.Network, php: Builtins, history: seq<Api.Sent>, reqs: seq<Request>): (t: Transcript)
    ensures |t.results| == |reqs|
    ensures |t.sent| <= 2 * |reqs|
    ensures forall m :: m in t.sent ==> m.to == f.api
    ensures Api.CountSearches(t.sent) == TotalLookupsNeeded(php, reqs)
    decreases |reqs|
  {
    if reqs == [] then Transcript([], [])
    else
      var o := Perform(f, net, php, history, reqs[0]);
      var rest := Run(f, net, php, history + o.sent, reqs[1..]);
      Api.CountSearchesAppend(o.sent, rest.sent);
      Transcript([o.result] + rest.results, o.sent + rest.sent)
  }

  /** One transcript followed by another. */
  function Then(t: Transcript, u: Transcript): Transcript {
    Transcript(t.results + u.results, t.sent + u.sent)
  }

  /** The facade carries nothing from one request to the next except what
      the backend was told: running `a + b` is running `a` and then running
      `b` after `a`'s messages. */
  lemma {:induction false} RunAppend(f: Facade, net: Api.Network, php: Builtins, history: seq<Api.Sent>,
                                     a: seq<Request>, b: seq<Request>)
    ensures Run(f, net, php, history, a + b) ==
              Then(Run(f, net, php, history, a), Run(f, net, php, history + Run(f, net, php, history, a).sent, b))
    decreases |a|
  {
    if a == [] {
      assert a + b == b;
      assert history + [] == history;
    } else {
      var o := Perform(f, net, php, history, a[0]);
      var h1 := history + o.sent;
      forall y: seq<Api.Sent> ensures h1 + y == history + (o.sent + y) { }
      forall x: seq<Result<Value>>, y: seq<Result<Value>> ensures [o.result] + (x + y) == [o.result] + x + y { }
      forall x: seq<Api.Sent>, y: seq<Api.Sent> ensures o.sent + (x + y) == o.sent + x + y { }
      assert (a + b)[0] == a[0];
      assert (a + b)[1..] == a[1..] + b;
      var tail := Run(f, net, php, h1, a[1..] + b);
      assert Run(f, net, php, history, a + b) == Transcript([o.result] + tail.results, o.sent + tail.sent);
      var ra' := Run(f, net, php, h1, a[1..]);
      assert Run(f, net, php, history, a) == Transcript([o.result] + ra'.results, o.sent + ra'.sent);
      RunAppend(f, net, php, h1, a[1..], b);
    }
  }

  /** The backend chosen at construction serves the whole session: with
      an empty API key every message goes to a `WebApi`, otherwise every
      message goes to the `RestApi` holding that key. */
  lemma SessionKeepsConstructedBackend(username: Value, password: Value, options: Value, apiKey: Value,
                                       net: Api.Network, php: Builtins, reqs: seq<Request>)
    ensures var f := Construct(username, password, options, apiKey);
            forall m :: m in Run(f, net, php, [], reqs).sent ==>
              (m.to.WebApi? <==> Empty(apiKey)) && (m.to.RestApi? ==> m.to.apiKey == apiKey)
  {
  }

  /** Resolved IDs are not cached: asking twice for a client by e-mail
      searches twice. */
  lemma RepeatedLookupSearchesAgain(f: Facade, net: Api.Network, php: Builtins, email: Value)
    requires !Empty(email)
    ensures Api.CountSearches(Run(f, net, php, [], [GetClientReq(Obj(Client, Null, email)), GetClientReq(Obj(Client, Null, email))]).sent) == 2
  {
    var reqs := [GetClientReq(Obj(Client, Null, email)), GetClientReq(Obj(Client, Null, email))];
    assert reqs[1..][1..] == [];
  }
}
