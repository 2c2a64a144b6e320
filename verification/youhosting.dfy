/**
 The `YouHosting` facade: backend selection at construction, and the public
 operations, each of which either forwards its arguments to the backend or
 resolves a reference first and then calls the backend with the resulting ID.

 An operation is a function of the facade, the remote service, the history
 of messages already sent, and its arguments; it returns its result together
 with the messages it sent, in order.
 */
module YouHosting {
  import opened PhpValues
  import opened Resolution
  import opened Api

  /** A facade instance: the backend object chosen when it was built. */
  datatype Facade = Facade(api: Backend)

  /** The result of one facade operation and the backend messages it sent. */
  datatype Outcome = Outcome(result: Result<Value>, sent: seq<Sent>)

  /** `new YouHosting($username, $password, $options, $apiKey)`: an empty
      API key (absent, null, "", "0", ...) selects the session-based
      `WebApi`; any other key selects `RestApi`, which also receives it. */
  function Construct(username: Value, password: Value, options: Value, apiKey: Value): (f: Facade)
    ensures f.api.WebApi? <==> Empty(apiKey)
    ensures f.api.RestApi? ==> f.api.apiKey == apiKey
    ensures f.api.username == username && f.api.password == password && f.api.options == options
  {
    if Empty(apiKey) then Facade(WebApi(username, password, options))
    else Facade(RestApi(username, password, options, apiKey))
  }

  /** Constructing without an API key (its default is null) gives the
      session backend; a key that is a non-empty string other than "0"
      gives the token backend. */
  lemma ConstructSelection(username: Value, password: Value, options: Value, key: string)
    ensures Construct(username, password, options, Null).api == WebApi(username, password, options)
    ensures key != "" && key != "0" ==>
              Construct(username, password, options, Str(key)).api == RestApi(username, password, options, Str(key))
    ensures Construct(username, password, options, Str("0")).api.WebApi?
  {
  }

  /** The backend lookup for an entity class, as the facade's resolution
      routine sees it: a message to the facade's own backend. */
  function Lookup(f: Facade, net: Network, history: seq<Sent>, cls: Entity): Value -> Reply {
    q => net(history, Sent(f.api, SearchCall(cls, q)))
  }

  /** The messages for a list of lookups. */
  function Searches(f: Facade, cls: Entity, queries: seq<Value>): seq<Sent> {
    seq(|queries|, i requires 0 <= i < |queries| => Sent(f.api, SearchCall(cls, queries[i])))
  }

  /** The three operations that take a reference rather than an ID. */
  datatype ByReference = GetClientOp | GetLoginUrlOp | GetAccountOp

  /** The entity class an operation's reference denotes. */
  function Target(op: ByReference): Entity {
    if op == GetAccountOp then Account else Client
  }

  /** The backend call an operation makes for a resolved ID: client IDs
      are cast to an integer, account IDs are passed on as they are. */
  function OpCall(php: Builtins, op: ByReference, id: Value): Call {
    match op
    case GetClientOp => Api.GetClient(IntCast(php, id))
    case GetLoginUrlOp => GetClientLoginUrl(IntCast(php, id))
    case GetAccountOp => Api.GetAccount(id)
  }

  /** Whether a backend call is the one `op` makes, whatever its ID. */
  predicate IsOpCall(op: ByReference, call: Call) {
    match op
    case GetClientOp => call.GetClient?
    case GetLoginUrlOp => call.GetClientLoginUrl?
    case GetAccountOp => call.GetAccount?
  }

  /** The reference semantics of a resolve-then-dispatch operation, read
      directly off the shape of the reference: an unidentified object fails
      with no message sent; a reference that needs a lookup sends one
      search, and then either fails with the backend's error or calls the
      operation once with the answer; any other reference calls the
      operation once with the ID it carries. */
  ghost predicate ServedAs(f: Facade, net: Network, php: Builtins, history: seq<Sent>,
                           op: ByReference, ref: Value, o: Outcome)
  {
    var cls := Target(op);
    if Unidentified(cls, ref) then
      o == Outcome(Err(MissingIdentifier(MissingMessage(cls))), [])
    else if NeedsLookup(cls, php, ref) then
      var s := Sent(f.api, SearchCall(cls, Query(cls, ref)));
      match net(history, s)
      case Raised(reason) => o == Outcome(Err(BackendError(reason)), [s])
      case Answer(v) =>
        var c := Sent(f.api, OpCall(php, op, v));
        o == Outcome(FromReply(net(history + [s], c)), [s, c])
    else
      var c := Sent(f.api, OpCall(php, op, Direct(cls, ref)));
      o == Outcome(FromReply(net(history, c)), [c])
  }

  /** Every resolve-then-dispatch operation talks only to the facade's own
      backend, sends at most two messages, makes a lookup exactly when the
      reference needs one, and makes no backend call other than that lookup
      and, last, the operation itself. */
  lemma ServedAsRouting(f: Facade, net: Network, php: Builtins, history: seq<Sent>,
                        op: ByReference, ref: Value, o: Outcome)
    requires ServedAs(f, net, php, history, op, ref, o)
    ensures |o.sent| <= 2
    ensures forall m :: m in o.sent ==> m.to == f.api
    ensures CountSearches(o.sent) == if NeedsLookup(Target(op), php, ref) then 1 else 0
    ensures forall i :: 0 <= i < |o.sent| && !IsSearch(o.sent[i].call) ==> i == |o.sent| - 1
    ensures forall i :: 0 <= i < |o.sent| && !IsSearch(o.sent[i].call) ==> IsOpCall(op, o.sent[i].call)
    ensures forall i :: 0 <= i < |o.sent| && IsSearch(o.sent[i].call) ==>
              o.sent[i].call == SearchCall(Target(op), Query(Target(op), ref))
  {
    var cls := Target(op);
    if !Unidentified(cls, ref) && NeedsLookup(cls, php, ref) {
      var s := Sent(f.api, SearchCall(cls, Query(cls, ref)));
      match net(history, s)
      case Raised(reason) =>
        assert CountSearches(o.sent) == 1 + CountSearches([]);
      case Answer(v) =>
        var c := Sent(f.api, OpCall(php, op, v));
        assert o.sent == [s, c];
        assert o.sent[1..] == [c];
        assert CountSearches([c]) == 0 + CountSearches([]);
        assert CountSearches(o.sent) == 1 + CountSearches([c]);
    } else if !Unidentified(cls, ref) {
      var c := Sent(f.api, OpCall(php, op, Direct(cls, ref)));
      assert CountSearches(o.sent) == CountSearches([c]);
    }
  }

  /** Resolve-then-dispatch: send the lookups the resolution made, then, if
      it succeeded, one call of `op` with the resolved ID. */
  function Dispatch<T>(f: Facade, net: Network, history: seq<Sent>, cls: Entity,
                       res: Resolved<T>, op: T -> Call): Outcome
  {
    var pre := Searches(f, cls, res.lookups);
    match res.outcome
    case Err(e) => Outcome(Err(e), pre)
    case Ok(id) =>
      var c := Sent(f.api, op(id));
      Outcome(FromReply(net(history + pre, c)), pre + [c])
  }

  /** Dispatching a client resolution with a call that casts like `op`
      serves the reference as `op` should. */
  lemma ClientDispatchServes(f: Facade, net: Network, php: Builtins, history: seq<Sent>,
                             client: Value, op: ByReference, mk: int -> Call)
    requires op != GetAccountOp
    requires forall v :: mk(IntCast(php, v)) == OpCall(php, op, v)
    ensures ServedAs(f, net, php, history, op, client,
                     Dispatch(f, net, history, Client, ClientId(client, php, Lookup(f, net, history, Client)), mk))
  {
    var res := ClientId(client, php, Lookup(f, net, history, Client));
    if NeedsLookup(Client, php, client) {
      var q := Query(Client, client);
      assert Searches(f, Client, res.lookups) == [Sent(f.api, SearchCall(Client, q))];
      assert Lookup(f, net, history, Client)(q) == net(history, Sent(f.api, SearchCall(Client, q)));
    } else if !Unidentified(Client, client) {
      assert mk(IntCast(php, Direct(Client, client))) == OpCall(php, op, Direct(Client, client));
      assert Searches(f, Client, res.lookups) == [];
      assert history + [] == history;
    }
  }

  /** Dispatching an account resolution to `getAccount` serves the
      reference as `getAccount` should. */
  lemma AccountDispatchServes(f: Facade, net: Network, php: Builtins, history: seq<Sent>,
                              account: Value, mk: Value -> Call)
    requires forall v :: mk(v) == Api.GetAccount(v)
    ensures ServedAs(f, net, php, history, GetAccountOp, account,
                     Dispatch(f, net, history, Account, AccountId(account, php, Lookup(f, net, history, Account)), mk))
  {
    var res := AccountId(account, php, Lookup(f, net, history, Account));
    if NeedsLookup(Account, php, account) {
      var q := Query(Account, account);
      assert Searches(f, Account, res.lookups) == [Sent(f.api, SearchCall(Account, q))];
      assert Lookup(f, net, history, Account)(q) == net(history, Sent(f.api, SearchCall(Account, q)));
    } else if !Unidentified(Account, account) {
      assert Searches(f, Account, res.lookups) == [];
      assert history + [] == history;
    }
  }

  /** `getClient($client)`. */
  function GetClient(f: Facade, net: Network, php: Builtins, history: seq<Sent>, client: Value): (o: Outcome)
    ensures ServedAs(f, net, php, history, GetClientOp, client, o)
  {
    var mk := (n: int) => Api.GetClient(n);
    ClientDispatchServes(f, net, php, history, client, GetClientOp, mk);
    Dispatch(f, net, history, Client, ClientId(client, php, Lookup(f, net, history, Client)), mk)
  }

  /** `getLoginUrl($client)`. */
  function GetLoginUrl(f: Facade, net: Network, php: Builtins, history: seq<Sent>, client: Value): (o: Outcome)
    ensures ServedAs(f, net, php, history, GetLoginUrlOp, client, o)
  {
    var mk := (n: int) => GetClientLoginUrl(n);
    ClientDispatchServes(f, net, php, history, client, GetLoginUrlOp, mk);
    Dispatch(f, net, history, Client, ClientId(client, php, Lookup(f, net, history, Client)), mk)
  }

  /** `getAccount($account)`: the account ID is passed on uncast. */
  function GetAccount(f: Facade, net: Network, php: Builtins, history: seq<Sent>, account: Value): (o: Outcome)
    ensures ServedAs(f, net, php, history, GetAccountOp, account, o)
  {
    var mk := (v: Value) => Api.GetAccount(v);
    AccountDispatchServes(f, net, php, history, account, mk);
    Dispatch(f, net, history, Account, AccountId(account, php, Lookup(f, net, history, Account)), mk)
  }

  /** Send one call to the facade's backend and return its reply as the result. */
  function Forward(f: Facade, net: Network, history: seq<Sent>, call: Call): Outcome
  {
    var m := Sent(f.api, call);
    Outcome(FromReply(net(history, m)), [m])
  }

  /** `createClient(Client $client, $password, $captchaId = null)`: an
      argument that is not a Client object is refused by the parameter's
      class declaration before anything is sent; otherwise the arguments go
      to the backend unchanged and its reply comes back unchanged. */
  function CreateClient(f: Facade, net: Network, history: seq<Sent>,
                        client: Value, password: Value, captchaId: Value): (o: Outcome)
    ensures !IsInstance(client, Client) ==> o == Outcome(Err(TypeMismatch(Client)), [])
    ensures IsInstance(client, Client) ==>
              && o.sent == [Sent(f.api, Api.CreateClient(client, password, captchaId))]
              && o.result == FromReply(net(history, o.sent[0]))
  {
    if IsInstance(client, Client) then Forward(f, net, history, Api.CreateClient(client, password, captchaId))
    else Outcome(Err(TypeMismatch(Client)), [])
  }

  /** `getCaptcha()`. */
  function GetCaptcha(f: Facade, net: Network, history: seq<Sent>): (o: Outcome)
    ensures o.sent == [Sent(f.api, Api.GetCaptcha)]
    ensures o.result == FromReply(net(history, o.sent[0]))
  {
    Forward(f, net, history, Api.GetCaptcha)
  }

  /** `checkCaptcha($id, $solution)`. */
  function CheckCaptcha(f: Facade, net: Network, history: seq<Sent>, id: Value, solution: Value): (o: Outcome)
    ensures o.sent == [Sent(f.api, Api.CheckCaptcha(id, solution))]
    ensures o.result == FromReply(net(history, o.sent[0]))
  {
    Forward(f, net, history, Api.CheckCaptcha(id, solution))
  }

  /** `listClients($page = 1)`. */
  function ListClients(f: Facade, net: Network, history: seq<Sent>, page: Value): (o: Outcome)
    ensures o.sent == [Sent(f.api, Api.ListClients(page))]
    ensures o.result == FromReply(net(history, o.sent[0]))
  {
    Forward(f, net, history, Api.ListClients(page))
  }
}
