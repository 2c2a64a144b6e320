/**
 Reference resolution: turning whatever the caller has on hand -- a Client or
 Account object, a numeric ID, or an e-mail address / domain -- into the ID
 the backend operations take.

 `getClientId` and `getAccountId` in the facade are the same routine for two
 entity classes; here they are one function, `Resolve`, parameterised by the
 class and by an abstract lookup (`searchClientId` / `searchAccountId`).
 Every resolution also reports the lookups it made, so "no lookup was made"
 is a statement about the result.
 */
module Resolution {
  import opened PhpValues
  import opened Api

  /** The failures a facade operation can report. */
  datatype Error =
    | MissingIdentifier(message: string)  // an object with neither an ID nor an alternate identifier
    | BackendError(reason: string)        // raised by the backend, passed through unchanged
    | TypeMismatch(expected: Entity)      // an argument that violates a class type declaration

  datatype Result<T> = Ok(value: T) | Err(error: Error)

  /** The outcome of a resolution and the arguments of the lookups it made, in order. */
  datatype Resolved<T> = Resolved(outcome: Result<T>, lookups: seq<Value>)

  const ClientMissing: string :=
    "You need to provide either a client ID (recommended) or client e-mail to search for"
  const AccountMissing: string :=
    "You need to provide either an account ID (recommended) or account domain to search for"

  function MissingMessage(cls: Entity): string {
    match cls
    case Client => ClientMissing
    case Account => AccountMissing
  }

  /** A backend reply as a facade result: an exception becomes a
      `BackendError` carrying the same reason. */
  function FromReply(reply: Reply): Result<Value> {
    match reply
    case Answer(v) => Ok(v)
    case Raised(reason) => Err(BackendError(reason))
  }

  // The shapes a reference can take (the resolution routine's branches).

  /** An object of the expected class with neither an ID nor an alternate identifier. */
  predicate Unidentified(cls: Entity, ref: Value) {
    IsInstance(ref, cls) && Empty(ref.id) && Empty(ref.handle)
  }

  /** The reference can only be resolved by asking the backend: an object of
      the expected class with an empty ID but an alternate identifier, or a
      value that is neither such an object nor numeric. */
  predicate NeedsLookup(cls: Entity, php: Builtins, ref: Value) {
    if IsInstance(ref, cls) then Empty(ref.id) && !Empty(ref.handle)
    else !IsNumeric(php, ref)
  }

  /** The value a lookup is made with: the alternate identifier of an
      object of the expected class, otherwise the reference itself. */
  function Query(cls: Entity, ref: Value): Value {
    if IsInstance(ref, cls) then ref.handle else ref
  }

  /** The ID a reference carries itself: the `id` of an object of the
      expected class, otherwise the reference itself. */
  function Direct(cls: Entity, ref: Value): Value {
    if IsInstance(ref, cls) then ref.id else ref
  }

  /** Every reference has exactly one of three shapes: unidentified,
      needing a lookup, or carrying its own ID (a non-empty `id`, or a
      numeric value). */
  lemma ShapesPartition(cls: Entity, php: Builtins, ref: Value)
    ensures !(Unidentified(cls, ref) && NeedsLookup(cls, php, ref))
    ensures !Unidentified(cls, ref) && !NeedsLookup(cls, php, ref) <==>
              (IsInstance(ref, cls) && !Empty(ref.id)) || (!IsInstance(ref, cls) && IsNumeric(php, ref))
  {
  }

  /** The raw resolution routine, before any cast. */
  function Resolve(cls: Entity, ref: Value, php: Builtins, lookup: Value -> Reply): (r: Resolved<Value>)
    ensures |r.lookups| <= 1
    ensures r.lookups != [] <==> NeedsLookup(cls, php, ref)
    ensures NeedsLookup(cls, php, ref) ==>
              r == Resolved(FromReply(lookup(Query(cls, ref))), [Query(cls, ref)])
    ensures r.outcome == Err(MissingIdentifier(MissingMessage(cls))) <==> Unidentified(cls, ref)
    ensures Unidentified(cls, ref) ==> r.lookups == []
    ensures IsInstance(ref, cls) && !Empty(ref.id) ==> r == Resolved(Ok(ref.id), [])
    ensures !IsInstance(ref, cls) && IsNumeric(php, ref) ==> r == Resolved(Ok(ref), [])
  {
    if IsInstance(ref, cls) then
      if !Empty(ref.id) then Resolved(Ok(ref.id), [])
      else if !Empty(ref.handle) then Resolved(FromReply(lookup(ref.handle)), [ref.handle])
      else Resolved(Err(MissingIdentifier(MissingMessage(cls))), [])
    else if IsNumeric(php, ref) then Resolved(Ok(ref), [])
    else Resolved(FromReply(lookup(ref)), [ref])
  }

  /** `getClientId`: the raw resolution, cast with `(int)` on every success path. */
  function ClientId(ref: Value, php: Builtins, lookup: Value -> Reply): (r: Resolved<int>)
    ensures r.lookups == (if NeedsLookup(Client, php, ref) then [Query(Client, ref)] else [])
    ensures Unidentified(Client, ref) ==> r.outcome == Err(MissingIdentifier(ClientMissing))
    ensures !Unidentified(Client, ref) && !NeedsLookup(Client, php, ref) ==>
              r.outcome == Ok(IntCast(php, Direct(Client, ref)))
    ensures NeedsLookup(Client, php, ref) ==>
              r.outcome == match lookup(Query(Client, ref))
                           case Answer(v) => Ok(IntCast(php, v))
                           case Raised(reason) => Err(BackendError(reason))
  {
    var raw := Resolve(Client, ref, php, lookup);
    match raw.outcome
    case Ok(v) => Resolved(Ok(IntCast(php, v)), raw.lookups)
    case Err(e) => Resolved(Err(e), raw.lookups)
  }

  /** `getAccountId`: the raw resolution, returned without a cast. */
  function AccountId(ref: Value, php: Builtins, lookup: Value -> Reply): (r: Resolved<Value>)
    ensures r.lookups == (if NeedsLookup(Account, php, ref) then [Query(Account, ref)] else [])
    ensures Unidentified(Account, ref) ==> r.outcome == Err(MissingIdentifier(AccountMissing))
    ensures !Unidentified(Account, ref) && !NeedsLookup(Account, php, ref) ==>
              r.outcome == Ok(Direct(Account, ref))
    ensures NeedsLookup(Account, php, ref) ==> r.outcome == FromReply(lookup(Query(Account, ref)))
  {
    Resolve(Account, ref, php, lookup)
  }

  /** When no lookup is made, the lookup function has no influence on the
      resolution; when one is made, only its answer for the queried value does. */
  lemma ResolveConsultsOnlyItsQuery(cls: Entity, ref: Value, php: Builtins, l1: Value -> Reply, l2: Value -> Reply)
    requires l1(Query(cls, ref)) == l2(Query(cls, ref))
    ensures Resolve(cls, ref, php, l1) == Resolve(cls, ref, php, l2)
    ensures Resolve(cls, ref, php, l1).lookups == [] ==> forall l :: Resolve(cls, ref, php, l) == Resolve(cls, ref, php, l1)
  {
  }

  /** Account resolution mirrors client resolution for objects: with the
      same `id` and the same alternate identifier (domain for email), both
      make the same lookups and agree on success and on the kind of error;
      the client ID is the account result cast to an integer. */
  lemma AccountMirrorsClient(id: Value, handle: Value, php: Builtins, lookup: Value -> Reply)
    ensures var c := ClientId(Obj(Client, id, handle), php, lookup);
            var a := AccountId(Obj(Account, id, handle), php, lookup);
            && c.lookups == a.lookups
            && (c.outcome.Ok? <==> a.outcome.Ok?)
            && (a.outcome.Ok? ==> c.outcome.value == IntCast(php, a.outcome.value))
            && (a.outcome.Err? ==> (a.outcome.error.MissingIdentifier? <==> c.outcome.error.MissingIdentifier?))
            && (a.outcome.Err? && a.outcome.error.BackendError? ==> c.outcome.error == a.outcome.error)
  {
  }

  /** The same mirror for references that are not objects: a scalar is
      resolved identically by both routines up to the client-side cast. */
  lemma AccountMirrorsClientOnScalars(ref: Value, php: Builtins, lookup: Value -> Reply)
    requires !ref.Obj?
    ensures var c := ClientId(ref, php, lookup);
            var a := AccountId(ref, php, lookup);
            && c.lookups == a.lookups
            && (c.outcome.Ok? <==> a.outcome.Ok?)
            && (a.outcome.Ok? ==> c.outcome.value == IntCast(php, a.outcome.value))
            && (a.outcome.Err? ==> c.outcome.error == a.outcome.error)
  {
  }

  /** The asymmetry between the two routines: a numeric string is returned
      as the string itself by account resolution, but as its integer
      conversion by client resolution. */
  lemma NumericStringAsymmetry(s: string, php: Builtins, lookup: Value -> Reply)
    requires php.isNumericString(s)
    ensures AccountId(Str(s), php, lookup) == Resolved(Ok(Str(s)), [])
    ensures ClientId(Str(s), php, lookup) == Resolved(Ok(php.stringToInt(s)), [])
  {
  }

  /** An `id` of 0 (or "0", or "") counts as absent: such a client object
      with an e-mail is looked up by that e-mail. */
  lemma ZeroIdMeansLookup(email: Value, php: Builtins, lookup: Value -> Reply)
    requires !Empty(email)
    ensures ClientId(Obj(Client, Int(0), email), php, lookup).lookups == [email]
    ensures ClientId(Obj(Client, Str("0"), email), php, lookup).lookups == [email]
    ensures ClientId(Obj(Client, Str(""), email), php, lookup).lookups == [email]
  {
  }

  /** Worked examples for client references. */
  lemma ClientExamples(php: Builtins, lookup: Value -> Reply)
    requires lookup(Str("a@b.com")) == Answer(Int(7))
    requires !php.isNumericString("a@b.com")
    ensures ClientId(Obj(Client, Int(42), Str("a@b.com")), php, lookup) == Resolved(Ok(42), [])
    ensures ClientId(Obj(Client, Null, Str("a@b.com")), php, lookup) == Resolved(Ok(7), [Str("a@b.com")])
    ensures ClientId(Obj(Client, Null, Null), php, lookup) == Resolved(Err(MissingIdentifier(ClientMissing)), [])
    ensures ClientId(Str("a@b.com"), php, lookup) == Resolved(Ok(7), [Str("a@b.com")])
    ensures ClientId(Int(42), php, lookup) == Resolved(Ok(42), [])
  {
  }
}
