# YouHosting facade — a Dafny model

The `YouHosting` class is the front door of a PHP client library for
reseller accounts at a hosting provider. It does three things:

- When it is built, it picks a backend. With no API key it picks the
  session-based `WebApi`. With an API key it picks the token-based `RestApi`.
- It resolves client and account references. The caller may pass a `Client`
  or `Account` object, a numeric ID, or an e-mail address or domain. The
  facade turns that into the ID the backend wants. It asks the backend
  (`searchClientId` / `searchAccountId`) only when it has to.
- Each public operation either forwards its arguments to the backend
  unchanged, or resolves a reference and then calls the backend once with
  the resulting ID.

The model is pure and functional:

- `php_values.dfy` (`PhpValues`): the PHP values a caller can pass.
  It also defines `empty()`, `is_numeric()`, the `(int)` cast and `instanceof`.
- `api.dfy` (`Api`): the backend capability.
  - Backend objects carry their constructor arguments.
  - One datatype holds every backend call.
  - The remote side is a `Network`. It answers a message given every message
    sent before it, so a stateful server is still a plain function.
- `resolution.dfy` (`Resolution`): `getClientId` and `getAccountId` as one
  routine, `Resolve`, plus the two instances.
  - Each resolution returns its outcome together with the lookups it made.
  - This makes "no lookup was made" a property of the result.
- `youhosting.dfy` (`YouHosting`): construction and the public operations.
  - Each operation returns its result and the backend messages it sent.
  - `ServedAs` states what a resolve-then-dispatch operation does, read
    directly off the shape of the reference. It is an independent reference
    definition. `GetClient`, `GetLoginUrl` and `GetAccount` are proved to meet it.
- `session.dfy` (`Session`): one facade instance over its lifetime, as a
  sequence of operations. It proves:
  - every message goes to the backend chosen at construction;
  - resolved IDs are never cached;
  - a session splits into consecutive sessions with no hidden state.

A few behaviours of the code are worth knowing. The model follows the code:

- Account resolution returns the ID **uncast** (`return $id;`). A numeric
  string stays a string. Client resolution casts with `(int)`.
- Resolved IDs are not checked to be non-negative. `(int)` of a negative
  numeric reference is passed on as it is.
- PHP's `empty` also treats the string `"0"` (and `false`, and an empty
  array) as absent. So an `id` of `"0"` triggers a lookup when the e-mail or
  domain is set (with neither set it is the missing-identifier error), and an
  API key of `"0"` selects `WebApi`.
- The stub operations return `null` silently. They do not fail with a
  "not implemented" error.

## Model

| member | source | states |
|---|---|---|
| PhpValues.EmptyExactly | src/YouHosting.php:43-45 | For every value: `empty` holds exactly for null, false, 0, "", "0" and the empty array; every other value, objects included, is present |
| Resolution.Resolve | src/YouHosting.php:42-54 | At most one lookup, made exactly when the reference needs one, with the alternate identifier or the raw value, and its answer or exception is the outcome. A non-empty `id` wins over the alternate identifier with no lookup. A numeric non-object resolves to itself with no lookup. The missing-identifier error occurs exactly for an object with neither field, and no lookup is made then. |
| Resolution.ClientId | src/YouHosting.php:40-57 | Client resolution: same lookups as the shape requires. The result is the `(int)` cast of the `id`, of the numeric reference, or of the lookup's answer. The client missing-identifier message is used when neither field is set. |
| Resolution.AccountId | src/YouHosting.php:90-107 | Account resolution: same shape with `domain` and `searchAccountId`. The `id`, the numeric reference, or the lookup's answer is returned uncast. The account message is used on a missing identifier. |
| Resolution.ShapesPartition | src/YouHosting.php:42-53 | Every reference is exactly one of three kinds: unidentified, needing a lookup, or carrying its own ID (non-empty `id` or numeric) |
| Resolution.ResolveConsultsOnlyItsQuery | src/YouHosting.php:42-54 | Resolution depends on the lookup only through its answer for the queried value. When no lookup is made, no lookup function changes the result. |
| Resolution.AccountMirrorsClient | src/YouHosting.php:90-99 | An Account object and a Client object with the same `id` and alternate identifier make the same lookups. They succeed or fail together, with the same kind of error. The client ID is the `(int)` cast of the account result. |
| Resolution.AccountMirrorsClientOnScalars | src/YouHosting.php:100-104 | For non-object references both routines make the same lookups and agree up to the client-side cast, errors included |
| Resolution.NumericStringAsymmetry | src/YouHosting.php:100-106 | A numeric string comes back from account resolution as the string itself, and from client resolution as its integer conversion, with no lookup either way |
| Resolution.ZeroIdMeansLookup | src/YouHosting.php:43-46 | A Client whose `id` is 0, "0" or "" and whose e-mail is set is looked up by that e-mail |
| Resolution.ClientExamples | src/YouHosting.php:40-57 | Worked cases. `{id 42, email}` resolves to 42 with no lookup. `{email}` resolves to what the lookup answers. `{}` fails with the missing-identifier message. A bare e-mail string is looked up. `42` resolves to 42. |
| YouHosting.Construct | src/YouHosting.php:24-31 | The backend is `WebApi` exactly when the API key is empty, otherwise `RestApi` holding that key. Username, password and options reach the backend unchanged. |
| YouHosting.ConstructSelection | src/YouHosting.php:24-31 | The default (null) key selects `WebApi`, any string key other than "" and "0" selects `RestApi`, and the key "0" selects `WebApi` |
| YouHosting.ServedAsRouting | src/YouHosting.php:66-69 | A resolve-then-dispatch operation sends at most two messages, all to the facade's own backend. It makes a lookup exactly when the reference needs one, and every search is the entity's own search (`searchClientId` or `searchAccountId`) for the reference's query. Every other message is the operation's own backend call (`getClient`, `getClientLoginUrl` or `getAccount`), sent last. |
| YouHosting.ClientDispatchServes | src/YouHosting.php:66-69 | Client resolution followed by dispatch meets the reference semantics of a client-ID operation |
| YouHosting.AccountDispatchServes | src/YouHosting.php:85-88 | Account resolution followed by dispatch meets the reference semantics of `getAccount` |
| YouHosting.GetClient | src/YouHosting.php:66-69 | `getClient` meets the reference semantics. An unidentified Client fails with no message sent. Otherwise at most one search is sent, then one `getClient` call with the `(int)` ID, whose reply is returned. A backend exception is returned unchanged. |
| YouHosting.GetLoginUrl | src/YouHosting.php:151-154 | `getLoginUrl` is the same as `getClient`, but calls `getClientLoginUrl` |
| YouHosting.GetAccount | src/YouHosting.php:85-88 | `getAccount` is the same, with account resolution, and the ID is passed uncast |
| YouHosting.CreateClient | src/YouHosting.php:80-83 | A non-Client first argument is refused by the parameter's class declaration, with nothing sent. Otherwise the client, password and captcha ID go to the backend unchanged, and its reply comes back unchanged. |
| YouHosting.GetCaptcha | src/YouHosting.php:114-117 | One `getCaptcha` call; the reply is returned unchanged |
| YouHosting.CheckCaptcha | src/YouHosting.php:126-129 | One `checkCaptcha` call with the captcha ID and solution unchanged; the reply is returned unchanged |
| YouHosting.ListClients | src/YouHosting.php:140-143 | One `listClients` call with the page unchanged; the reply is returned unchanged |
| Session.Perform | src/YouHosting.php:66-154 | Any public operation sends at most two messages, all to the facade's backend, and exactly the lookups its reference needs: as many searches as it needs, each one the entity's own search (`searchClientId` or `searchAccountId`) for the reference's query, and no search for a request that takes no reference |
| Session.Run | src/YouHosting.php:14-31 | Over a whole sequence of operations on one instance, every message goes to the backend chosen at construction. There is one result per request and at most two messages per request. The number of lookups equals the number of requests that need one, so nothing is cached. |
| Session.RunAppend | src/YouHosting.php:12-14 | The facade holds no state besides its backend. Running `a + b` equals running `a`, then running `b` after `a`'s messages. |
| Session.SessionKeepsConstructedBackend | src/YouHosting.php:24-31 | For an instance built with a given key, every message of every session goes to `WebApi` if the key is empty, and otherwise to the `RestApi` holding that key |
| Session.RepeatedLookupSearchesAgain | src/YouHosting.php:45-46 | Asking twice for a client known only by e-mail searches twice |

## Left out

- The stub operations are not modelled: `getLoginUrlAccount`, `checkDomain`,
  `listAccounts`, `suspendAccount`, `suspendClient`, `unsuspendAccount`,
  `unsuspendClient`, `deleteAccount`, `getSubdomains`, `getPlans` and
  `getNameservers`. Their bodies are empty and return `null`, so there is no
  behaviour to state.
- `WebApi` and `RestApi` are not part of this model: HTTP transport,
  sessions, scraping and JSON handling. Their answers come from the abstract
  `Network`, and an exception they raise is a `Raised` reply.
- PHP's `is_numeric` and `(int)` on strings are abstract parameters
  (`Builtins`). Examples are leading blanks, exponents and `"3.7"`.
  - For other values they are defined as PHP defines them.
  - An object casts to 1. The notice PHP emits for that is not modelled.
- PHP floats are not a `Value`. A float reference would be numeric and
  truncated by `(int)`.
- `Int` is unbounded. PHP integers are 64-bit, and larger literals become
  floats. The facade does no arithmetic, so no wrap-around arises.
- The `Client` and `Account` classes are not part of this model. Only their
  `id` and `email` / `domain` properties are read, and an unset property
  is `Null`.
- Default arguments are explicit inputs:
  - `$options = array()` is `Arr([])`;
  - `$apiKey = null` and `$captchaId = null` are `Null`;
  - `$page = 1` is `Int(1)`.
- Objects of classes other than `Client` and `Account` are not a `Value`.
  In the source such an object takes the lookup branch (lines 52-53 and
  102-103); the model exercises that branch with an object of the other
  entity class instead.
- A `Client` or `Account` object carries only its `id` and `email` /
  `domain`. Other fields of a `createClient` prototype (name and the like)
  are not modelled, so the `Network` cannot answer differently for
  prototypes that differ only in those fields.
- Objects are values. PHP passes an object by handle, so `createClient`
  hands the backend the caller's own `Client`; a backend writing to that
  object is not modelled. The facade itself never relies on it.
- Captcha and client-list payloads are backend-defined. They are opaque `Value`s.
