# fastify-cookie-auth in Dafny

A model of a Fastify plugin that authenticates requests by an encrypted
session cookie named `authorization`, with proofs about it. The plugin has four parts:

- **Identity resolution.** An `onRequest` hook passes the cookie's value
  (possibly `undefined`) to the crypto plugin's `decrypt`. It stores the
  payload in `request.auth`, or `null` when decryption rejects. It never throws.
- **Route gate.** `fastify.auth.get/push/post/delete/patch(path, [options,]
  handler)` normalises the arguments and registers, through the router method of
  the same name, a wrapper `authHandler`. The wrapper returns
  `httpErrors.unauthorized("please login")` without calling the handler when
  `request.auth` is falsy. Otherwise it returns whatever the handler returns.
- **Session writer.** `reply.signIn(data, options)` merges `options` over
  `{path: "/", maxAge: 86400, httpOnly: true, secure: true}` with `Object.assign`.
  It then encrypts `data` and, only if that succeeds, sets the `authorization`
  cookie.
- **Session clearer.** `reply.signOut()` clears the `authorization` cookie.

Modules:

- `JsValues` (`js_values.dfy`): JavaScript values, truthiness, thrown faults,
  and `Object.assign` on a plain object.
- `Collaborators` (`collaborators.dfy`): the interfaces of the other plugins.
  This covers the crypto plugin, the error helper, a reply's cookie writes and
  the router's shorthand methods.
- `CookieAuth` (`cookie_auth.dfy`): the plugin itself.
  - `Request` is a class whose `auth` field the hook assigns.
  - `Reply` is a class whose cookie jar `signIn` and `signOut` update.
  - The gate, argument normalisation and option merge are functions.
- `Session` (`session.dfy`): a client that stores each reply's cookie writes and
  sends them with its next request. It is used to prove what a series of
  signIns and signOuts means for the next request to an enforced route.

Collaborators are parameters. The crypto plugin is a value `Crypto(encrypt,
decrypt)` of two functions, and each may reject. Lemmas that need more assume
two properties of it:
- `RoundTrips`: a token from `encrypt` decrypts back to its payload.
- `RejectsMissing`: decrypting a missing cookie rejects.

The route gate is a function that returns the handler calls it made along with
its result. This makes "called zero times" and "called once with the same
request and reply" statements about that list.

Three facts about the plugin shape the model:
- Identity is resolved eagerly in the `onRequest` hook on every request. There
  is no lazy, memoized accessor.
- The gate tests truthiness. A payload that decrypts to `0`, `""`, `false`,
  `null` or `undefined` is rejected like a missing cookie.
- There is only the enforced mode. The table's verbs are get, push, post,
  delete and patch.

A stock Fastify router has no `push` shorthand, so calling `fastify.auth.push(...)`
on one throws a TypeError and registers nothing. `Router.Register` models this by
letting the router's set of shorthand names decide. The verb-to-method-name
mapping `MethodName` is stated through the `AuthTable` row.

## Model

| member | source | states |
|---|---|---|
| JsValues.Truthy | index.js:31 | a value passes `!request.auth` exactly when it is not one of undefined, null, false, 0, "" |
| JsValues.Assigned | index.js:56 | `Object.assign` keeps every field of both objects, takes the source's value for each source field and keeps the target's value for every other field |
| JsValues.PlainObject.constructor | index.js:50-55 | the `defaults` object holds exactly the given fields |
| JsValues.PlainObject.Assign | index.js:56 | assigning in place leaves the object holding the merge of its old fields and the source's |
| Collaborators.Unauthorized | index.js:32 | the rejection is a 401 error carrying the given message |
| Collaborators.Router.Register | index.js:27-37 | a router that has the shorthand appends exactly that route; one without it throws a TypeError and registers nothing |
| CookieAuth.CookieValue | index.js:12 | the value read is present exactly when the request has an `authorization` cookie, and is then that cookie's value |
| CookieAuth.Resolve | index.js:11-18 | the identity is null whenever decryption rejects, and otherwise is exactly what decryption produced |
| CookieAuth.Request.constructor | index.js:9 | every request's `auth` starts as null |
| CookieAuth.Request.OnRequest | index.js:11-18 | the hook stores the decrypted payload on success and null on any rejection, missing cookie included; it has no failure outcome |
| CookieAuth.Invoke | index.js:34 | calling a function handler yields its own completion unchanged; calling a non-function throws a TypeError |
| CookieAuth.AuthHandler | index.js:30-36 | falsy `auth`: no handler call and the 401 "please login" result; truthy `auth`: exactly one call with the same request and reply, and that call's result or rejection is returned unchanged |
| CookieAuth.Normalise | index.js:21-25 | a function in the options position becomes the handler and the options become `{}`; otherwise options and handler are forwarded unchanged |
| CookieAuth.AuthTable | index.js:41-47 | the table has exactly get, push, post, delete and patch, and each registers through the router method of the same name |
| CookieAuth.RouteFor | index.js:27-37 | the route registered has the verb's method name, the given path, the normalised options and the wrapper around the normalised handler |
| CookieAuth.VerbIndependent | index.js:41-47 | two verbs register the same path, options and wrapper; only the router method differs |
| CookieAuth.Handle | index.js:20-39 | registration appends exactly the wrapped route through the verb's router method, or throws and registers nothing when the router lacks it |
| CookieAuth.OwnProps | index.js:49 | an omitted options argument contributes no fields; a given one contributes its own |
| CookieAuth.SessionOptions | index.js:50-56 | the cookie attributes are the defaults with each supplied field replacing only its default and extra fields passing through |
| CookieAuth.DefaultPolicy | index.js:50-56 | with no overrides the attributes are exactly path "/", maxAge 86400, httpOnly and secure; overriding maxAge to 3600 keeps the other three |
| CookieAuth.SignInJar | index.js:56-58 | a rejected encryption is passed on and writes nothing; otherwise exactly the `authorization` cookie is set to the token with the merged attributes and every other write is kept |
| CookieAuth.SignOutJar | index.js:61-63 | the `authorization` cookie is cleared and every other write is kept |
| CookieAuth.Reply.SetCookie | index.js:58 | the reply's write for that name becomes the value with the given attributes |
| CookieAuth.Reply.ClearCookie | index.js:62 | the reply's write for that name becomes a deletion |
| CookieAuth.Reply.SignIn | index.js:49-59 | the reply's writes and the outcome are those of `SignInJar`: done with the session cookie set, or the encryption's rejection thrown with the writes unchanged |
| CookieAuth.Reply.SignOut | index.js:61-63 | the reply's writes are those of `SignOutJar` |
| Session.StoreReply | index.js:58-62 | a client stores each cookie a reply sets unless its maxAge is zero or negative, deletes each it clears or sets already expired, and keeps the rest |
| Session.SignInThenRequest | index.js:11-59 | after a successful signIn(data), the next request carrying the reply's cookies resolves to data, or to null when the merged maxAge is zero or negative |
| Session.SignOutThenRequest | index.js:11-63 | after signOut, the next request resolves to null when a missing cookie cannot be decrypted |
| Session.ExchangeCarries | index.js:49-63 | one signIn, signOut or untouched reply keeps the client's session cookie decrypting to the current session holder, or absent when there is none |
| Session.SessionCarried | index.js:49-63 | the same holds after any series of exchanges (by induction) |
| Session.ResolvesToHolder | index.js:11-63 | starting without cookies, a request resolves to the payload of the last successful signIn with a positive maxAge not followed by a signOut or an expiring signIn, or to null |
| Session.EnforcedAfterSession | index.js:11-63 | after any series of exchanges an enforced route runs its handler once, with the session payload as `auth`, exactly when that payload exists and is truthy; otherwise it answers 401 "please login" |
| Session.SignOutLast | index.js:61-63 | after any series of exchanges ending in signOut the client holds no session |
| Session.SignOutThenEnforced | index.js:11-63 | after any series of exchanges ending in signOut an enforced route answers 401 "please login" without calling its handler |

## Left out

- The plugin wrapper and its metadata (`fp(...)`, declared decorators and dependencies). They are framework registration with no behaviour of their own.
- The decoration mechanisms (`decorateRequest`, `decorate`, `decorateReply`). Their effect is modelled as fields and methods of `Request` and `Reply`.
- Asynchrony and concurrent requests. Each request's steps are modelled in sequence. A synchronous throw and a rejected promise are both `Threw`.
- The encryption algorithm, cookie parsing and serialisation, and error formatting. `Crypto` is a pair of functions, so encryption is deterministic in the model. The proofs use only `RoundTrips` and `RejectsMissing`.
- Session.StoreReply: does not model the `expires` attribute or the passage of time, because there is no clock in the model; a cookie expires at once only when its `maxAge` is a number that is zero or negative, and a non-numeric `maxAge` is treated as not expiring.
- Cookie scoping. The client in `Session` keys cookies by name only, and a clear is a deletion by name. Path or domain attributes and the attributes `clearCookie` itself sends are not modelled.
- JavaScript values beyond those the layer inspects. Numbers are integers, so NaN, -0 and fractions are not modelled. Symbols, BigInts and functions as payloads are not modelled.
- `signIn`'s options as a primitive. Only an omitted argument or a plain object is modelled. `Object.assign` copies nothing from null and copies a string's characters as indexed fields.
- The route options the router accepts. The router records whatever options it is given and does not validate them.
- Writes the application handler makes to the reply inside an enforced route. `AuthHandler` records the call. `Session` models the reply's writes as one action per exchange.
- The second argument `true` passed to `handle` in the verb table. `handle` ignores it.
