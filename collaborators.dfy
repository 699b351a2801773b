/** The plugins the authentication layer depends on, at their interface only:
    the crypto plugin, the error helper, the reply's cookie writes and the
    router's shorthand registration methods. */
module Collaborators {
  import opened JsValues

  /** The crypto plugin. Both operations are asynchronous and may reject;
      a rejection is an `Err` carrying the rejected value. `decrypt` receives
      whatever the incoming `authorization` cookie holds, `None` when the
      request carries no such cookie. */
  datatype Crypto = Crypto(
    encrypt: Value -> Result<string, Value>,
    decrypt: Option<string> -> Result<Value, Value>)

  /** A token produced by `encrypt` decrypts back to the payload. */
  ghost predicate RoundTrips(crypto: Crypto)
  {
    forall p :: crypto.encrypt(p).Ok? ==> crypto.decrypt(Some(crypto.encrypt(p).value)) == Ok(p)
  }

  /** A request without the cookie cannot be decrypted. */
  ghost predicate RejectsMissing(crypto: Crypto)
  {
    crypto.decrypt(None).Err?
  }

  /** An HTTP error object as the error helper builds it. */
  datatype HttpError = HttpError(statusCode: nat, message: string)

  /** `httpErrors.unauthorized(message)`. */
  function Unauthorized(message: string): (e: HttpError)
    ensures e.statusCode == 401 && e.message == message
  {
    HttpError(401, message)
  }

  /** What a reply tells the client about one cookie name: store this value
      with these attributes, or delete the cookie. */
  datatype CookieWrite = SetTo(value: string, options: Props) | Cleared

  /** The cookie writes a reply carries, by cookie name; a later write of the
      same name replaces an earlier one. */
  type Jar = map<string, CookieWrite>

  /** Outcome of a call that returns nothing but may throw. */
  datatype Outcome = Done | Thrown(fault: Fault)

  /** A route as the router records it. */
  datatype Route<H> = Route(verb: string, path: string, options: Value, handler: H)

  /** The router: the shorthand methods it has (`get`, `post`, ...) and the
      routes registered so far. */
  class Router<H> {
    const methods: set<string>
    var routes: seq<Route<H>>

    constructor (methods: set<string>)
      ensures this.methods == methods && routes == []
    {
      this.methods := methods;
      routes := [];
    }

    /** `router[name](path, options, handler)`: registers the route when the
        router has that shorthand; otherwise looking it up yields `undefined`
        and calling it throws a TypeError, registering nothing. */
    method Register(name: string, path: string, options: Value, handler: H) returns (r: Outcome)
      modifies this
      ensures name in methods ==> r == Done && routes == old(routes) + [Route(name, path, options, handler)]
      ensures name !in methods ==> r.Thrown? && r.fault.TypeError? && routes == old(routes)
    {
      if name in methods {
        routes := routes + [Route(name, path, options, handler)];
        r := Done;
      } else {
        r := Thrown(TypeError("router[name] is not a function"));
      }
    }
  }
}
