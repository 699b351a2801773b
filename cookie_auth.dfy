/** The cookie authentication plugin: the hook that resolves the identity of
    every request, the `auth` route table whose wrapper rejects anonymous
    requests, and the reply's `signIn` and `signOut`. */
module CookieAuth {
  import opened JsValues
  import opened Collaborators

  /** Name of the session cookie. */
  const AuthCookie: string := "authorization"

  /** Message of the rejection an enforced route answers with. */
  const LoginMessage: string := "please login"

  /** Cookie attributes `signIn` starts from: path "/", one day, HTTP only,
      secure. */
  const DefaultCookieOptions: Props := map[
    "path" := Str("/"),
    "maxAge" := Num(60 * 60 * 24),
    "httpOnly" := Bool(true),
    "secure" := Bool(true)]

  // ---------------------------------------------------------------------
  // Identity resolution

  /** `request.cookies.authorization`: `None` stands for `undefined`. */
  function CookieValue(cookies: map<string, string>): (v: Option<string>)
    ensures v.Some? <==> AuthCookie in cookies
    ensures v.Some? ==> v.value == cookies[AuthCookie]
  {
    if AuthCookie in cookies then Some(cookies[AuthCookie]) else None
  }

  /** The identity the request hook settles on: the decrypted payload, or
      null whenever decryption rejects, a missing cookie included. */
  function Resolve(crypto: Crypto, cookies: map<string, string>): (auth: Value)
    ensures crypto.decrypt(CookieValue(cookies)).Ok? ==> auth == crypto.decrypt(CookieValue(cookies)).value
    ensures crypto.decrypt(CookieValue(cookies)).Err? ==> auth == Null
  {
    match crypto.decrypt(CookieValue(cookies))
    case Ok(payload) => payload
    case Err(_) => Null
  }

  /** An incoming request: its parsed cookies and the `auth` slot the plugin
      adds to every request. */
  class Request {
    const cookies: map<string, string>
    var auth: Value

    /** The slot starts out as null. */
    constructor (cookies: map<string, string>)
      ensures this.cookies == cookies && auth == Null
    {
      this.cookies := cookies;
      auth := Null;
    }

    /** The `onRequest` hook: decrypts the session cookie and stores the
        payload, or null when decryption rejects. It never throws. */
    method OnRequest(crypto: Crypto)
      modifies this
      ensures crypto.decrypt(CookieValue(cookies)).Ok? ==> auth == crypto.decrypt(CookieValue(cookies)).value
      ensures crypto.decrypt(CookieValue(cookies)).Err? ==> auth == Null
      ensures auth == Resolve(crypto, cookies)
    {
      var authorization := CookieValue(cookies);
      var decrypted := crypto.decrypt(authorization);
      if decrypted.Ok? {
        auth := decrypted.value;
      } else {
        auth := Null;
      }
    }
  }

  // ---------------------------------------------------------------------
  // Route gate

  /** One invocation of an application handler: the request and reply objects
      it is given, and the value of `request.auth` it observes. */
  datatype Call = Call(request: Request, reply: Reply, auth: Value)

  /** What a route handler's promise settles to: a value to send (the error
      helper's objects included), or a rejection. */
  datatype Answer = Body(value: Value) | Failure(error: HttpError)
  datatype Completion = Returned(answer: Answer) | Threw(fault: Fault)

  /** An application handler. */
  type Handler = Call -> Completion

  /** An argument a caller passes to a route method: a function or any other
      value (`undefined` for an argument left off). */
  datatype JsArg = Func(run: Handler) | Plain(value: Value)

  /** Calling an argument as a function: a non-function throws a TypeError. */
  function Invoke(f: JsArg, call: Call): (c: Completion)
    ensures f.Func? ==> c == f.run(call)
    ensures f.Plain? ==> c.Threw? && c.fault.TypeError?
  {
    match f
    case Func(run) => run(call)
    case Plain(_) => Threw(TypeError("handler is not a function"))
  }

  /** The handlers an application handler was invoked with, in order, and
      what the wrapper returned. */
  datatype GateRun = GateRun(calls: seq<Call>, completion: Completion)

  /** `authHandler`: rejects a request whose `auth` is falsy without running
      the application handler; otherwise runs it once on the same request and
      reply and passes its result or rejection through. */
  function AuthHandler(app: JsArg, request: Request, reply: Reply): (run: GateRun)
    reads request
    ensures !Truthy(request.auth) ==>
      run.calls == [] && run.completion == Returned(Failure(HttpError(401, LoginMessage)))
    ensures Truthy(request.auth) ==>
      run.calls == [Call(request, reply, request.auth)] && run.completion == Invoke(app, run.calls[0])
  {
    if !Truthy(request.auth) then
      GateRun([], Returned(Failure(Unauthorized(LoginMessage))))
    else
      var call := Call(request, reply, request.auth);
      GateRun([call], Invoke(app, call))
  }

  /** The wrapper the router receives in place of the application handler. */
  datatype Guarded = AuthHandlerOf(app: JsArg)

  /** The arguments a route method forwards after normalisation. */
  datatype RouteArgs = RouteArgs(options: Value, handler: JsArg)

  /** `(path, handler)` becomes `(path, {}, handler)`: a function in the
      options position is the handler and the options are an empty object;
      otherwise both arguments are forwarded as given. */
  function Normalise(options: JsArg, handler: JsArg): (r: RouteArgs)
    ensures options.Func? ==> r.options == Obj(map[]) && r.handler == options
    ensures options.Plain? ==> r.options == options.value && r.handler == handler
  {
    match options
    case Func(_) => RouteArgs(Obj(map[]), options)
    case Plain(v) => RouteArgs(v, handler)
  }

  /** The verbs of the `auth` table. */
  datatype Verb = Get | Push | Post | Delete | Patch

  /** The router shorthand a verb registers through. */
  function MethodName(verb: Verb): string
  {
    match verb
    case Get => "get"
    case Push => "push"
    case Post => "post"
    case Delete => "delete"
    case Patch => "patch"
  }

  /** `fastify.auth`: each property registers through the router method of
      the same name. */
  function AuthTable(): (table: map<string, Verb>)
    ensures table.Keys == {"get", "push", "post", "delete", "patch"}
    ensures forall name :: name in table ==> MethodName(table[name]) == name
  {
    map["get" := Get, "push" := Push, "post" := Post, "delete" := Delete, "patch" := Patch]
  }

  /** The route `auth[verb](path, options, handler)` asks the router for. */
  function RouteFor(verb: Verb, path: string, options: JsArg, handler: JsArg): (r: Route<Guarded>)
    ensures r.verb == MethodName(verb) && r.path == path
    ensures r.options == Normalise(options, handler).options
    ensures r.handler == AuthHandlerOf(Normalise(options, handler).handler)
  {
    var args := Normalise(options, handler);
    Route(MethodName(verb), path, args.options, AuthHandlerOf(args.handler))
  }

  /** The verb decides only which router method is used: path, options and
      wrapper are the same for every verb. */
  lemma VerbIndependent(v1: Verb, v2: Verb, path: string, options: JsArg, handler: JsArg)
    ensures RouteFor(v1, path, options, handler).handler == RouteFor(v2, path, options, handler).handler
    ensures RouteFor(v1, path, options, handler).options == RouteFor(v2, path, options, handler).options
    ensures RouteFor(v1, path, options, handler).path == RouteFor(v2, path, options, handler).path
  {
  }

  /** `handle(verb)` applied to `(path, options, handler)`: normalises the
      arguments and registers the wrapped handler through the router. */
  method Handle(router: Router<Guarded>, verb: Verb, path: string, options: JsArg, handler: JsArg)
    returns (r: Outcome)
    modifies router
    ensures MethodName(verb) in router.methods ==>
      r == Done && router.routes == old(router.routes) + [RouteFor(verb, path, options, handler)]
    ensures MethodName(verb) !in router.methods ==> r.Thrown? && router.routes == old(router.routes)
  {
    var args := Normalise(options, handler);
    r := router.Register(MethodName(verb), path, args.options, AuthHandlerOf(args.handler));
  }

  // ---------------------------------------------------------------------
  // Session writer and clearer

  /** The own fields of the options argument; an omitted argument is `{}`. */
  function OwnProps(options: Option<Props>): (p: Props)
    ensures options.None? ==> p == map[]
    ensures options.Some? ==> p == options.value
  {
    match options
    case None => map[]
    case Some(props) => props
  }

  /** The cookie attributes `signIn` writes: each supplied field replaces its
      default, the other defaults stay, extra fields pass through. */
  function SessionOptions(options: Option<Props>): (r: Props)
    ensures r.Keys == DefaultCookieOptions.Keys + OwnProps(options).Keys
    ensures forall k :: k in OwnProps(options) ==> r[k] == OwnProps(options)[k]
    ensures forall k :: k in DefaultCookieOptions && k !in OwnProps(options) ==> r[k] == DefaultCookieOptions[k]
  {
    Assigned(DefaultCookieOptions, OwnProps(options))
  }

  /** Without overrides the policy is exactly path "/", max-age 86400,
      HTTP only and secure; overriding max-age keeps the other three. */
  lemma DefaultPolicy()
    ensures SessionOptions(None) ==
      map["path" := Str("/"), "maxAge" := Num(86400), "httpOnly" := Bool(true), "secure" := Bool(true)]
    ensures SessionOptions(Some(map["maxAge" := Num(3600)])) ==
      map["path" := Str("/"), "maxAge" := Num(3600), "httpOnly" := Bool(true), "secure" := Bool(true)]
  {
  }

  /** The cookie writes of a reply after `signIn(data, options)`: once the
      payload is encrypted, exactly the `authorization` cookie is set to the
      token with the merged attributes; a rejected encryption is passed on
      and nothing is written. */
  function SignInJar(crypto: Crypto, jar: Jar, data: Value, options: Option<Props>): (r: Result<Jar, Value>)
    ensures crypto.encrypt(data).Err? ==> r == Err(crypto.encrypt(data).error)
    ensures crypto.encrypt(data).Ok? ==> r.Ok? && r.value.Keys == jar.Keys + {AuthCookie}
    ensures crypto.encrypt(data).Ok? ==>
      r.value[AuthCookie] == SetTo(crypto.encrypt(data).value, SessionOptions(options))
    ensures crypto.encrypt(data).Ok? ==>
      forall k :: k in jar && k != AuthCookie ==> r.value[k] == jar[k]
  {
    match crypto.encrypt(data)
    case Ok(token) => Ok(jar[AuthCookie := SetTo(token, SessionOptions(options))])
    case Err(e) => Err(e)
  }

  /** The cookie writes of a reply after `signOut()`: the `authorization`
      cookie is cleared and every other write is kept. */
  function SignOutJar(jar: Jar): (r: Jar)
    ensures r.Keys == jar.Keys + {AuthCookie}
    ensures r[AuthCookie] == Cleared
    ensures forall k :: k in jar && k != AuthCookie ==> r[k] == jar[k]
  {
    jar[AuthCookie := Cleared]
  }

  /** A reply under construction, with the cookie writes it carries. */
  class Reply {
    var cookies: Jar

    constructor ()
      ensures cookies == map[]
    {
      cookies := map[];
    }

    /** The cookie plugin's `setCookie(name, value, options)`. */
    method SetCookie(name: string, value: string, options: Props)
      modifies this
      ensures cookies == old(cookies)[name := SetTo(value, options)]
    {
      cookies := cookies[name := SetTo(value, options)];
    }

    /** The cookie plugin's `clearCookie(name)`. */
    method ClearCookie(name: string)
      modifies this
      ensures cookies == old(cookies)[name := Cleared]
    {
      cookies := cookies[name := Cleared];
    }

    /** `reply.signIn(data, options)`: merges the options over the defaults,
        encrypts the payload and only then sets the session cookie. */
    method SignIn(crypto: Crypto, data: Value, options: Option<Props>) returns (r: Outcome)
      modifies this
      ensures SignInJar(crypto, old(cookies), data, options).Ok? ==>
        r == Done && cookies == SignInJar(crypto, old(cookies), data, options).value
      ensures SignInJar(crypto, old(cookies), data, options).Err? ==>
        r == Thrown(Raised(SignInJar(crypto, old(cookies), data, options).error)) && cookies == old(cookies)
    {
      var defaults := new PlainObject(DefaultCookieOptions);
      defaults.Assign(OwnProps(options));
      var encrypted := crypto.encrypt(data);
      if encrypted.Err? {
        return Thrown(Raised(encrypted.error));
      }
      SetCookie(AuthCookie, encrypted.value, defaults.props);
      r := Done;
    }

    /** `reply.signOut()`. */
    method SignOut()
      modifies this
      ensures cookies == SignOutJar(old(cookies))
    {
      ClearCookie(AuthCookie);
    }
  }
}
