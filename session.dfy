/** A client talking to routes of the plugin over several exchanges: each
    reply's cookie writes are stored by the client and sent back with its
    next request. This ties `signIn`, `signOut`, the request hook and the
    route gate together. */
module Session {
  import opened JsValues
  import opened Collaborators
  import opened CookieAuth

  /** A cookie whose `maxAge` is zero or negative is deleted by the client
      as soon as it arrives. */
  predicate ExpiresAtOnce(options: Props)
  {
    "maxAge" in options && options["maxAge"].Num? && options["maxAge"].n <= 0
  }

  /** Whether a write leaves the cookie stored on the client. */
  predicate Keeps(write: CookieWrite)
  {
    write.SetTo? && !ExpiresAtOnce(write.options)
  }

  /** The cookies a client holds after receiving a reply: a cookie the reply
      sets is stored unless it is already expired, a cookie it clears or sets
      expired is deleted, the rest are kept. */
  function StoreReply(stored: map<string, string>, jar: Jar): (r: map<string, string>)
    ensures forall k :: k in jar && jar[k].SetTo? && !ExpiresAtOnce(jar[k].options) ==>
      k in r && r[k] == jar[k].value
    ensures forall k :: k in jar && jar[k].SetTo? && ExpiresAtOnce(jar[k].options) ==> k !in r
    ensures forall k :: k in jar && jar[k].Cleared? ==> k !in r
    ensures forall k :: k !in jar ==> (k in r <==> k in stored)
    ensures forall k :: k !in jar && k in stored ==> r[k] == stored[k]
  {
    map k | k in stored.Keys + jar.Keys && (k in jar ==> Keeps(jar[k])) ::
      if k in jar then jar[k].value else stored[k]
  }

  /** What the handler of one exchange did with its reply. */
  datatype Action = SignedIn(data: Value, options: Option<Props>) | SignedOut | Untouched

  /** The cookie writes of a fresh reply after the action. */
  function ReplyJar(crypto: Crypto, action: Action): Jar
  {
    match action
    case SignedIn(data, options) =>
      (match SignInJar(crypto, map[], data, options)
       case Ok(jar) => jar
       case Err(_) => map[])
    case SignedOut => SignOutJar(map[])
    case Untouched => map[]
  }

  /** The client's cookies after a series of exchanges. */
  function CookiesAfter(crypto: Crypto, stored: map<string, string>, actions: seq<Action>): map<string, string>
    decreases |actions|
  {
    if actions == [] then stored
    else CookiesAfter(crypto, StoreReply(stored, ReplyJar(crypto, actions[0])), actions[1..])
  }

  /** Whose session the client holds after one more exchange: a successful
      signIn replaces it (and ends it when its cookie is already expired), a
      signIn whose encryption rejected leaves it, a signOut ends it. */
  function NextHolder(crypto: Crypto, holder: Option<Value>, action: Action): Option<Value>
  {
    match action
    case SignedIn(data, options) =>
      if crypto.encrypt(data).Err? then holder
      else if ExpiresAtOnce(SessionOptions(options)) then None
      else Some(data)
    case SignedOut => None
    case Untouched => holder
  }

  /** Whose session the client holds after a series of exchanges. */
  function HolderAfter(crypto: Crypto, holder: Option<Value>, actions: seq<Action>): Option<Value>
    decreases |actions|
  {
    if actions == [] then holder
    else HolderAfter(crypto, NextHolder(crypto, holder, actions[0]), actions[1..])
  }

  /** The client's cookies carry the session of `holder`: no session cookie
      when there is none, otherwise one that decrypts to its payload. */
  ghost predicate Carries(crypto: Crypto, stored: map<string, string>, holder: Option<Value>)
  {
    match holder
    case None => AuthCookie !in stored
    case Some(p) => AuthCookie in stored && crypto.decrypt(Some(stored[AuthCookie])) == Ok(p)
  }

  /** After `signIn(data)` succeeded on a reply, the client's next request
      resolves to `data` unless the cookie's maxAge made it expire at once,
      in which case it resolves to null (when a missing cookie cannot be
      decrypted), whatever else the reply wrote or the client held. */
  lemma SignInThenRequest(crypto: Crypto, stored: map<string, string>, jar: Jar, data: Value, options: Option<Props>)
    requires RoundTrips(crypto) && RejectsMissing(crypto)
    requires crypto.encrypt(data).Ok?
    ensures SignInJar(crypto, jar, data, options).Ok?
    ensures !ExpiresAtOnce(SessionOptions(options)) ==>
      Resolve(crypto, StoreReply(stored, SignInJar(crypto, jar, data, options).value)) == data
    ensures ExpiresAtOnce(SessionOptions(options)) ==>
      Resolve(crypto, StoreReply(stored, SignInJar(crypto, jar, data, options).value)) == Null
  {
  }

  /** After `signOut()`, the client's next request resolves to null. */
  lemma SignOutThenRequest(crypto: Crypto, stored: map<string, string>, jar: Jar)
    requires RejectsMissing(crypto)
    ensures Resolve(crypto, StoreReply(stored, SignOutJar(jar))) == Null
  {
  }

  /** One exchange keeps the client's cookies in step with the session. */
  lemma ExchangeCarries(crypto: Crypto, stored: map<string, string>, holder: Option<Value>, action: Action)
    requires RoundTrips(crypto)
    requires Carries(crypto, stored, holder)
    ensures Carries(crypto, StoreReply(stored, ReplyJar(crypto, action)), NextHolder(crypto, holder, action))
  {
  }

  /** Any series of exchanges keeps the client's cookies in step with the
      session. */
  lemma {:induction false} SessionCarried(crypto: Crypto, stored: map<string, string>, holder: Option<Value>, actions: seq<Action>)
    requires RoundTrips(crypto)
    requires Carries(crypto, stored, holder)
    ensures Carries(crypto, CookiesAfter(crypto, stored, actions), HolderAfter(crypto, holder, actions))
    decreases |actions|
  {
    if actions != [] {
      ExchangeCarries(crypto, stored, holder, actions[0]);
      SessionCarried(crypto, StoreReply(stored, ReplyJar(crypto, actions[0])),
        NextHolder(crypto, holder, actions[0]), actions[1..]);
    }
  }

  /** Starting without cookies, the request hook resolves to the payload of
      the last successful signIn whose cookie did not expire at once, unless a
      signOut or an expiring signIn came later, and to null otherwise. */
  lemma ResolvesToHolder(crypto: Crypto, actions: seq<Action>)
    requires RoundTrips(crypto) && RejectsMissing(crypto)
    ensures Resolve(crypto, CookiesAfter(crypto, map[], actions)) ==
      match HolderAfter(crypto, None, actions)
      case None => Null
      case Some(p) => p
  {
    SessionCarried(crypto, map[], None, actions);
  }

  /** On an enforced route, the application handler runs (exactly once) iff
      the client holds a session whose payload is truthy; otherwise the
      reply is the 401 "please login" rejection. */
  lemma EnforcedAfterSession(crypto: Crypto, actions: seq<Action>, app: JsArg, request: Request, reply: Reply)
    requires RoundTrips(crypto) && RejectsMissing(crypto)
    requires request.cookies == CookiesAfter(crypto, map[], actions)
    requires request.auth == Resolve(crypto, request.cookies)
    ensures var holder := HolderAfter(crypto, None, actions);
      var run := AuthHandler(app, request, reply);
      (|run.calls| == 1 <==> holder.Some? && Truthy(holder.value)) &&
      (run.calls == [] ==> run.completion == Returned(Failure(Unauthorized(LoginMessage)))) &&
      (holder.Some? ==> forall c :: c in run.calls ==> c.auth == holder.value)
  {
    ResolvesToHolder(crypto, actions);
  }

  /** A signOut ends the session, whatever came before it. */
  lemma {:induction false} SignOutLast(crypto: Crypto, holder: Option<Value>, actions: seq<Action>)
    ensures HolderAfter(crypto, holder, actions + [SignedOut]) == None
    decreases |actions|
  {
    if actions == [] {
      assert HolderAfter(crypto, holder, [SignedOut]) == HolderAfter(crypto, None, []);
    } else {
      assert (actions + [SignedOut])[1..] == actions[1..] + [SignedOut];
      SignOutLast(crypto, NextHolder(crypto, holder, actions[0]), actions[1..]);
    }
  }

  /** Whatever exchanges came before, a request sent after signOut is
      rejected by an enforced route without running its handler. */
  lemma SignOutThenEnforced(crypto: Crypto, actions: seq<Action>, app: JsArg, request: Request, reply: Reply)
    requires RoundTrips(crypto) && RejectsMissing(crypto)
    requires request.cookies == CookiesAfter(crypto, map[], actions + [SignedOut])
    requires request.auth == Resolve(crypto, request.cookies)
    ensures AuthHandler(app, request, reply).calls == []
    ensures AuthHandler(app, request, reply).completion == Returned(Failure(Unauthorized(LoginMessage)))
  {
    SignOutLast(crypto, None, actions);
    EnforcedAfterSession(crypto, actions + [SignedOut], app, request, reply);
  }
}
