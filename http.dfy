/** The parts of the web framework the site relies on: HTTP status codes,
    cookies, the per-request cookie jar and the outcome of a request guard. */
module Http {
  import opened Wrappers

  type StatusCode = int

  const StatusOk: StatusCode := 200
  const StatusCreated: StatusCode := 201
  const StatusNoContent: StatusCode := 204
  const StatusForbidden: StatusCode := 403
  const StatusConflict: StatusCode := 409

  /** How long the browser keeps a cookie: for the browsing session, for a
      number of seconds, for good (`permanent()`), or not at all (a removal
      cookie, already expired). */
  datatype Lifetime = BrowserSession | MaxAge(seconds: nat) | Permanent | Expired

  datatype Cookie = Cookie(
    name: string,
    value: string,
    domain: Option<string>,
    path: Option<string>,
    secure: bool,
    httpOnly: bool,
    lifetime: Lifetime)

  /** `Cookie::build(name, value)` before any attribute is set. */
  function BuildCookie(name: string, value: string): Cookie
  {
    Cookie(name, value, None, None, false, false, BrowserSession)
  }

  /** The cookie sent to make the browser forget `c`: same name, domain and
      path, empty value, already expired. */
  function RemovalOf(c: Cookie): Cookie
  {
    c.(value := "", lifetime := Expired)
  }

  /** Outcome of a request guard: it produced a value or forwarded the request. */
  datatype Outcome<+T> = Success(value: T) | Forward

  /** The Set-Cookie headers a response carries, one per cookie name, applied
      by the browser to the cookies it holds: an expired cookie deletes its
      name, any other sets it. */
  function Applied(held: map<string, Cookie>, headers: map<string, Cookie>): (after: map<string, Cookie>)
    ensures forall n | n in headers :: (n in after <==> headers[n].lifetime != Expired)
    ensures forall n | n in headers && n in after :: after[n] == headers[n]
    ensures forall n | n !in headers :: (n in after <==> n in held) && (n in after ==> after[n] == held[n])
  {
    map n | n in held.Keys + headers.Keys && !(n in headers && headers[n].lifetime == Expired)
      :: if n in headers then headers[n] else held[n]
  }

  /** The headers that reach the browser: the jar's pending changes, unless
      the handler panicked, in which case the framework drops them and
      answers with its error page. */
  function HeadersSent(panicked: bool, delta: map<string, Cookie>): map<string, Cookie>
  {
    if panicked then map[] else delta
  }

  /** A response from a panicking handler leaves the browser's cookies as
      they were. */
  lemma NothingSentOnPanic(held: map<string, Cookie>, delta: map<string, Cookie>)
    ensures Applied(held, HeadersSent(true, delta)) == held
  {
    assert Applied(held, map[]).Keys == held.Keys;
  }

  /** One more header that keeps its cookie sets that cookie on top of what
      the other headers leave. */
  lemma AppliedWithOneMore(held: map<string, Cookie>, headers: map<string, Cookie>, c: Cookie)
    requires c.lifetime != Expired
    ensures Applied(held, headers[c.name := c]) == Applied(held, headers)[c.name := c]
  {
    var lhs := Applied(held, headers[c.name := c]);
    var rhs := Applied(held, headers)[c.name := c];
    assert lhs.Keys == rhs.Keys;
  }

  /** The cookies of one request. `cookies` is the jar as the handler sees it,
      pending changes included, keyed by cookie name; `delta` holds the
      pending change of each cookie name, the Set-Cookie header the response
      will carry for it (a later change of a name replaces an earlier one). */
  class CookieJar {
    var cookies: map<string, Cookie>
    var delta: map<string, Cookie>

    ghost predicate Valid()
      reads this
    {
      && (forall n | n in cookies :: cookies[n].name == n)
      && (forall n | n in delta :: delta[n].name == n)
    }

    /** The jar of an incoming request, holding the cookies the browser sent. */
    constructor (sent: map<string, Cookie>)
      requires forall n | n in sent :: sent[n].name == n
      ensures Valid()
      ensures cookies == sent && delta == map[]
    {
      cookies := sent;
      delta := map[];
    }

    function Get(name: string): (c: Option<Cookie>)
      reads this
      requires Valid()
      ensures c.Some? <==> name in cookies
      ensures c.Some? ==> c.value.name == name
    {
      if name in cookies then Some(cookies[name]) else None
    }

    method Add(c: Cookie)
      requires Valid()
      modifies this
      ensures Valid()
      ensures cookies == old(cookies)[c.name := c]
      ensures delta == old(delta)[c.name := c]
    {
      cookies := cookies[c.name := c];
      delta := delta[c.name := c];
    }

    method Remove(c: Cookie)
      requires Valid()
      modifies this
      ensures Valid()
      ensures cookies == old(cookies) - {c.name}
      ensures delta == old(delta)[c.name := RemovalOf(c)]
    {
      cookies := cookies - {c.name};
      delta := delta[c.name := RemovalOf(c)];
    }
  }
}
