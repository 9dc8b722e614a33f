/** The request handlers' own logic: the session cookie, the register and
    log-in decision tables, log-out, the not-found page and flash messages.
    Each backend call is abstracted to its response status and the session
    cookie value it carried, if any. */
module Site {
  import opened Wrappers
  import opened Http
  import Template

  const SessionCookieName := "FicAiSession"
  const DefaultDomain := "fic.ai"
  const Home := "/"
  const UnwrapNone := "called `Option::unwrap()` on a `None` value"

  /** The site's configuration: the domain its cookies and pages are for. */
  datatype Config = Config(domain: string)

  datatype User = User(uid: int)

  datatype Redirect = Redirect(location: string)

  /** A one-shot message: its kind ("success" or "error") and its text. */
  datatype Flash = Flash(kind: string, message: string)

  datatype FlashRedirect = FlashRedirect(redirect: Redirect, flash: Flash)

  /** What a register or log-in attempt answers, and the session it starts
      (the backend's session cookie value), if it starts one. */
  datatype AuthOutcome = AuthOutcome(response: FlashRedirect, session: Option<string>)

  function SuccessFlash(message: string): Flash { Flash("success", message) }

  function ErrorFlash(message: string): Flash { Flash("error", message) }

  // ---------------------------------------------------------------- session

  /** The session cookie: the backend's session id, scoped to the site's
      domain and to every path, sent over HTTPS only, hidden from scripts, and
      kept across browser restarts. */
  function CreateSessionCookie(sessionId: string, domain: string): (c: Cookie)
    ensures c.name == SessionCookieName && c.value == sessionId
    ensures c.domain == Some(domain) && c.path == Some(Home)
    ensures c.secure && c.httpOnly && c.lifetime == Permanent
  {
    BuildCookie(SessionCookieName, sessionId).(
      domain := Some(domain), path := Some(Home),
      secure := true, httpOnly := true, lifetime := Permanent)
  }

  /** The cookie handed to the jar to delete the session cookie. */
  function SessionRemovalCookie(domain: string): Cookie
  {
    BuildCookie(SessionCookieName, "").(domain := Some(domain), path := Some(Home))
  }

  /** Deletes the session cookie if there is one; with none, nothing at all
      changes (no removal header is sent either). */
  method ClearSession(jar: CookieJar, domain: string)
    requires jar.Valid()
    modifies jar
    ensures jar.Valid()
    ensures jar.cookies == old(jar.cookies) - {SessionCookieName}
    ensures SessionCookieName in old(jar.cookies) ==>
      jar.delta == old(jar.delta)[SessionCookieName := RemovalOf(SessionRemovalCookie(domain))]
    ensures SessionCookieName !in old(jar.cookies) ==>
      jar.cookies == old(jar.cookies) && jar.delta == old(jar.delta)
  {
    if jar.Get(SessionCookieName).Some? {
      jar.Remove(SessionRemovalCookie(domain));
    }
  }

  method SetSession(jar: CookieJar, sessionId: string, domain: string)
    requires jar.Valid()
    modifies jar
    ensures jar.Valid()
    ensures jar.cookies == old(jar.cookies)[SessionCookieName := CreateSessionCookie(sessionId, domain)]
    ensures jar.delta == old(jar.delta)[SessionCookieName := CreateSessionCookie(sessionId, domain)]
  {
    jar.Add(CreateSessionCookie(sessionId, domain));
  }

  /** The logged-in user: present exactly when a session cookie is, with no
      check of its value. */
  function GetUser(cookies: map<string, Cookie>): (user: Option<User>)
    ensures user.Some? <==> SessionCookieName in cookies
    ensures user.Some? ==> user.value.uid == 0
  {
    if SessionCookieName in cookies then Some(User(0)) else None
  }

  /** `GET /h0/log_out`: drops the session, if any, and sends the browser home. */
  method LogOut(config: Config, jar: CookieJar) returns (r: Redirect)
    requires jar.Valid()
    modifies jar
    ensures jar.Valid()
    ensures r == Redirect(Home)
    ensures jar.cookies == SessionAfter(old(jar.cookies), None, config.domain)
    ensures jar.delta == DeltaAfter(old(jar.cookies), old(jar.delta), None, config.domain)
    ensures GetUser(jar.cookies) == None
  {
    ClearSession(jar, config.domain);
    r := Redirect(Home);
  }

  // ------------------------------------------------ register and log in

  /** The answer to `POST /h0/register` for the backend's status and session
      cookie: 201 starts the session (and panics without a cookie), 403, 409
      and every other status are errors; every answer redirects home. */
  function RegisterOutcome(status: StatusCode, sessionCookie: Option<string>): (r: Result<AuthOutcome>)
    ensures r.Failure? <==> status == StatusCreated && sessionCookie.None?
    ensures r.Ok? ==> r.value.response.redirect == Redirect(Home)
    ensures r.Ok? ==> (r.value.session.Some? <==> status == StatusCreated)
    ensures r.Ok? && status == StatusCreated ==>
      r.value.session == sessionCookie &&
      r.value.response.flash == Flash("success", "Successfully registered.")
    ensures status == StatusForbidden ==>
      r.Ok? && r.value.response.flash == Flash("error", "Forbidden.")
    ensures status == StatusConflict ==>
      r.Ok? && r.value.response.flash == Flash("error", "Account already registered.")
    ensures status !in {StatusCreated, StatusForbidden, StatusConflict} ==>
      r.Ok? && r.value.response.flash == Flash("error", "Error.")
  {
    if status == StatusCreated then
      match sessionCookie
      case Some(id) =>
        Ok(AuthOutcome(FlashRedirect(Redirect(Home), SuccessFlash("Successfully registered.")), Some(id)))
      case None => Failure(UnwrapNone)
    else if status == StatusForbidden then
      Ok(AuthOutcome(FlashRedirect(Redirect(Home), ErrorFlash("Forbidden.")), None))
    else if status == StatusConflict then
      Ok(AuthOutcome(FlashRedirect(Redirect(Home), ErrorFlash("Account already registered.")), None))
    else
      Ok(AuthOutcome(FlashRedirect(Redirect(Home), ErrorFlash("Error.")), None))
  }

  /** The answer to `POST /h0/log_in`: 204 starts the session (and panics
      without a cookie), 403 is "Forbidden.", every other status, 201
      included, is "Error."; every answer redirects home. */
  function LogInOutcome(status: StatusCode, sessionCookie: Option<string>): (r: Result<AuthOutcome>)
    ensures r.Failure? <==> status == StatusNoContent && sessionCookie.None?
    ensures r.Ok? ==> r.value.response.redirect == Redirect(Home)
    ensures r.Ok? ==> (r.value.session.Some? <==> status == StatusNoContent)
    ensures r.Ok? && status == StatusNoContent ==>
      r.value.session == sessionCookie &&
      r.value.response.flash == Flash("success", "Welcome.")
    ensures status == StatusForbidden ==>
      r.Ok? && r.value.response.flash == Flash("error", "Forbidden.")
    ensures status !in {StatusNoContent, StatusForbidden} ==>
      r.Ok? && r.value.response.flash == Flash("error", "Error.")
  {
    if status == StatusNoContent then
      match sessionCookie
      case Some(id) => Ok(AuthOutcome(FlashRedirect(Redirect(Home), SuccessFlash("Welcome.")), Some(id)))
      case None => Failure(UnwrapNone)
    else if status == StatusForbidden then
      Ok(AuthOutcome(FlashRedirect(Redirect(Home), ErrorFlash("Forbidden.")), None))
    else
      Ok(AuthOutcome(FlashRedirect(Redirect(Home), ErrorFlash("Error.")), None))
  }

  /** The session an attempt starts: none when it panicked or failed. */
  function Started(outcome: Result<AuthOutcome>): Option<string>
  {
    if outcome.Ok? then outcome.value.session else None
  }

  /** The jar after clearing the session and then setting `session`, if any:
      any old session is gone, and the new one is present if there is one. */
  function SessionAfter(cookies: map<string, Cookie>, session: Option<string>, domain: string): map<string, Cookie>
  {
    var cleared := cookies - {SessionCookieName};
    if session.Some? then cleared[SessionCookieName := CreateSessionCookie(session.value, domain)]
    else cleared
  }

  /** The pending cookie changes after the same steps: a removal of the
      session cookie if the jar held one, replaced by the new session cookie
      if there is one. */
  function DeltaAfter(cookies: map<string, Cookie>, delta: map<string, Cookie>, session: Option<string>, domain: string): map<string, Cookie>
  {
    var cleared := if SessionCookieName in cookies then delta[SessionCookieName := RemovalOf(SessionRemovalCookie(domain))] else delta;
    if session.Some? then cleared[SessionCookieName := CreateSessionCookie(session.value, domain)]
    else cleared
  }

  function ResponseOf(outcome: Result<AuthOutcome>): Result<FlashRedirect>
  {
    match outcome
    case Ok(o) => Ok(o.response)
    case Failure(e) => Failure(e)
  }

  // ---------------------------------------------- the flash responder

  const FlashCookieName := "_flash"

  /** `n` in decimal notation. */
  function Decimal(n: nat): (s: string)
    ensures |s| > 0
  {
    var digit := [('0' as int + n % 10) as char];
    if n < 10 then digit else Decimal(n / 10) + digit
  }

  /** The cookie that carries a flash message to the next page: the length of
      the kind, ':', the kind and the message, kept for five minutes. */
  function FlashCookie(f: Flash): Cookie
  {
    BuildCookie(FlashCookieName, Decimal(|f.kind|) + ":" + f.kind + f.message).(lifetime := MaxAge(300))
  }

  /** Answering with a `Flash<Redirect>`: the message goes into the response's
      flash cookie and the browser is redirected. */
  method RespondWithFlash(jar: CookieJar, response: FlashRedirect) returns (r: Redirect)
    requires jar.Valid()
    modifies jar
    ensures jar.Valid()
    ensures r == response.redirect
    ensures jar.cookies == old(jar.cookies)[FlashCookieName := FlashCookie(response.flash)]
    ensures jar.delta == old(jar.delta)[FlashCookieName := FlashCookie(response.flash)]
  {
    jar.Add(FlashCookie(response.flash));
    r := response.redirect;
  }

  /** The Set-Cookie headers of the answer to a register or log-in attempt
      made by a browser holding `browser`: the session changes and the flash
      cookie, or nothing at all when the handler panicked. */
  function AuthHeaders(browser: map<string, Cookie>, outcome: Result<AuthOutcome>, domain: string): map<string, Cookie>
  {
    var delta := DeltaAfter(browser, map[], Started(outcome), domain);
    HeadersSent(outcome.Failure?,
      if outcome.Ok? then delta[FlashCookieName := FlashCookie(outcome.value.response.flash)] else delta)
  }

  /** `POST /h0/register` once the backend has answered: the in-place form of
      `RegisterOutcome`, clearing the session first and then taking the row
      of the table that the status selects. */
  method H0Register(config: Config, jar: CookieJar, status: StatusCode, sessionCookie: Option<string>)
    returns (r: Result<FlashRedirect>)
    requires jar.Valid()
    modifies jar
    ensures jar.Valid()
    ensures r == ResponseOf(RegisterOutcome(status, sessionCookie))
    ensures jar.cookies == SessionAfter(old(jar.cookies), Started(RegisterOutcome(status, sessionCookie)), config.domain)
    ensures jar.delta == DeltaAfter(old(jar.cookies), old(jar.delta), Started(RegisterOutcome(status, sessionCookie)), config.domain)
  {
    ClearSession(jar, config.domain);
    if status == StatusCreated {
      if sessionCookie.None? {
        return Failure(UnwrapNone);
      }
      SetSession(jar, sessionCookie.value, config.domain);
      r := Ok(FlashRedirect(Redirect(Home), SuccessFlash("Successfully registered.")));
    } else if status == StatusForbidden {
      r := Ok(FlashRedirect(Redirect(Home), ErrorFlash("Forbidden.")));
    } else if status == StatusConflict {
      r := Ok(FlashRedirect(Redirect(Home), ErrorFlash("Account already registered.")));
    } else {
      r := Ok(FlashRedirect(Redirect(Home), ErrorFlash("Error.")));
    }
  }

  /** `POST /h0/log_in` once the backend has answered: the in-place form of
      `LogInOutcome`, clearing the session first and then taking the row of
      the table that the status selects. */
  method H0LogIn(config: Config, jar: CookieJar, status: StatusCode, sessionCookie: Option<string>)
    returns (r: Result<FlashRedirect>)
    requires jar.Valid()
    modifies jar
    ensures jar.Valid()
    ensures r == ResponseOf(LogInOutcome(status, sessionCookie))
    ensures jar.cookies == SessionAfter(old(jar.cookies), Started(LogInOutcome(status, sessionCookie)), config.domain)
    ensures jar.delta == DeltaAfter(old(jar.cookies), old(jar.delta), Started(LogInOutcome(status, sessionCookie)), config.domain)
  {
    ClearSession(jar, config.domain);
    if status == StatusNoContent {
      if sessionCookie.None? {
        return Failure(UnwrapNone);
      }
      SetSession(jar, sessionCookie.value, config.domain);
      r := Ok(FlashRedirect(Redirect(Home), SuccessFlash("Welcome.")));
    } else if status == StatusForbidden {
      r := Ok(FlashRedirect(Redirect(Home), ErrorFlash("Forbidden.")));
    } else {
      r := Ok(FlashRedirect(Redirect(Home), ErrorFlash("Error.")));
    }
  }

  /** In the handler's jar after registering, the visitor is logged in
      exactly when the flash says "success", and then holds the backend's
      session id; a panic leaves the jar without a session (the browser keeps
      its old cookies, see `RegisterAsSeenByBrowser`). */
  lemma RegisterLogsInIffSuccess(cookies: map<string, Cookie>, status: StatusCode, sessionCookie: Option<string>, domain: string)
    ensures var outcome := RegisterOutcome(status, sessionCookie);
      var after := SessionAfter(cookies, Started(outcome), domain);
      && (outcome.Failure? ==> GetUser(after) == None)
      && (outcome.Ok? ==> (GetUser(after).Some? <==> outcome.value.response.flash.kind == "success"))
      && (GetUser(after).Some? ==> after[SessionCookieName] == CreateSessionCookie(sessionCookie.value, domain))
  {
  }

  /** The same for logging in. */
  lemma LogInLogsInIffSuccess(cookies: map<string, Cookie>, status: StatusCode, sessionCookie: Option<string>, domain: string)
    ensures var outcome := LogInOutcome(status, sessionCookie);
      var after := SessionAfter(cookies, Started(outcome), domain);
      && (outcome.Failure? ==> GetUser(after) == None)
      && (outcome.Ok? ==> (GetUser(after).Some? <==> outcome.value.response.flash.kind == "success"))
      && (GetUser(after).Some? ==> after[SessionCookieName] == CreateSessionCookie(sessionCookie.value, domain))
  {
  }

  /** For a request whose jar starts as the browser's cookies, applying the
      response's headers leaves the browser holding exactly the jar's final
      session state: what the handler sees is what the browser is told. */
  lemma BrowserMatchesJar(browser: map<string, Cookie>, session: Option<string>, domain: string)
    ensures Applied(browser, DeltaAfter(browser, map[], session, domain)) == SessionAfter(browser, session, domain)
  {
    var headers := DeltaAfter(browser, map[], session, domain);
    var after := Applied(browser, headers);
    var jar := SessionAfter(browser, session, domain);
    assert headers.Keys <= {SessionCookieName};
    assert forall n | n != SessionCookieName :: (n in after <==> n in jar) && (n in after ==> after[n] == jar[n]);
    assert SessionCookieName in after <==> SessionCookieName in jar;
    assert after.Keys == jar.Keys;
  }

  /** After `GET /h0/log_out` the browser holds no session cookie, whether or
      not it had one, and every other cookie as before. */
  lemma LogOutAsSeenByBrowser(browser: map<string, Cookie>, domain: string)
    ensures var after := Applied(browser, DeltaAfter(browser, map[], None, domain));
      && SessionCookieName !in after
      && forall n | n != SessionCookieName :: (n in after <==> n in browser) && (n in after ==> after[n] == browser[n])
  {
    BrowserMatchesJar(browser, None, domain);
  }

  /** A whole `POST /h0/register` request from a browser holding `browser`:
      the handler runs on a fresh jar, the flash responder answers unless it
      panicked, and the response carries `AuthHeaders`. */
  method ServeRegister(config: Config, browser: map<string, Cookie>, status: StatusCode, sessionCookie: Option<string>)
    returns (headers: map<string, Cookie>)
    requires forall n | n in browser :: browser[n].name == n
    ensures headers == AuthHeaders(browser, RegisterOutcome(status, sessionCookie), config.domain)
  {
    var jar := new CookieJar(browser);
    var r := H0Register(config, jar, status, sessionCookie);
    if r.Ok? {
      var _ := RespondWithFlash(jar, r.value);
    }
    headers := HeadersSent(r.Failure?, jar.delta);
  }

  /** A whole `POST /h0/log_in` request, likewise. */
  method ServeLogIn(config: Config, browser: map<string, Cookie>, status: StatusCode, sessionCookie: Option<string>)
    returns (headers: map<string, Cookie>)
    requires forall n | n in browser :: browser[n].name == n
    ensures headers == AuthHeaders(browser, LogInOutcome(status, sessionCookie), config.domain)
  {
    var jar := new CookieJar(browser);
    var r := H0LogIn(config, jar, status, sessionCookie);
    if r.Ok? {
      var _ := RespondWithFlash(jar, r.value);
    }
    headers := HeadersSent(r.Failure?, jar.delta);
  }

  /** What a browser holds after the answer to a register or log-in attempt:
      its old cookies when the handler panicked; otherwise the handler's
      final session state plus the flash cookie of the answer. */
  lemma AuthAsSeenByBrowser(browser: map<string, Cookie>, outcome: Result<AuthOutcome>, domain: string)
    ensures var after := Applied(browser, AuthHeaders(browser, outcome, domain));
      && (outcome.Failure? ==> after == browser)
      && (outcome.Ok? ==> after == SessionAfter(browser, Started(outcome), domain)[FlashCookieName := FlashCookie(outcome.value.response.flash)])
  {
    var delta := DeltaAfter(browser, map[], Started(outcome), domain);
    if outcome.Failure? {
      NothingSentOnPanic(browser, delta);
    } else {
      BrowserMatchesJar(browser, Started(outcome), domain);
      AppliedWithOneMore(browser, delta, FlashCookie(outcome.value.response.flash));
    }
  }

  /** What the browser holds after `POST /h0/register`: the backend's session
      exactly when the flash is a success, no session after any error, and the
      flash message in the flash cookie; its old cookies, the old session
      included, when the handler panicked (the framework drops the pending
      changes); no other cookie ever changes. */
  lemma RegisterAsSeenByBrowser(browser: map<string, Cookie>, status: StatusCode, sessionCookie: Option<string>, domain: string)
    ensures var outcome := RegisterOutcome(status, sessionCookie);
      var after := Applied(browser, AuthHeaders(browser, outcome, domain));
      && (outcome.Failure? ==> after == browser)
      && (outcome.Ok? ==> (SessionCookieName in after <==> outcome.value.response.flash.kind == "success"))
      && (outcome.Ok? && SessionCookieName in after ==> after[SessionCookieName] == CreateSessionCookie(sessionCookie.value, domain))
      && (outcome.Ok? ==> FlashCookieName in after && after[FlashCookieName] == FlashCookie(outcome.value.response.flash))
      && forall n | n != SessionCookieName && n != FlashCookieName ::
           (n in after <==> n in browser) && (n in after ==> after[n] == browser[n])
  {
    AuthAsSeenByBrowser(browser, RegisterOutcome(status, sessionCookie), domain);
  }

  /** The same for `POST /h0/log_in`. */
  lemma LogInAsSeenByBrowser(browser: map<string, Cookie>, status: StatusCode, sessionCookie: Option<string>, domain: string)
    ensures var outcome := LogInOutcome(status, sessionCookie);
      var after := Applied(browser, AuthHeaders(browser, outcome, domain));
      && (outcome.Failure? ==> after == browser)
      && (outcome.Ok? ==> (SessionCookieName in after <==> outcome.value.response.flash.kind == "success"))
      && (outcome.Ok? && SessionCookieName in after ==> after[SessionCookieName] == CreateSessionCookie(sessionCookie.value, domain))
      && (outcome.Ok? ==> FlashCookieName in after && after[FlashCookieName] == FlashCookie(outcome.value.response.flash))
      && forall n | n != SessionCookieName && n != FlashCookieName ::
           (n in after <==> n in browser) && (n in after ==> after[n] == browser[n])
  {
    AuthAsSeenByBrowser(browser, LogInOutcome(status, sessionCookie), domain);
  }

  /** Register and log in share their error rows: 403 reads "Forbidden." and
      an unexpected status "Error." in both. */
  lemma SharedErrorRows(status: StatusCode, c1: Option<string>, c2: Option<string>)
    requires status !in {StatusCreated, StatusNoContent, StatusConflict}
    ensures RegisterOutcome(status, c1) == LogInOutcome(status, c2)
  {
  }

  // ---------------------------------------------------------- pages

  datatype NotFoundPage = NotFoundPage(domain: string, theme: string)

  /** The 404 page always renders: it uses the configured domain when the
      configuration is available and "fic.ai" otherwise, and the theme of the
      request. `hostHeader` is the request's Host header, `config` the
      configuration if the site has one. */
  function NotFound(hostHeader: Option<string>, cookies: map<string, Cookie>, config: Option<Config>): (page: NotFoundPage)
    ensures config.Some? ==> page.domain == config.value.domain
    ensures config.None? ==> page.domain == DefaultDomain
    ensures page.theme == Template.GetTheme(
      if hostHeader.Some? then Some(Template.HostHeader(hostHeader.value)) else None, cookies)
  {
    var host := Template.OptionalGuard(Template.HostHeaderFromRequest(hostHeader));
    var domain := match config case Some(c) => c.domain case None => DefaultDomain;
    NotFoundPage(domain, Template.GetTheme(host, cookies))
  }

  // ---------------------------------------------------------- flash text

  /** The text a page shows for a flash message: "<kind>: <message>". */
  function FormatFlash(f: Flash): string
  {
    f.kind + ": " + f.message
  }

  /** The message shown on a page, if the request carried one. */
  function FlashMessageText(flash: Option<Flash>): (text: Option<string>)
    ensures text.Some? <==> flash.Some?
    ensures text.Some? && ':' !in flash.value.kind ==> ParseFlash(text.value) == flash
  {
    match flash
    case Some(f) =>
      if ':' !in f.kind then FlashRoundTrip(f); Some(FormatFlash(f)) else Some(FormatFlash(f))
    case None => None
  }

  /** Index of the first ':' in `s`, or |s| when there is none. */
  function FirstColon(s: string): (i: nat)
    ensures i <= |s|
    ensures i < |s| ==> s[i] == ':'
    ensures forall j :: 0 <= j < i ==> s[j] != ':'
  {
    if s == [] then 0
    else if s[0] == ':' then 0
    else 1 + FirstColon(s[1..])
  }

  /** Reads a flash message back from its text: the kind runs up to the first
      ':', which must be followed by a space. */
  function ParseFlash(s: string): Option<Flash>
  {
    var i := FirstColon(s);
    if i + 2 <= |s| && s[i + 1] == ' ' then Some(Flash(s[..i], s[i + 2..])) else None
  }

  /** The text determines the flash message whenever its kind has no ':'. */
  lemma FlashRoundTrip(f: Flash)
    requires ':' !in f.kind
    ensures ParseFlash(FormatFlash(f)) == Some(f)
  {
    var s := FormatFlash(f);
    var k := |f.kind|;
    assert s[k] == ':';
    assert forall j :: 0 <= j < k ==> s[j] == f.kind[j];
    assert FirstColon(s) == k;
    assert s[..k] == f.kind && s[k + 2..] == f.message;
  }

  /** A kind containing ':' makes the text ambiguous: two different flash
      messages are shown the same way. */
  lemma FlashTextAmbiguous()
    ensures FormatFlash(Flash("a: b", "c")) == FormatFlash(Flash("a", "b: c"))
    ensures ParseFlash(FormatFlash(Flash("a: b", "c"))) == Some(Flash("a", "b: c"))
  {
    var s := FormatFlash(Flash("a: b", "c"));
    assert s == "a: b: c";
    assert s[0] == 'a' && s[1] == ':';
    assert FirstColon(s) == 1;
    assert s[..1] == "a" && s[3..] == "b: c";
  }

  /** Every flash message register and log in produce reads back intact. */
  lemma AuthFlashesReadBack(status: StatusCode, sessionCookie: Option<string>)
    ensures RegisterOutcome(status, sessionCookie).Ok? ==>
      var f := RegisterOutcome(status, sessionCookie).value.response.flash;
      ParseFlash(FormatFlash(f)) == Some(f)
    ensures LogInOutcome(status, sessionCookie).Ok? ==>
      var f := LogInOutcome(status, sessionCookie).value.response.flash;
      ParseFlash(FormatFlash(f)) == Some(f)
  {
    if RegisterOutcome(status, sessionCookie).Ok? {
      FlashRoundTrip(RegisterOutcome(status, sessionCookie).value.response.flash);
    }
    if LogInOutcome(status, sessionCookie).Ok? {
      FlashRoundTrip(LogInOutcome(status, sessionCookie).value.response.flash);
    }
  }
}
