/** Theme resolution: the display theme a page is rendered with, decided from
    the `theme` cookie and the Host header of the request. */
module Template {
  import opened Wrappers
  import opened Http

  const ThemeCookieName := "theme"

  /** The value of the request's Host header. */
  datatype HostHeader = HostHeader(host: string)

  /** The Host-header request guard: succeeds with the header's value when the
      request carries one and forwards otherwise. `hostHeader` is the first
      Host header of the request, if any. */
  function HostHeaderFromRequest(hostHeader: Option<string>): (r: Outcome<HostHeader>)
    ensures r.Success? <==> hostHeader.Some?
    ensures r.Success? ==> r.value.host == hostHeader.value
  {
    match hostHeader
    case Some(h) => Success(HostHeader(h))
    case None => Forward
  }

  /** An optional guard (`Option<T>`): a forward of the inner guard becomes `None`. */
  function OptionalGuard<T>(o: Outcome<T>): (r: Option<T>)
    ensures r.Some? <==> o.Success?
    ensures r.Some? ==> r.value == o.value
  {
    match o
    case Success(v) => Some(v)
    case Forward => None
  }

  /** Exact, case-sensitive prefix test. */
  predicate StartsWith(s: string, prefix: string)
  {
    prefix <= s
  }

  predicate IsTheme(v: string)
  {
    v == "light" || v == "night"
  }

  predicate LightHost(host: string)
  {
    StartsWith(host, "light.") || StartsWith(host, "day.")
  }

  predicate NightHost(host: string)
  {
    StartsWith(host, "night.") || StartsWith(host, "dark.")
  }

  /** The jar holds a `theme` cookie whose value names a theme. */
  predicate HasThemeCookie(cookies: map<string, Cookie>)
  {
    ThemeCookieName in cookies && IsTheme(cookies[ThemeCookieName].value)
  }

  lemma LightAndNightHostsDisjoint(host: string)
    ensures !(LightHost(host) && NightHost(host))
  {
    if LightHost(host) {
      assert host[0] == 'l' || (host[0] == 'd' && host[2] == 'y');
    }
  }

  /** The theme a host name selects on its own. */
  function HostTheme(host: string): (theme: string)
    ensures theme == "light" <==> LightHost(host)
    ensures theme == "night" <==> NightHost(host)
    ensures theme == "" <==> !LightHost(host) && !NightHost(host)
  {
    LightAndNightHostsDisjoint(host);
    if LightHost(host) then "light"
    else if NightHost(host) then "night"
    else ""
  }

  /** `get_theme`: a `theme` cookie valued "light" or "night" wins; otherwise
      the host's prefix decides; otherwise the theme is empty. */
  function GetTheme(host: Option<HostHeader>, cookies: map<string, Cookie>): (theme: string)
    ensures theme == "light" || theme == "night" || theme == ""
    ensures HasThemeCookie(cookies) ==> theme == cookies[ThemeCookieName].value
    ensures theme == "light" <==>
      (HasThemeCookie(cookies) && cookies[ThemeCookieName].value == "light") ||
      (!HasThemeCookie(cookies) && host.Some? && LightHost(host.value.host))
    ensures theme == "night" <==>
      (HasThemeCookie(cookies) && cookies[ThemeCookieName].value == "night") ||
      (!HasThemeCookie(cookies) && host.Some? && NightHost(host.value.host))
  {
    if HasThemeCookie(cookies) then cookies[ThemeCookieName].value
    else
      match host
      case Some(h) => HostTheme(h.host)
      case None => ""
  }

  /** A valid theme cookie is returned whatever the host. */
  lemma CookieWins(host1: Option<HostHeader>, host2: Option<HostHeader>, cookies: map<string, Cookie>)
    requires HasThemeCookie(cookies)
    ensures GetTheme(host1, cookies) == GetTheme(host2, cookies) == cookies[ThemeCookieName].value
  {
  }

  /** A `theme` cookie with any other value, the empty one included, is
      treated exactly as if there were no `theme` cookie at all. */
  lemma InvalidCookieIgnored(host: Option<HostHeader>, cookies: map<string, Cookie>)
    requires ThemeCookieName in cookies && !IsTheme(cookies[ThemeCookieName].value)
    ensures GetTheme(host, cookies) == GetTheme(host, cookies - {ThemeCookieName})
  {
  }

  /** The theme depends on no cookie but `theme`. */
  lemma OnlyThemeCookieConsulted(host: Option<HostHeader>, c1: map<string, Cookie>, c2: map<string, Cookie>)
    requires ThemeCookieName in c1 <==> ThemeCookieName in c2
    requires ThemeCookieName in c1 ==> c1[ThemeCookieName].value == c2[ThemeCookieName].value
    ensures GetTheme(host, c1) == GetTheme(host, c2)
  {
  }

  /** Without a valid cookie and without a Host header the theme is empty. */
  lemma NoCookieNoHost(cookies: map<string, Cookie>)
    requires !HasThemeCookie(cookies)
    ensures GetTheme(None, cookies) == ""
  {
  }

  /** Prefix matching is case-sensitive: a host that begins with a capital
      letter never selects a theme. */
  lemma CapitalisedHostHasNoTheme(host: string, cookies: map<string, Cookie>)
    requires |host| > 0 && 'A' <= host[0] <= 'Z'
    requires !HasThemeCookie(cookies)
    ensures GetTheme(Some(HostHeader(host)), cookies) == ""
  {
  }
}
