/** The page script's theme switcher: when the theme selector changes, it
    stores or forgets the `theme` cookie and sets the theme class of the
    page's root element `#h`, falling back on the host name as the server does. */
module Frontend {
  import opened Wrappers
  import opened Http
  import Template

  /** The cookie store after the handler's write: a selected theme is stored,
      anything else expires the `theme` cookie; other cookies are untouched. */
  function StoreAfter(store: map<string, string>, selected: string): (s: map<string, string>)
    ensures Template.IsTheme(selected) ==> Template.ThemeCookieName in s && s[Template.ThemeCookieName] == selected
    ensures !Template.IsTheme(selected) ==> Template.ThemeCookieName !in s
    ensures forall n | n != Template.ThemeCookieName :: (n in s <==> n in store) && (n in s ==> s[n] == store[n])
  {
    if Template.IsTheme(selected) then store[Template.ThemeCookieName := selected]
    else store - {Template.ThemeCookieName}
  }

  /** The theme the handler applies: the selection, or, when nothing is
      selected, the one the host name's prefix names (if any). */
  function EffectiveTheme(selected: string, host: string): (t: string)
    ensures |selected| > 0 ==> t == selected
    ensures |selected| == 0 ==> t == Template.HostTheme(host)
  {
    if |selected| == 0 then
      if Template.StartsWith(host, "light.") || Template.StartsWith(host, "day.") then "light"
      else if Template.StartsWith(host, "night.") || Template.StartsWith(host, "dark.") then "night"
      else selected
    else selected
  }

  /** The class set with exactly the theme class of `t`, if `t` is a theme,
      and every other class as it was. */
  function WithTheme(classes: set<string>, t: string): (r: set<string>)
    ensures "light" in r <==> t == "light"
    ensures "night" in r <==> t == "night"
    ensures !("light" in r && "night" in r)
    ensures forall c | c != "light" && c != "night" :: c in r <==> c in classes
  {
    classes - {"light", "night"} + (if Template.IsTheme(t) then {t} else {})
  }

  /** The part of the page the handler reads and writes. */
  class Document {
    var elementIds: set<string>        // ids of the elements on the page
    var themeSelection: string         // value of the <select id="theme">
    var hClasses: set<string>          // class list of the element #h
    var host: string                   // document.location.host
    var cookies: map<string, string>   // the cookie store behind document.cookie

    constructor (elementIds: set<string>, themeSelection: string, hClasses: set<string>,
                 host: string, cookies: map<string, string>)
      ensures this.elementIds == elementIds && this.themeSelection == themeSelection
      ensures this.hClasses == hClasses && this.host == host && this.cookies == cookies
    {
      this.elementIds := elementIds;
      this.themeSelection := themeSelection;
      this.hClasses := hClasses;
      this.host := host;
      this.cookies := cookies;
    }

    /** `getElement`: fails, naming the id, exactly when no element has it. */
    function GetElement(id: string): (r: Result<string>)
      reads this
      ensures r.Ok? <==> id in elementIds
      ensures r.Ok? ==> r.value == id
      ensures r.Failure? ==> r.error == "missing element #" + id
    {
      if id in elementIds then Ok(id) else Failure("missing element #" + id)
    }

    /** The selector's `onchange` handler. */
    method OnThemeChange() returns (r: Result<()>)
      modifies this
      ensures elementIds == old(elementIds) && themeSelection == old(themeSelection) && host == old(host)
      ensures r.Failure? <==> "theme" !in elementIds || "h" !in elementIds
      ensures r.Failure? ==> cookies == old(cookies) && hClasses == old(hClasses)
      ensures r.Ok? ==> cookies == StoreAfter(old(cookies), themeSelection)
      ensures r.Ok? ==> hClasses == WithTheme(old(hClasses), EffectiveTheme(themeSelection, host))
    {
      var select := GetElement("theme");
      if select.Failure? {
        return Failure(select.error);
      }
      var t := themeSelection;
      var h := GetElement("h");
      if h.Failure? {
        return Failure(h.error);
      }
      if t == "night" || t == "light" {
        cookies := cookies[Template.ThemeCookieName := t];
      } else {
        cookies := cookies - {Template.ThemeCookieName};
      }
      if |t| == 0 {
        var hostName := host;
        if Template.StartsWith(hostName, "light.") || Template.StartsWith(hostName, "day.") {
          t := "light";
        } else if Template.StartsWith(hostName, "night.") || Template.StartsWith(hostName, "dark.") {
          t := "night";
        }
      }
      if t == "night" || t == "light" {
        hClasses := hClasses + {t};
      }
      if t != "light" {
        hClasses := hClasses - {"light"};
      }
      if t != "night" {
        hClasses := hClasses - {"night"};
      }
      r := Ok(());
    }
  }

  /** With nothing selected, the script's host fallback is the server's. */
  lemma FallbackMatchesServer(host: string, cookies: map<string, Cookie>)
    requires !Template.HasThemeCookie(cookies)
    ensures EffectiveTheme("", host) == Template.GetTheme(Some(Template.HostHeader(host)), cookies)
  {
  }

  /** A non-empty selection skips the host fallback: a theme is applied as
      chosen, anything else leaves neither theme class. */
  lemma SelectionOverridesHost(selected: string, host: string, classes: set<string>)
    requires |selected| > 0
    ensures EffectiveTheme(selected, host) == selected
    ensures !Template.IsTheme(selected) ==> WithTheme(classes, EffectiveTheme(selected, host)) == classes - {"light", "night"}
  {
  }

  /** For a selection that is empty, "light" or "night", the next page the
      server renders, given the cookie the handler left, has the theme the
      handler has just applied. */
  lemma ClientAgreesWithServer(selected: string, host: string, store: map<string, string>, sent: map<string, Cookie>)
    requires selected == "" || Template.IsTheme(selected)
    requires Template.ThemeCookieName in sent <==> Template.ThemeCookieName in StoreAfter(store, selected)
    requires Template.ThemeCookieName in sent ==> sent[Template.ThemeCookieName].value == StoreAfter(store, selected)[Template.ThemeCookieName]
    ensures Template.GetTheme(Some(Template.HostHeader(host)), sent) == EffectiveTheme(selected, host)
  {
  }

  /** Any other non-empty selection ("auto", say) makes the two disagree
      whenever the host names a theme: the handler removes both theme
      classes, while the server, finding no `theme` cookie, renders the
      host's theme on the next page. */
  lemma ClientDisagreesOnOtherSelection(selected: string, host: string, store: map<string, string>,
                                        sent: map<string, Cookie>, classes: set<string>)
    requires |selected| > 0 && !Template.IsTheme(selected)
    requires Template.HostTheme(host) != ""
    requires Template.ThemeCookieName in sent <==> Template.ThemeCookieName in StoreAfter(store, selected)
    ensures Template.GetTheme(Some(Template.HostHeader(host)), sent) == Template.HostTheme(host)
    ensures Template.HostTheme(host) !in WithTheme(classes, EffectiveTheme(selected, host))
  {
  }
}
