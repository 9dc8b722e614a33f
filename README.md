# fic.ai signals website — a Dafny model of its decision logic

The website is a server-rendered front end for a fiction-cataloguing service:
it renders pages for stories ("fics") and tags fetched from a backend API,
keeps a session cookie issued by that backend, and picks a display theme
("light", "night" or none) from a `theme` cookie or the host name. A small
page script lets the visitor switch the theme in the browser.

This project models the parts of that system that decide something:

- `template.dfy` (module `Template`): the Host-header request guard and theme
  resolution (`get_theme`).
- `api.dfy` (module `Api`): the status handling of the story and tag list
  calls and the mapping of the decoded lists into `Fic` and `Tag` records.
- `site.dfy` (module `Site`): the session cookie and the handlers' use of the
  cookie jar (`clear_session`, `set_session`, `get_user`, log-out), the
  status→flash tables of register and log-in with the jar update each row
  makes, the 404 page's domain fallback, and the `"kind: message"` flash text.
- `frontend.dfy` (module `Frontend`): the theme selector's change handler,
  over a `Document` class holding the page state it touches, and `getElement`.
- `http.dfy` (module `Http`): the framework pieces the above rely on — status
  codes, cookies, and the request's cookie jar as a class whose `cookies` map
  the handlers and responders update in place and whose `delta` holds the
  pending Set-Cookie header of each cookie name.
- `wrappers.dfy` (module `Wrappers`): `Option`, and `Result`, whose `Failure`
  stands for a panic (`unwrap` on a missing value) or a thrown exception.

Network calls are abstracted: a backend response is given to the model as its
status code, the session cookie value it carried (if any), and, for the list
calls, the body after JSON decoding (`Some(list)`, or `None` when the body does
not decode).

Three details of the code are worth stating plainly:
- Prefix matching of the host is exact and case-sensitive (`starts_with`),
  so "Light.fic.ai" selects no theme (`Template.CapitalisedHostHasNoTheme`).
- A session cookie of any value, the empty one included, counts as logged in.
- The list calls accept only status 200 as success; 201 is handled like
  any other status.

The cookie jar follows the web framework's behaviour, which is not part of
the repository: the response carries one Set-Cookie header per cookie name
(a later change of a name replaces an earlier one), and when a handler
panics the pending changes are dropped and the framework's error page is
sent instead. Register and log-in answer with a flash redirect, whose
responder adds a `_flash` cookie (the length of the kind, ':', the kind and
the message, kept five minutes) to the same response; that cookie carries
the message to the next page. `Http.Applied` is the browser applying the
response's headers to the cookies it holds.

## Model

| member | source | states |
|---|---|---|
| Template.HostHeaderFromRequest | src/template.rs:39-44 | the guard succeeds exactly when a Host header is present, carrying its value, and forwards otherwise |
| Template.OptionalGuard | src/main.rs:85-88 | an optional guard yields `Some` exactly when the inner guard succeeded, with its value |
| Template.LightAndNightHostsDisjoint | src/template.rs:55-58 | no host starts with both a light prefix (`light.`/`day.`) and a night prefix (`night.`/`dark.`), so the order of the tests does not matter |
| Template.HostTheme | src/template.rs:53-64 | a host gives "light" iff it starts with `light.` or `day.`, "night" iff it starts with `night.` or `dark.`, and "" iff it has none of the four prefixes |
| Template.GetTheme | src/template.rs:47-66 | the theme is always "light", "night" or ""; a `theme` cookie valued "light" or "night" is returned as is; otherwise "light"/"night" exactly when a Host header is present with a light/night prefix |
| Template.CookieWins | src/template.rs:48-51 | with a valid `theme` cookie the result is its value whatever the host, present or not |
| Template.InvalidCookieIgnored | src/template.rs:48-53 | a `theme` cookie with any other value, empty included, gives the same theme as no `theme` cookie at all |
| Template.OnlyThemeCookieConsulted | src/template.rs:47-66 | two jars that agree on the `theme` cookie give the same theme: no other cookie is consulted |
| Template.NoCookieNoHost | src/template.rs:63 | with no valid cookie and no Host header the theme is empty |
| Template.CapitalisedHostHasNoTheme | src/template.rs:55-57 | prefix matching is case-sensitive: a host beginning with a capital letter gives "" when no valid cookie is present |
| Api.FicsOf | src/api.rs:36-42 | one story per URL, same length and order, each with id 0 and title and url equal to the URL |
| Api.TagsOf | src/api.rs:68-73 | one tag per name, same length and order, each with id 0 and that name |
| Api.GetFics | src/api.rs:32-46 | status 200 lists the decoded URLs as stories (length and order preserved); a body that does not decode on 200 is a panic, never a partial list; 403 and every other status give the empty list |
| Api.GetTags | src/api.rs:64-77 | the same for tags: 200 maps the decoded names in order, a malformed body on 200 panics, 403 and every other status give the empty list |
| Api.FicsRoundTrip | src/api.rs:36-42 | the urls and the titles of the listed stories are exactly the decoded URLs, in order |
| Api.TagsRoundTrip | src/api.rs:68-73 | the names of the listed tags are exactly the decoded names, in order |
| Site.CreateSessionCookie | src/main.rs:238-246 | the session cookie is named `FicAiSession`, holds the session id, and is scoped to the configured domain and path `/`, secure, http-only and permanent |
| Site.ClearSession | src/main.rs:248-257 | afterwards the jar has no session cookie and every other cookie is as before; a removal header for domain and `/` is pending only when a session cookie was there; without one nothing changes |
| Site.SetSession | src/main.rs:259-261 | the jar's session cookie becomes the one built from the id and domain, other cookies untouched, and it is the pending header for that name |
| Site.GetUser | src/main.rs:263-265 | there is a user (uid 0) iff the jar holds a session cookie |
| Site.LogOut | src/main.rs:268-272 | redirects to `/` and leaves no session cookie (no user), whether or not one existed, other cookies untouched; the response removes the session cookie exactly when there was one and sends nothing else new |
| Site.RegisterOutcome | src/main.rs:298-315 | 201 is success "Successfully registered." starting the backend's session, and a panic when the backend sent no session cookie; 403 "Forbidden.", 409 "Account already registered.", anything else "Error.", none of them starting a session; every answer redirects to `/` |
| Site.LogInOutcome | src/main.rs:339-352 | 204 is success "Welcome." starting the backend's session (a panic without the cookie); 403 "Forbidden."; every other status, 201 included, "Error." with no session; every answer redirects to `/` |
| Site.H0Register | src/main.rs:283-316 | the handler answers as the register table says; the jar has the old session cleared and the new one set only on success, and the pending headers are the removal of an old session replaced by the new session cookie when one starts |
| Site.H0LogIn | src/main.rs:324-353 | the handler answers as the log-in table says; the jar and the pending headers change as for register |
| Site.RegisterLogsInIffSuccess | src/main.rs:289-314 | in the handler's jar after registering, the session is present iff the flash is a success, then holding the backend's session id; on a panic the jar has none (the browser keeps its old cookies, see `Site.RegisterAsSeenByBrowser`) |
| Site.LogInLogsInIffSuccess | src/main.rs:330-351 | in the handler's jar after logging in, the session is present iff the flash is a success, then holding the backend's session id; on a panic the jar has none (the browser keeps its old cookies, see `Site.LogInAsSeenByBrowser`) |
| Site.BrowserMatchesJar | src/main.rs:248-261 | for a request whose jar starts as the browser's cookies, the browser after applying the response's headers holds exactly the handler's final jar: old session gone, new one if started, other cookies kept |
| Site.LogOutAsSeenByBrowser | src/main.rs:268-272 | after log-out the browser holds no session cookie, whether or not it had one, and every other cookie as before |
| Site.RespondWithFlash | src/main.rs:305-314 | answering with a flash redirect redirects as given and adds the `_flash` cookie holding the message to the jar and to the response's headers |
| Site.ServeRegister | src/main.rs:283-316 | running the register handler on a fresh jar for the browser's cookies, then the flash responder unless it panicked, sends exactly the headers `AuthHeaders` gives for the register table's outcome, so the browser-side lemmas describe this handler |
| Site.ServeLogIn | src/main.rs:324-353 | the same for the log-in handler and the log-in table |
| Site.AuthAsSeenByBrowser | src/main.rs:289-315 | after a register or log-in answer the browser holds its old cookies when the handler panicked, and otherwise exactly the handler's final session state plus the answer's flash cookie |
| Site.RegisterAsSeenByBrowser | src/main.rs:289-315 | after register the browser holds the backend's session exactly when the flash is a success, none after an error, and the message in the `_flash` cookie; all its old cookies unchanged when the handler panicked; no cookie but the session and flash cookies ever changes |
| Site.LogInAsSeenByBrowser | src/main.rs:330-352 | the same for log-in |
| Site.SharedErrorRows | src/main.rs:345-351 | for every status other than 201, 204 and 409, register and log in give the same answer |
| Site.NotFound | src/main.rs:83-101 | the 404 page uses the configured domain when the configuration is available and "fic.ai" otherwise, and the request's theme |
| Site.FlashMessageText | src/main.rs:113 | a page shows a flash text exactly when the request carried a flash message, and, when the kind has no ':' (true of both kinds the site emits), that text reads back to the message |
| Site.FlashTextAmbiguous | src/main.rs:113 | with a ':' in the kind, two different flash messages are shown as the same text, which reads back as the other one |
| Site.FlashRoundTrip | src/main.rs:113 | `"<kind>: <message>"` determines kind and message whenever the kind has no ':' |
| Site.AuthFlashesReadBack | src/main.rs:305-314 | every flash message register and log in produce is shown as a text that reads back to it |
| Frontend.StoreAfter | frontend/main.ts:17-21 | a selection "night" or "light" stores `theme=<selection>`; any other selection expires the `theme` cookie; other cookies are untouched |
| Frontend.WithTheme | frontend/main.ts:30-32 | the class set holds "light" iff the theme is light, "night" iff it is night, never both, and every other class as before |
| Frontend.Document.GetElement | frontend/main.ts:4-10 | fails, naming the id, exactly when no element has it |
| Frontend.Document.OnThemeChange | frontend/main.ts:14-33 | fails without touching anything when `#theme` or `#h` is missing; otherwise writes the cookie as `StoreAfter` says and leaves `#h` with the theme class of the selection, or of the host when nothing is selected |
| Frontend.EffectiveTheme | frontend/main.ts:22-29 | the theme the script applies is the selection when it is non-empty, and the host's theme (the server's mapping) when it is empty |
| Frontend.FallbackMatchesServer | frontend/main.ts:22-29 | with nothing selected the script's host fallback gives the same theme as the server's `get_theme` for that host |
| Frontend.SelectionOverridesHost | frontend/main.ts:17-32 | a non-empty selection skips the host fallback; one that is not a theme removes both theme classes |
| Frontend.ClientAgreesWithServer | frontend/main.ts:17-32 | for a selection of none, "light" or "night", the server's theme for the cookie the handler leaves equals the theme the handler applied |
| Frontend.ClientDisagreesOnOtherSelection | frontend/main.ts:17-32 | for any other non-empty selection on a host that names a theme, the server renders the host's theme next while the handler has removed that theme's class |

## Left out

- Network I/O: the backend requests, awaiting them, reading the body and the backend base URL; each response enters the model as its status, its session cookie value and, for lists, its decoded body.
- JSON decoding is a foreign library: a body is given already decoded, or as not decodable.
- Diagnostic printing to standard error, and asynchrony (each handler runs to completion in the model).
- Request routing, request guards other than the Host header, responders and server start-up, which are framework plumbing; the page handlers `index`, `fics_index` and `tags_index` only bind `GetTheme`, `GetUser`, `FlashMessageText` and `GetFics`/`GetTags` into a template and are not modelled as separate members.
- Template rendering and the content-type header: a foreign call with no visible logic.
- Static file serving and its Cache-control header: file-system I/O, with path checks done by the framework.
- The hard-coded story and tag detail pages: constants with nothing to prove.
- Http.CookieJar: the jar's `cookies` map is the view with pending changes applied; the framework's distinction between cookies sent by the browser and cookies added during the request is not modelled (at each lookup in the handlers no pending change concerns that cookie, so the two views agree), nor is its rule that removing a cookie added in the same request drops the addition.
- Site.FlashCookie: only the name, value and five-minute lifetime of the framework's flash cookie are modelled; reading it back on the next request (which yields the flash message `Site.FlashMessageText` formats) is the framework's and is not modelled. The length prefix is `Decimal(|f.kind|)`, a count of characters, whereas the framework writes the kind's length in bytes; the two agree for "success" and "error", the only kinds the site emits.
- Site.FlashMessageText: a kind containing ':' makes the text ambiguous ("<kind>: <message>" no longer determines the kind, see `Site.FlashTextAmbiguous`), so for such kinds only the presence of a text is stated.
- Http.Applied: a removal header deletes the browser's cookie of that name; matching of domain and path is not modelled (the session's removal cookie uses the same domain and path as the session cookie).
- Cookie expiry dates and max-age values are reduced to a lifetime (browser session, permanent, expired).
- Template.HostHeaderFromRequest: takes the request's first Host header as given; header-name case folding is the framework's.
- Frontend.Document: the class list is a set, so the order of classes is not modelled; the cookie store maps names to values, so the `path=/` and `SameSite=Strict` attributes and the 1970 expiry date of the written cookie are not modelled (the expiry is modelled as removal).
- The event wiring of the page script (`window.onload`, `init`, console logging) is not modelled; the handler is modelled as the function it installs.
