# Oak Tree Monza site scripts: consent manager, analytics glue, page fragments

This project models the browser logic of the Oak Tree Monza website in Dafny and proves
properties of that model. It covers three scripts:

- **`CookieManager`** (`js/cookieManager.js`). It keeps the GDPR consent record in the
  `oak_cookie_consent` cookie and shows a banner and a settings modal. It passes the user's
  choice to the Google tag as Consent Mode v2 `update` commands.
- **The analytics script** (`js/analytics.js`). It owns the `dataLayer` queue and queues the
  `consent default` command first. It also queues the `js` and `config` commands when the tag
  loads, the phone and e-mail click events, and the three scroll-depth milestones.
- **The fragment loader** (`js/loadComponents.js`). It loads the navbar and footer markup into
  their placeholders, runs the mobile menu's toggle and close handlers, and marks the
  navigation links of the current page as active.

Modules:

- `Wrappers`: `Option`.
- `Text`: the JavaScript string operations the scripts use (`split` on one character, `trim`,
  `includes`, `indexOf`, `replace` with a string pattern) and the text of a boolean, which both
  the consent JSON and the menu's `aria-expanded` attribute use.
- `Dom`: `document.body.style.overflow`.
- `Gtag`: the command queue and the consent state that replaying it establishes. A later
  setting of a key overrides an earlier one.
- `ConsentCodec`: the consent record, its JSON text and `decodeURIComponent`.
- `CookieJar`: the browser's cookie jar and the `document.cookie` text it renders. Assigning a
  cookie replaces one of the same name in place or appends it (section 5.3 of RFC 6265), and
  expiring it removes it.
- `ConsentManager`: the `CookieManager` class.
- `Analytics`: the `Tracker` class holding `dataLayer` and the scroll markers.
- `LoadComponents`: the `Page` class with its placeholders, menu state and navigation links.

State that the scripts change in place is held in classes. `CookieManager`, `Tracker` and
`Page` have `modifies` clauses on their methods. The navigation links are an `array` that
`HighlightActivePage` updates in a loop. String handling, the codec, the cookie jar and the
consent-state replay are functions with lemmas.

Where the project's own documentation and the code disagree, the model follows the code:

- every navigation link whose `href` contains the page name is marked, not only the first;
- a failed fragment fetch leaves the placeholder as it was, with no error notice;
- the mobile menu closes only through its links: Escape and clicks outside do nothing;
- no class is added to the navbar on scroll;
- the consent cookie carries no `Secure` attribute;
- the stored record has no version field;
- `analytics.js` declares `gtag` inside its closure and never assigns `window.gtag`, so
  `applyConsent`'s `window.gtag` guards skip both updates unless the page defines `window.gtag`
  in some other way. `ConsentManager.CookieManager.ApplyConsent` models the guard as the input
  `gtagAvailable`. `ConsentManager.StoredConsentOverDefault` states the combined effect the
  design intends, which holds only on such a page.

## Model

| member | source | states |
|---|---|---|
| Text.Trim | js/cookieManager.js:97 | `trim()` as the composition of the two ends; its behaviour is stated by `TrimStart`, `TrimEnd` and `TrimTrimmed` |
| Text.TrimStart | js/cookieManager.js:97 | `trim()` start: the result is a suffix of the input, only whitespace is dropped, and it starts with a non-space |
| Text.TrimEnd | js/cookieManager.js:97 | `trim()` end: the result is a prefix of the input, only whitespace is dropped, and it ends with a non-space |
| Text.TrimTrimmed | js/cookieManager.js:97 | text without surrounding whitespace is left alone by `trim()`, also after the `; ` separator's space |
| Text.Split | js/cookieManager.js:95 | `split(sep)`: at least one piece, no piece holds the separator, and joining the pieces with the separator gives back the input |
| Text.SplitJoin | js/cookieManager.js:95 | splitting undoes joining when no piece holds the separator |
| Text.SplitAfterPiece | js/cookieManager.js:97 | text before the first separator becomes the first piece, and the rest splits on its own |
| Text.JoinEndsWithLast | js/loadComponents.js:46 | the last piece ends the text, right after a separator when there are several pieces |
| Text.Contains | js/loadComponents.js:49 | `includes(sub)`, defined by trying each start position in turn; `ContainsAt` states what it means |
| Text.ContainsAt | js/loadComponents.js:49 | `includes(sub)` holds exactly when `sub` occurs at some position of the string |
| Text.IndexOf | js/analytics.js:58 | `indexOf`: the first occurrence, or none exactly when the pattern does not occur |
| Text.ReplaceFirst | js/analytics.js:58 | `replace(pattern, replacement)` with a string pattern: only the first occurrence found by `IndexOf` is replaced; `ReplaceFirstPrefix` states its effect on the links the script handles |
| Text.ReplaceFirstPrefix | js/analytics.js:58 | `replace(p, '')` on a string starting with `p` drops exactly that prefix; on a string without `p` it changes nothing |
| Gtag.StateOf | js/cookieManager.js:115-142 | the Consent Mode value is `granted` exactly when the flag is set |
| ConsentCodec.Encode | js/cookieManager.js:84 | `JSON.stringify` of the record: the members `necessary`, `analytics`, `marketing`, `timestamp` in that order, without whitespace; `DecodeEncode` and `EncodeIsCookieSafe` state its properties |
| ConsentCodec.Decode | js/cookieManager.js:100 | `JSON.parse` restricted to the text `Encode` writes; a string member must not hold a quote, a backslash or a control character (U+0000 to U+001F), which `JSON.parse` rejects; `DecodeEncode` and `EncodeDecode` state that it inverts `Encode` |
| ConsentCodec.UriDecode | js/cookieManager.js:100 | `decodeURIComponent` for `%XX` escapes of ASCII characters; a malformed escape is an error, as the thrown `URIError` is; `UriDecodePlain` states that text without `%` passes unchanged |
| ConsentCodec.DecodeValue | js/cookieManager.js:99-104 | the `try` block: URI-decode, then parse, any failure giving null; `DecodeValueEncode` states the round trip of a stored value |
| ConsentCodec.DecodeEncode | js/cookieManager.js:84-100 | parsing the JSON text of a record gives the record back |
| ConsentCodec.EncodeDecode | js/cookieManager.js:84-100 | the parser accepts only text the serializer produces: a parsed text is the serialization of its record |
| ConsentCodec.UriDecodePlain | js/cookieManager.js:100 | `decodeURIComponent` leaves text without `%` unchanged |
| ConsentCodec.EncodeIsCookieSafe | js/cookieManager.js:84-88 | the stored JSON holds no `;`, `=` or `%`, is not empty and is not padded with whitespace, so the unencoded write is a valid cookie value |
| ConsentCodec.DecodeValueEncode | js/cookieManager.js:84-100 | decoding and parsing the stored value gives back the record with its timestamp |
| CookieJar.Render | js/cookieManager.js:95 | the `document.cookie` text: `name=value` per cookie in jar order, joined by `; `; `SegmentsSplit`, `SegmentOfCookie` and `ReadRenderedJar` state how `getConsent` reads it |
| CookieJar.SetCookie | js/cookieManager.js:88 | assigning `name=value` to `document.cookie` replaces the value of a cookie of that name in place, or appends a new cookie; `SetCookieFind` states its effect |
| CookieJar.RemoveCookie | js/cookieManager.js:238 | assigning an expired cookie removes every cookie of that name; `RemoveCookieFind` states its effect |
| CookieJar.SegmentName | js/cookieManager.js:97 | `name` of `cookie.trim().split('=')`: the trimmed segment up to the first `=`; `PairSplit` and `SegmentOfCookie` state what it reads |
| CookieJar.SegmentValue | js/cookieManager.js:97 | `value` of the destructuring: the text between the first and second `=`, or `undefined` (its text) without an `=`; `SegmentValueOf` states it |
| CookieJar.ReadSegments | js/cookieManager.js:96-107 | the `for … of` scan with its early return, as a recursion over the segments; `ReadSegmentsNoMatch` and `ReadSegmentsFirstMatch` state its two outcomes |
| CookieJar.ReadConsent | js/cookieManager.js:94-108 | `getConsent` on a `document.cookie` text; `ReadRenderedJar`, `SaveThenRead` and `RevokeThenRead` state what it returns for a jar |
| CookieJar.StoredConsent | js/cookieManager.js:94-108 | the consent cookie looked up by name in the jar, decoded and parsed: the jar-level reference that `ReadRenderedJar` equates with `getConsent` |
| CookieJar.SetCookieFind | js/cookieManager.js:88 | after assigning `name=value` the name holds the new value, every other name keeps its value, and the jar stays well formed |
| CookieJar.RemoveCookieFind | js/cookieManager.js:238 | after expiring a cookie its name holds nothing, every other name keeps its value, and the jar stays well formed |
| CookieJar.ReadSegmentsNoMatch | js/cookieManager.js:95-107 | with no segment named `oak_cookie_consent` the lookup gives null |
| CookieJar.ReadSegmentsFirstMatch | js/cookieManager.js:96-105 | the first segment named `oak_cookie_consent` decides the result; later ones are never examined |
| CookieJar.SegmentValueOf | js/cookieManager.js:97 | the value is the text between the first and the second `=`, and anything after a second `=` is dropped |
| CookieJar.SegmentsSplit | js/cookieManager.js:95 | splitting the rendered `document.cookie` text on `;` gives one segment per cookie |
| CookieJar.PairTrimmed | js/cookieManager.js:97 | trimming a segment gives back `name=value` |
| CookieJar.PairSplit | js/cookieManager.js:97 | splitting `name=value` on `=` gives the name, then the pieces of the value |
| CookieJar.SegmentOfCookie | js/cookieManager.js:97 | the name and value read from a cookie's segment are the cookie's own |
| CookieJar.ReadSegmentsOfCookies | js/cookieManager.js:95-107 | the scan over the segments agrees with looking the first cookie of that name up in the jar |
| CookieJar.ReadRenderedJar | js/cookieManager.js:94-108 | `getConsent` on the rendered cookie text is the jar lookup of `oak_cookie_consent`, decoded and parsed |
| CookieJar.SaveThenRead | js/cookieManager.js:78-108 | after `saveConsent` the jar stays well formed and `getConsent` returns exactly the record written |
| CookieJar.RevokeThenRead | js/cookieManager.js:237-239 | after revocation the jar stays well formed and `getConsent` returns null |
| ConsentManager.ConsentUpdates | js/cookieManager.js:111-143 | the two `consent update` commands `applyConsent` issues when `gtag` is defined; `ReplayUpdates` and `ConsentUpdatesEffect` state their effect on the consent state |
| ConsentManager.ReplayUpdates | js/cookieManager.js:111-143 | the two update commands set `analytics_storage` from the analytics flag and the three ad keys from the marketing flag |
| ConsentManager.ConsentUpdatesEffect | js/cookieManager.js:111-143 | afterwards `analytics_storage` is granted exactly when analytics is allowed, each ad key exactly when marketing is, and every other key is unchanged |
| ConsentManager.ReapplyIsIdempotent | js/cookieManager.js:111-143 | applying the same record again leaves the consent state as the first application left it |
| ConsentManager.StoredConsentOverDefault | js/cookieManager.js:19-28 | a stored decision applied after the page's defaults sets analytics and ad storage from its flags and keeps the granted functionality and denied personalization defaults |
| ConsentManager.ScanCookies | js/cookieManager.js:94-108 | the loop over the `;`-separated segments with its early return computes `ReadConsent` of the cookie text |
| ConsentManager.CookieManager.constructor | js/cookieManager.js:7-16 | a new manager leaves the page as it is: banner and modal keep their initial display, no commands are issued and no reload is requested |
| ConsentManager.CookieManager.GetConsent | js/cookieManager.js:94-108 | `getConsent` reads the rendered cookie text and returns its lookup |
| ConsentManager.CookieManager.SaveConsent | js/cookieManager.js:78-91 | the record is the preferences stamped with the time, the jar is the old jar with the consent cookie assigned its JSON, and the jar stays well formed |
| ConsentManager.CookieManager.ApplyConsent | js/cookieManager.js:111-143 | with `gtag` defined, exactly the analytics update and then the ad update are appended; otherwise nothing is |
| ConsentManager.CookieManager.ShowBanner | js/cookieManager.js:34-42 | the banner is shown if it exists |
| ConsentManager.CookieManager.HideBanner | js/cookieManager.js:45-50 | the banner is hidden |
| ConsentManager.CookieManager.ShowModal | js/cookieManager.js:53-66 | an existing modal is shown and locks page scrolling; the toggles take the stored record's flags if one exists and are left alone otherwise |
| ConsentManager.CookieManager.HideModal | js/cookieManager.js:69-75 | the modal is hidden and an existing modal releases the scroll lock |
| ConsentManager.CookieManager.Init | js/cookieManager.js:19-31 | with no stored record the banner is shown and no command is queued; with one the banner is left as it was and the record is applied |
| ConsentManager.CookieManager.AcceptAll | js/cookieManager.js:146-159 | stores and applies (true, true, true), hides banner and modal, releases the scroll lock, requests a reload |
| ConsentManager.CookieManager.RejectAll | js/cookieManager.js:162-172 | stores and applies (true, false, false), hides banner and modal, releases the scroll lock, no reload |
| ConsentManager.CookieManager.SaveCustomPreferences | js/cookieManager.js:175-191 | stores and applies `necessary` true with the toggle states, a missing toggle counting as false; hides both and requests a reload |
| ConsentManager.CookieManager.OnSettingsClick | js/cookieManager.js:206-209 | the banner is hidden and the modal opened as in `showModal` |
| ConsentManager.CookieManager.OnModalCloseClick | js/cookieManager.js:212-215 | the modal is hidden and the banner shown again |
| ConsentManager.CookieManager.OnModalClick | js/cookieManager.js:228-233 | a click on the backdrop itself closes the modal and re-shows the banner; any other click changes nothing |
| ConsentManager.CookieManager.RevokeConsent | js/cookieManager.js:237-240 | the consent cookie is removed, a later `getConsent` gives null, and a reload is requested |
| Analytics.DefaultConsentState | js/analytics.js:17-25 | the default command denies ad, ad user data, ad personalization, analytics and personalization storage and grants functionality and security storage |
| Analytics.PhoneNumber | js/analytics.js:58 | `link.href.replace('tel:', '')`; `ContactValues` states the value reported |
| Analytics.EmailAddress | js/analytics.js:67 | `link.href.replace('mailto:', '')`; `ContactValues` states the value reported |
| Analytics.ContactValues | js/analytics.js:55-70 | a `tel:` link reports its href without `tel:`, a `mailto:` link its href without `mailto:` |
| Analytics.Advance | js/analytics.js:77-88 | after a scroll event a milestone is marked exactly when it already was or the percent reached its threshold |
| Analytics.Fired | js/analytics.js:77-88 | the `scroll_depth` events one scroll event queues, 50% before 75% before 100%; `FiredOnce` states when each is queued |
| Analytics.RunScroll | js/analytics.js:74-89 | the events queued by a series of scroll events, the markers carried from one to the next; `MilestoneFiresAtMostOnce` states its property |
| Analytics.FiredOnce | js/analytics.js:77-88 | one scroll event queues a milestone once if it is reached and not yet marked, and never otherwise |
| Analytics.ReachesCons | js/analytics.js:74-89 | a series of scroll events reaches a threshold when its first event does or the rest does |
| Analytics.MilestoneFiresAtMostOnce | js/analytics.js:73-89 | over any series of scroll events each milestone is queued at most once: once if some event reaches it and it was not already marked |
| Analytics.AllMilestonesInOrder | js/analytics.js:77-88 | one event at 95 or more on a fresh page queues 50%, 75% and 100% in that order |
| Analytics.Tracker.constructor | js/analytics.js:13-25 | the queue is whatever was there before followed by the `consent default` command |
| Analytics.Tracker.Gtag | js/analytics.js:13-14 | `gtag` appends its command at the end; earlier entries, and the default command's place, are kept |
| Analytics.Tracker.OnScriptLoad | js/analytics.js:33-38 | the load callback appends `js` and then `config` with IP anonymisation and the cookie flags |
| Analytics.Tracker.TrackEvent | js/analytics.js:44-49 | exactly one `event` command is appended, with empty parameters when none are given |
| Analytics.Tracker.OnPhoneClick | js/analytics.js:55-61 | a phone click appends one `phone_call` event carrying the number |
| Analytics.Tracker.OnEmailClick | js/analytics.js:64-70 | an e-mail click appends one `email_click` event carrying the address |
| Analytics.Tracker.OnScroll | js/analytics.js:74-89 | the markers advance and exactly the newly reached milestones are appended, 50 before 75 before 100 |
| LoadComponents.CurrentPage | js/loadComponents.js:46 | the page is the non-empty text after the last `/` of the pathname, or `index.html` when the pathname is empty or ends in `/` |
| LoadComponents.Mark | js/loadComponents.js:48-51 | one link's highlight step: `active` is added when its `href` is present, not empty and contains the page; `MarkActive` and `MarkIdempotent` state its effect |
| LoadComponents.MarkActive | js/loadComponents.js:47-52 | a link is active after highlighting exactly when it was before or its `href` contains the current page, and its `href` is untouched |
| LoadComponents.MarkIdempotent | js/loadComponents.js:47-52 | highlighting twice marks the same links as highlighting once |
| LoadComponents.Toggle | js/loadComponents.js:29-34 | the menu button's click handler on the menu state; `ToggleFlips` and `ToggleTwice` state its effect |
| LoadComponents.Close | js/loadComponents.js:37-41 | a menu link's click handler on the menu state; `CloseIdempotent` states its effect |
| LoadComponents.ToggleFlips | js/loadComponents.js:29-34 | a click expands a collapsed menu and collapses an expanded one, a missing attribute counting as collapsed; scrolling is locked exactly when the menu was collapsed; `active` flips |
| LoadComponents.ToggleTwice | js/loadComponents.js:29-34 | on a menu whose attribute, class and scroll lock agree, toggling keeps them in agreement and two clicks restore it |
| LoadComponents.CloseIdempotent | js/loadComponents.js:36-42 | a menu link click leaves the menu collapsed, inactive and unlocked, and a second such click changes nothing |
| LoadComponents.Page.InitMobileMenu | js/loadComponents.js:23-43 | the handlers are registered exactly when both the button and the menu exist |
| LoadComponents.Page.HighlightActivePage | js/loadComponents.js:45-53 | every link becomes its highlighted form for the current page; all matching links are marked and no other link changes |
| LoadComponents.Page.LoadComponent | js/loadComponents.js:4-21 | a missing placeholder, a failed fetch, a response that is not ok or a failed body read changes nothing; otherwise the markup replaces the placeholder's content, and for the navbar only the menu is then wired and the links highlighted, in that order |
| LoadComponents.Page.OnMenuButtonClick | js/loadComponents.js:29-34 | once wired, the button click applies `Toggle` to the menu state |
| LoadComponents.Page.OnMenuLinkClick | js/loadComponents.js:36-42 | once wired, a menu link click applies `Close` to the menu state |

## Left out

- Dates and times. The record's timestamp is an input restricted to the characters that `toISOString` produces. The 365-day expiry, `toUTCString`, and the `expires`, `path` and `SameSite` attributes of the assignment are not modelled. Revocation is modelled as removal of the cookie.
- ConsentCodec.Decode: accepts only the exact text the serializer writes, with the members in its order, without whitespace and without escape sequences. Like `JSON.parse`, it rejects a raw control character (U+0000 to U+001F) inside a string. `JSON.parse` also accepts other JSON, such as reordered members, escapes, extra members, or values that are not objects. A hand-edited cookie in such a form reads as null in the model.
- ConsentCodec.UriDecode: decodes ASCII escapes (`%00` to `%7F`) only, and treats a multi-byte UTF-8 escape sequence as a decoding error. `decodeURIComponent` decodes such sequences. The values this program writes contain no `%`, so the round trip does not depend on this.
- The `document.cookie` rendering covers well-formed jars only. Names are non-empty and free of `;` and `=`, values are free of `;`, and both are trimmed. Nameless cookies and cookies of other paths are not modelled.
- `console.log` and `console.error` output, the banner's `tabindex` and focus, `getElementById` lookups, and `attachEventListeners` itself. Each handler is a method. The accept, reject and save buttons call `AcceptAll`, `RejectAll` and `SaveCustomPreferences` directly.
- `window.location.reload` is a flag, and the page reload itself is not modelled.
- The `DOMContentLoaded` wiring of all three scripts, including the creation of `window.cookieManager`.
- `window.gtag` is an input of `CookieManager`. Its commands go to its own `commands` log. The analytics script declares `gtag` inside its closure and never assigns `window.gtag`, so the two queues are not connected in the model. `ConsentManager.StoredConsentOverDefault` states the combined effect on the consent state on a page that defines `window.gtag` to feed the same queue.
- Injecting the tag's script element, and the Google tag's own processing of the queue.
- The `time_on_page` events that `setTimeout` queues after 30, 60 and 120 seconds.
- The scroll-percent computation, which uses floating point and `Math.round`. `OnScroll` takes the rounded percent as an integer.
- `trackEvent` checks `typeof gtag`, but `gtag` is always defined inside the closure. The model appends unconditionally.
- The click handlers get the `href` string as given. URL resolution by the browser is not modelled.
- `fetch` and `response.text()` are an input outcome. Parsing the fetched HTML is not modelled: whether the menu button and menu exist, and which `.nav-link` elements the page holds, are fields of `Page`.
- The navbar and footer fetches run concurrently, and their interleaving is not modelled. Each `LoadComponent` call runs to completion.
- LoadComponents.Page.InitMobileMenu: records only whether the handlers are registered. A second call would register them twice and make one click toggle twice. The script calls it once per navbar load.
