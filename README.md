# Feedback widget and admin dashboard, modelled in Dafny

This project models the browser side of a feedback system. There are two
versions of it:

- `js/feedback_system.js`, the full version. It has a floating feedback
  widget: a modal with a message box, a character counter, an optional
  screenshot and a submit button. It also has an admin dashboard. The
  dashboard caches the whole feedback list, shows four stat cards, filters
  the list by status, tier, priority and category, and renders one card
  per item with its badges and actions.
- `js/feedback_ui.js`, the simple version. Its widget only takes a message.
  Its admin list has no filters and keeps an older status table.

The HTML markup, the DOM and the HTTP calls are not modelled. What the
components decide is modelled:

- which items are listed and counted;
- which badge, fallback text and actions a card or row shows;
- which page name and body a submit sends, and which alert follows;
- how the `isOpen`, `screenshot`, `filters` and `feedbacks` fields change
  under each handler.

Every HTTP response is an input to the method that handles it:

- `LoadOutcome` is a JSON list, an error response, or an exception;
- `SendOutcome` is accepted, refused with an optional `detail`, or a
  network failure.

The page a submit reads is a `Page` value: path, hash, href, window size
and user agent.

Modules:

- `JsValues`: JavaScript values that may be missing, expressions that may
  throw, and `a || b` on strings.
- `JsArrays`: `filter`, `map`, `find`, and the facts the list logic relies
  on.
- `JsText`: `trim`, `startsWith`, `includes`, `replace` of one character,
  `split('/').pop()`, decimal printing, and `Number(s)` as used by the
  loose `==`.
- `Feedback`: the shared record, label tables, stats and outcomes.
- `Widget` and `Dashboard`: the full version.
- `SimpleUi`: the simple version.

The functional parts (filters, stats, lookups, `truncate`, the page name,
the browser name, the counter classes and the request body) are functions
with lemmas. The widgets and dashboards are classes. Their handlers are
methods that update the fields in place. Each method's postcondition ties
the new state to those functions. `Dashboard.ApplyFilters` narrows the list
step by step, as `renderFeedbackList` does. It is proved equal to the
one-pass `Dashboard.Filter`, about which the filtering properties are
proved.

## Model

| member | source | states |
|---|---|---|
| JsValues.Or | js/feedback_system.js:766 | `s \|\| fallback`: the text when it is present and non-empty, the fallback otherwise |
| JsArrays.Keep | js/feedback_system.js:708 | `filter` keeps only elements satisfying the predicate, never grows, and is empty exactly when no element satisfies it |
| JsArrays.Find | js/feedback_system.js:800 | `find` is None exactly when no element matches, else the first matching element |
| JsText.Trim | js/feedback_system.js:492 | `trim` never lengthens; the result is empty exactly when the text is all ECMA-262 whitespace; otherwise it starts and ends with a non-whitespace character |
| JsText.TrimStartDrops | js/feedback_system.js:492 | the leading part `trimStart` removes is all whitespace, and what it keeps is the suffix after it, starting with non-whitespace |
| JsText.TrimEndDrops | js/feedback_system.js:492 | the trailing part `trimEnd` removes is all whitespace, and what it keeps is the prefix before it, ending with non-whitespace |
| JsText.TrimPadded | js/feedback_system.js:492 | whitespace around a text with non-whitespace ends is exactly what `trim` removes |
| JsText.TrimIdempotent | js/feedback_system.js:492 | trimming a trimmed text changes nothing |
| JsText.IndexOf | js/feedback_system.js:477 | -1 exactly when the character is absent, else the index of its first occurrence |
| JsText.RemoveFirst | js/feedback_system.js:477 | `replace('#', '')` changes nothing without a `#`, removes one character otherwise, and strips a leading `#` |
| JsText.RemoveFirstCount | js/feedback_system.js:477 | exactly one occurrence of the character goes, every other character stays |
| JsText.LastSegment | js/feedback_system.js:479 | `split('/').pop()` is the suffix after the last `/`, contains no `/`, and is preceded by a `/` when shorter than the path |
| JsText.LastSegmentAfterSlash | js/feedback_system.js:479 | the segment after a final `/` is the last segment |
| JsText.IntToString | js/feedback_ui.js:251 | `${i}` starts with `-` exactly for negatives; the digits after the sign have no leading zero and read back as the magnitude of `i` |
| JsText.ParseNatToString | js/feedback_system.js:711 | reading a printed non-negative number back gives the number |
| JsText.ToNumber | js/feedback_system.js:711 | `Number(s)` is 0 for an empty or all-whitespace text; its value on numerals is stated by `LooseEqualsNumeral` |
| JsText.LooseEqualsNumeral | js/feedback_system.js:711 | `x == "n"` for a decimal numeral holds exactly when `x` is the number `n` |
| Feedback.LookupOr | js/feedback_system.js:736-739 | `table[key] \|\| table[fallback]`: the entry for a known key, the fallback entry for a missing or unknown key |
| Feedback.StatusBadge | js/feedback_system.js:736 | a known status shows its own badge, an unknown or missing status shows `neu` |
| Feedback.PriorityBadge | js/feedback_system.js:737 | a known priority shows its own badge, else `medium` |
| Feedback.CategoryBadgeOf | js/feedback_system.js:738 | a known category shows its own badge, else `other` |
| Feedback.TierBadgeOf | js/feedback_system.js:739 | tiers 1 to 4 show their own badge, any other or missing tier shows tier 3 |
| Feedback.RefusedAlert | js/feedback_system.js:539-540 | the alert starts with `Fehler: ` followed by the response's `detail` when it is present and non-empty, else by the fallback text (`Feedback konnte nicht gesendet werden` here, `Unbekannt` at js/feedback_ui.js:131) |
| Feedback.ScreenSize | js/feedback_system.js:515 | `${innerWidth}x${innerHeight}`: the printed width, then `x`, then the printed height |
| Widget.CurrentPage | js/feedback_system.js:473-480 | a hash wins with its `#` removed; `/` and `/index.html` are `Dashboard`; otherwise a non-empty name without `/`, the last path segment unless it is `Unknown` |
| Widget.CurrentPageOfFile | js/feedback_system.js:478-479 | a page file is named by its file name, including `index.html` under a directory other than the root |
| Widget.CurrentPageTrailingSlash | js/feedback_system.js:479 | a path ending in `/` (other than the root) gives `Unknown` |
| Widget.BrowserInfo | js/feedback_system.js:482-489 | one of five names; each name exactly when the agent names it and none of the names tested before it (Chrome, then Firefox, Safari, Edge); `Browser` exactly when it names none of the four |
| Widget.EdgeReportedAsChrome | js/feedback_system.js:482-489 | the Edge 18 user agent names Edge, yet is reported as `Chrome` |
| Widget.BrowserInfoEdgeFirst | js/feedback_system.js:482-489 | corrected order: any agent naming Edge is `Edge`, every other agent is classified as before |
| Widget.EdgeFirstRecognisesEdge18 | js/feedback_system.js:482-489 | the corrected classifier reports the Edge 18 user agent as `Edge` |
| Widget.CharCounter | js/feedback_system.js:393-403 | `warning` exactly above 1800 characters, `error` exactly from 2000 on; `error` implies `warning`; neither up to 1800 |
| Widget.SubmittedMessage | js/feedback_system.js:492-497 | nothing is sent exactly when the message box is all whitespace; otherwise the trimmed text, with non-whitespace ends |
| Widget.Request | js/feedback_system.js:492-518 | no body exactly when there is no submitted message; otherwise the body carries that message, the screenshot, the current page, the screen size, the user agent and the page URL |
| Widget.FeedbackWidget.constructor | js/feedback_system.js:62-66 | closed, no screenshot, empty message box |
| Widget.FeedbackWidget.Open | js/feedback_system.js:453-458 | sets `isOpen` |
| Widget.FeedbackWidget.Close | js/feedback_system.js:460-463 | clears `isOpen` |
| Widget.FeedbackWidget.Toggle | js/feedback_system.js:465-471 | flips `isOpen` |
| Widget.FeedbackWidget.Edit | js/feedback_system.js:393-403 | the message box holds the new text and the counter gets the classes for its length |
| Widget.FeedbackWidget.PickScreenshot | js/feedback_system.js:414-431 | a file over 5 MB is refused with the size alert and leaves the screenshot unchanged; exactly 5 MB or less becomes the screenshot; no file changes nothing |
| Widget.FeedbackWidget.RemoveScreenshot | js/feedback_system.js:433-439 | the screenshot is null |
| Widget.FeedbackWidget.Submit | js/feedback_system.js:491-549 | sends the body `Request` gives; an empty message only alerts; success clears the message box and the screenshot; refusal and network failure alert and leave the state as it was |
| Dashboard.SelectValue | js/feedback_system.js:657 | `value \|\| null`: the "all" option stores null, any other option stores its value |
| Dashboard.Filter | js/feedback_system.js:704-718 | the listed items are no more than the cached ones and each passes every set filter |
| Dashboard.FilterIsKeep | js/feedback_system.js:704-718 | the one-pass filter is `filter` with the conjunction of the four filters |
| Dashboard.ApplyFilters | js/feedback_system.js:704-718 | narrowing the cache by each set filter in turn lists exactly `Filter` of the cache |
| Dashboard.FilterExact | js/feedback_system.js:704-718 | an item is listed iff it is cached and passes every filter, and as often as it is cached |
| Dashboard.FilterKeepsOrder | js/feedback_system.js:704-718 | the listed items are a subsequence of the cache: the server's order is kept |
| Dashboard.FilterIdempotent | js/feedback_system.js:704-718 | filtering the listed items again with the same filters lists the same items |
| Dashboard.FilterUnconstrained | js/feedback_system.js:707-718 | with every filter null or empty, the whole cache is listed |
| Dashboard.TierFilterSelectsTier | js/feedback_system.js:711 | the tier select's text `"n"` lists exactly the items of tier `n`, through loose equality |
| Dashboard.StatsOf | js/feedback_system.js:689-695 | total is the cache length; `neu`, waiting and resolved are the numbers of items with status `neu`, with one of the three waiting statuses, and with `geloest`; they are disjoint so their sum is at most the total; each is zero exactly when no item has that status |
| Dashboard.StatsOfAppend | js/feedback_system.js:689-695 | the stats of two lists together are the sums of their stats |
| Dashboard.StatsOfOne | js/feedback_system.js:689-695 | one item counts once in the total and once on the card of its status (`neu`, a waiting status, `geloest`), if any |
| Dashboard.Actions | js/feedback_system.js:774-787 | Triage first and GitHub last always; Approve and Reject exactly when the status starts with `waiting` |
| Dashboard.Truncate | js/feedback_system.js:793-797 | empty for a missing or empty text, the text when it fits, else its first `length` characters and `...`, `length + 3` long |
| Dashboard.TruncateIdempotent | js/feedback_system.js:793-797 | truncating a truncated text changes nothing |
| Dashboard.CardFor | js/feedback_system.js:735-791 | a card throws exactly when the status is missing; otherwise it carries the id, the message truncated to 150, an AI line exactly when there is a summary, and the actions for the status |
| Dashboard.Cards | js/feedback_system.js:727 | the list renders exactly when every item has a status, one card per item |
| Dashboard.CardsPointwise | js/feedback_system.js:727 | each card is the rendering of the item at the same position |
| Dashboard.CardsFailAtFirstMissingStatus | js/feedback_system.js:777 | the exception is the one the first item without a status throws |
| Dashboard.ListFor | js/feedback_system.js:720-727 | an empty filtered list shows the empty-state text; otherwise it shows `Cards` of the list when every card renders, and fails with the card's exception when one throws |
| Dashboard.FindById | js/feedback_system.js:800 | None exactly when no cached item has the id, else the first cached item with that id |
| Dashboard.AdminDashboard.constructor | js/feedback_system.js:557-567 | empty cache, all filters null, stats `-`, list loading |
| Dashboard.AdminDashboard.RenderFeedbackList | js/feedback_system.js:703-733 | the list area shows `ListFor` of the filtered cache; when a card throws, the list area is left as it was |
| Dashboard.AdminDashboard.SetFilter | js/feedback_system.js:654-659 | stores `value \|\| null` in that filter alone and re-renders; the stats and the shown list stay consistent with the cache |
| Dashboard.AdminDashboard.LoadFeedbacks | js/feedback_system.js:670-687 | a list replaces the cache wholesale and recomputes the stats and the list, a throwing card showing the load error; an error response changes nothing; an exception shows the load error and keeps the cache |
| Dashboard.AdminDashboard.OpenDetail | js/feedback_system.js:799-812 | opens the first cached item with the id; an unknown id changes nothing |
| Dashboard.AdminDashboard.CloseDetail | js/feedback_system.js:934-936 | closes the detail view |
| SimpleUi.LegacyTableLacksTesting | js/feedback_ui.js:12-21 | the simple status table is the full one without `testing` |
| SimpleUi.LegacyStatusBadge | js/feedback_ui.js:244 | a known status shows its own badge, an unknown or missing one `neu` |
| SimpleUi.LegacyBadgeAgrees | js/feedback_ui.js:244 | both versions show the same status badge except exactly for `testing` |
| SimpleUi.SimpleStats | js/feedback_ui.js:221-225 | total is the list length; `neu`, waiting and resolved are the numbers of items with status `neu`, with a status (a missing one read as `''`) starting with `waiting`, and with `geloest`; they are disjoint so their sum is at most the total; each is zero exactly when no item qualifies |
| SimpleUi.SimpleStatsAppend | js/feedback_ui.js:221-225 | the stats of two lists together are the sums of their stats |
| SimpleUi.SimpleStatsOne | js/feedback_ui.js:221-225 | one item counts once in the total, and on the `neu`, waiting or resolved card when its status is `neu`, starts with `waiting`, or is `geloest` |
| SimpleUi.WaitingHasPrefix | js/feedback_ui.js:224 | every status the full version counts as waiting has the prefix `waiting` |
| SimpleUi.WaitingAgreesOnKnownStatus | js/feedback_ui.js:224 | for a missing status or one in the status table, the prefix test and the full version's test agree |
| SimpleUi.SimpleCountsAtLeastAsManyWaiting | js/feedback_ui.js:224 | the simple version never counts fewer waiting items than the full version |
| SimpleUi.SimpleStatsAgree | js/feedback_ui.js:221-225 | when every status is missing or known, both versions show the same stats |
| SimpleUi.TierText | js/feedback_ui.js:251 | `Tier ${f.tier \|\| '?'}` shows `Tier ?` exactly for a missing tier or tier 0, and otherwise `Tier ` followed by the printed tier |
| SimpleUi.RowFor | js/feedback_ui.js:243-258 | a row has the tier colour with tier 3 as fallback, `TierText` of the tier, the simple status badge, the message or `(keine Nachricht)`, the context or `unbekannt`, and the item's AI summary exactly when there is a non-empty one |
| SimpleUi.Rows | js/feedback_ui.js:243 | one row per item |
| SimpleUi.RowsPointwise | js/feedback_ui.js:243 | each row renders the item at the same position, so the server's order is kept |
| SimpleUi.RenderList | js/feedback_ui.js:234-262 | the empty-state text exactly for an empty list, otherwise `Rows` of the whole cache, unfiltered |
| SimpleUi.ApiErrorText | js/feedback_ui.js:213 | `API Fehler: ` followed by the `detail`, or the status code when there is none |
| SimpleUi.TabContext | js/feedback_ui.js:119 | never empty; a hash `#name` gives `name`; no hash or a bare `#` gives `unknown` |
| SimpleUi.TabContextAgrees | js/feedback_ui.js:119 | for a hash with a name after `#`, the simple version reports the same page as the full one |
| SimpleUi.SimpleRequest | js/feedback_ui.js:109-122 | no body exactly when there is no submitted message; otherwise the body carries it, `TabContext` of the hash, the screen size and the page URL |
| SimpleUi.SimpleWidget.constructor | js/feedback_ui.js:35-38 | closed, empty message box |
| SimpleUi.SimpleWidget.OpenModal | js/feedback_ui.js:97-101 | sets `isOpen` |
| SimpleUi.SimpleWidget.CloseModal | js/feedback_ui.js:103-106 | clears `isOpen` |
| SimpleUi.SimpleWidget.Shortcut | js/feedback_ui.js:87-92 | Ctrl+Shift+F flips `isOpen` |
| SimpleUi.SimpleWidget.Edit | js/feedback_ui.js:109 | the message box, whose text submit reads, holds the new text |
| SimpleUi.SimpleWidget.Submit | js/feedback_ui.js:108-137 | sends the body `SimpleRequest` gives; an empty message only alerts; success thanks, clears the box and closes the modal; refusal and network failure alert and change nothing |
| SimpleUi.SimpleDashboard.constructor | js/feedback_ui.js:145-154 | empty cache, stats `-`, list loading |
| SimpleUi.SimpleDashboard.LoadFeedbacks | js/feedback_ui.js:193-219 | without the list element, no request and no change; a list replaces the cache wholesale and recomputes the stats and rows; an error response or an exception keeps the cache and the stats and shows its message |

## Left out

- The HTML markup, the CSS, `innerHTML` and the DOM queries are not modelled. The model states what is shown, not how it is drawn.
- `fetch`, the tokens read from `localStorage` and `sessionStorage`, and `window.open` are left out. Each response is an input.
- A response body that is not JSON is the exception outcome: `response.json()` throws into the `catch`.
- A 2xx response whose JSON body is not a list is not modelled: `LoadOutcome` carries only lists. The source assigns such a body to `feedbacks`, and the stats then throw. The full version shows the load error, and the simple version shows `Netzwerkfehler: …`. In both, the cache has already been replaced, so the cache is not left alone on that failure.
- The `detail` of an error response is modelled as a string. A non-string `detail`, such as an object, prints as `[object Object]` in the alert or the error text.
- The `FileReader` encoding is not modelled. `PickedFile` carries the data URL the reader would produce, and the asynchronous `onload` is taken to complete at once.
- The polling timer and the 2-second auto-close after a successful submit are timers, and are left out. So are the races between overlapping loads that they allow.
- The success panel and the disabled, relabelled submit button are left out.
- `alert`, `confirm` and `prompt` are left out; alert texts are returned as values.
- The backend actions are not part of this model: triage, approve, reject, GitHub issue creation, saving changes and comments. Only which actions a card offers is modelled.
- The detail view's markup, dates in the `de-CH` locale, and the confidence percentage are left out. The percentage is computed in floating point.
- Some display-only texts are left out: the card's `Tier ${feedback.tier}` text and `user_email`, and the simple row's `user_email` and `de-CH` creation date.
- Lengths are counted in characters, not in UTF-16 code units as JavaScript counts them. This affects the counter and `truncate` for characters outside the Basic Multilingual Plane.
- The lookups treat the tables as plain maps. Keys inherited from `Object.prototype`, such as `constructor`, are not modelled.
- The textarea's `maxlength` attribute is not modelled. The submit handler itself checks no length, so a long message is sent as it is.
- The simple dashboard's constructor returning early when the container is missing is left out. The model starts from a found container.
- The typed item fields are left out: `tier` is an integer or missing, and the other properties are strings or missing.
- JsText.ToNumber: models `Number(s)` only for whitespace, optionally signed decimal integers, and the empty string. Hexadecimal, exponents, fractions and `Infinity` are not modelled, and all other text is NaN.
- Dashboard.CardFor: the contract does not restate the four badges, the context text and the AI summary text. These are the results of `StatusBadge`, `PriorityBadge`, `CategoryBadgeOf`, `TierBadgeOf`, `Or` and `Truncate`, whose own contracts state the lookups and fallbacks.
- Dashboard.Filter: its own contract states only soundness and the length bound. Exactness, order and idempotence are the lemmas `FilterExact`, `FilterKeepsOrder` and `FilterIdempotent`.

## Findings

| source | as written | input that shows it | evidently intended | confidence | as-written member | corrected member |
|---|---|---|---|---|---|---|
| js/feedback_system.js:482-489 | Chrome, Firefox and Safari are checked before Edge. | The Edge 18 user agent names Chrome and Safari before Edge, so the modal shows `Chrome`. Edge's user agents also name Chrome and Safari, so the Edge branch is not reached for them. | Edge is recognised before the engines its user agent also names. | medium, not executed | Widget.EdgeReportedAsChrome | Widget.BrowserInfoEdgeFirst |
