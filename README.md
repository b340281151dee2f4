# Klausy engagement engine and edge worker, in Dafny

This project models the stateful core of the GoIconicWay car-rental site:

- **The Klausy bubble** (`initBubble` in `app.js`) is the assistant bubble that proactively shows one of a catalogue of messages. These are the welcome message, one message per page section, exit intent and inactivity. Every proactive display passes a five-way gate:
  - not dismissed;
  - this key not shown before;
  - cooldown over;
  - fewer than 4 messages this session;
  - bubble not already visible.

  Button clicks and the close button hide the bubble, with a 180 s or a 90 s cooldown. The help toggle bypasses the gate.
  - `BubbleSpec` holds the session record and one function per operation.
  - `Bubble.KlausyBubble` is the object whose methods update the record's fields in place. Each method is proved equal to its function.
  - `BubbleTraces` proves properties of whole event sequences: one-shot keys, the cap, the counter, and the cooldown.
- **Lead capture** (`LeadCapture.init` in `app.js`) covers three pieces: the exit-intent popup, the sticky lead bar and the lead form.
  - Their one-shot flags are mirrored in local and session storage.
  - `LeadSpec` holds the state and its functions, with trace lemmas.
  - `LeadCapture.LeadGate` is the object.
- **The Cloudflare worker** (`cloudflare-worker.js`) has four parts.
  - `RateLimit` is the per-key counter (`checkRateLimit`).
  - `Prompts` is the system-prompt table (`getSystemPrompt`).
  - `Worker` covers the `fetch` router, the concierge proxy and the guide download, each as the response it chooses and the limiter state after it.
  - The methods of `Worker` run against a `RateLimit.Limiter` object.
- **Two string helpers of `app.js`:**
  - `Cookies` models the cookie reader `getCookie`, over JavaScript's `split`.
  - `Sanitize` models the `on…=` rewrite of `sanitizeHTML`.
- **Shared helpers:** `Text` holds JavaScript's `indexOf` and UTF-16 `length`, and `Wrappers` holds `Option`.

Modelling choices:
- Time is an explicit millisecond clock `now`.
- Timers and browser events are events in a trace. They may arrive in any order and at any time, so every trace property covers every schedule the browser can produce.
- Geometry is `real`.
- `initBubble` corresponds to the `Bubble.KlausyBubble` constructor followed by one `DetectSection` (app.js:1179).
- The network call to the language-model API is an input (`Worker.Upstream`). The request the worker would send is an output (`Worker.UpstreamCall`).

What the code does, where one might expect otherwise:
- The exit-intent message is subject to the cooldown like every other message (app.js:1062). It fires when the pointer leaves above 10 px (app.js:1174), not only at the top edge.
- The "permanently dismissed" flag exists (app.js:1049) but nothing in `app.js` sets it. `dismissed` is a field that no operation changes. `BubbleTraces.DismissedSilencesAll` shows what it would do.
- The section trigger records at scheduling time whether the section is new, that is, absent from the dismissal snapshot (app.js:1150). It does not re-read the snapshot when it fires.
- A cooldown is not monotone. Closing the help bubble sets a 90 s cooldown that replaces a longer one still running (app.js:1077). `BubbleTraces.CooldownCanShrink` exhibits this. `BubbleTraces.CooldownHolds` proves the guarantee that does hold: nothing is displayed before the current cooldown ends while no event sets a new one.

## Model

| member | source | states |
|---|---|---|
| Text.IndexOfFrom | app.js:1122 | the result is -1 exactly when the pattern occurs nowhere from `from` on; otherwise it is the first occurrence at or after `from` |
| Text.IndexOfMissing | app.js:1122 | `indexOf` returns -1 if and only if the pattern does not occur |
| Text.Utf16Length | cloudflare-worker.js:93 | JavaScript's `length` lies between the number of code points and twice that |
| Text.Utf16LengthAppend | cloudflare-worker.js:93 | the UTF-16 length of a concatenation is the sum of the lengths |
| BubbleSpec.RenderedTarget | app.js:1057 | a button's `data-target` is its target when it has one (an empty one stays empty), or "" when it has none |
| BubbleSpec.Initial | app.js:1045-1052 | a new session has no shown keys, no viewed sections, no cooldown, section "home", the stored counter, and a hidden bubble |
| BubbleSpec.Show | app.js:1061-1072 | the state changes if and only if all five gate conditions hold and the key is in the catalogue; a display adds the key, increments the counter, makes the bubble visible, and leaves the schedule fields alone |
| BubbleSpec.Hide | app.js:1074-1080 | the bubble is hidden; a positive cooldown sets `cooldownUntil = now + 1000·seconds` and snapshots the viewed sections; nothing else changes |
| BubbleSpec.HelpKey | app.js:1084-1085 | the help key is the section's own when the catalogue has it, else the home section's; it is always in the catalogue |
| BubbleSpec.UserHelp | app.js:1082-1091 | a visible bubble is hidden without cooldown; otherwise the help message is shown without touching shown keys, counter or cooldown |
| BubbleSpec.ClickCooldown | app.js:1110-1133 | only "dismiss" applies a cooldown, of 180 s |
| BubbleSpec.Click | app.js:1105-1135 | every button click hides the bubble; "dismiss" also sets a 180 s cooldown and snapshots the viewed sections, and changes nothing else; any other action changes only visibility |
| BubbleSpec.Close | app.js:1137 | the close button hides with a 90 s cooldown and a snapshot of the viewed sections, and changes nothing else |
| BubbleSpec.PdfDelivery | app.js:1094-1102 | the download message is made visible outside the gate; shown keys, counter, cooldown and the other schedule fields are unchanged |
| BubbleSpec.ClickEffect | app.js:1110-1133 | "scroll" scrolls to the target; "whatsapp" opens the WhatsApp link; "download" opens the target if and only if it is non-empty and has no placeholder, else shows the delivery notice; other actions do nothing else |
| BubbleSpec.FirstHit | app.js:1143-1157 | the result is the first section whose element contains the midpoint: it is hit and none before it is; None means no section is hit |
| BubbleSpec.FirstHitUnique | app.js:1143-1156 | an index that is hit with nothing hit before it is the one `FirstHit` returns |
| BubbleSpec.Detect | app.js:1140-1158 | the state changes if and only if the located section differs from the current one; it then becomes current and is added to the viewed sections |
| BubbleSpec.Scheduled | app.js:1146-1153 | a trigger is scheduled exactly when the section changes; it names the new section and is "new" if and only if the section is absent from the dismissal snapshot |
| BubbleSpec.Scrolled | app.js:1166-1170 | scrolling records activity at `now`, detects the section, and sets the scroll depth to the maximum of the old depth and `scrollY`; no other field changes |
| BubbleSpec.Request | app.js:1151-1178 | each trigger asks for its own key, and does so if and only if its own guard holds: welcome with at most one section viewed; a section still current and new; exit below 10 px; inactivity after 45 s |
| BubbleTraces.StepGate | app.js:1061-1072 | per event, a display happens only through the five-way gate and adds exactly its key and one count; no event changes `dismissed` or shrinks the viewed sections; only timed hides change the cooldown |
| BubbleTraces.PdfDeliveryBlocks | app.js:1094-1102 | while the download message is on screen, no proactive message can appear, and the next help request hides the bubble |
| BubbleTraces.CatalogueDownloadsAreNotices | app.js:1042 | every download button of the catalogue renders the placeholder target, so clicking it shows the delivery notice |
| BubbleTraces.SessionSetsGrow | app.js:1045-1178 | over any event sequence, shown keys and viewed sections only grow and `dismissed` is unchanged |
| BubbleTraces.OneShotPerKey | app.js:1062-1065 | each key is displayed at most once per session, and never once already shown |
| BubbleTraces.CounterCountsDisplays | app.js:1065-1067 | the session counter grows by exactly the number of proactive displays |
| BubbleTraces.CapHolds | app.js:1051-1062 | a session makes at most `4 - totalShown` proactive displays, and the counter stays within 4 |
| BubbleTraces.DismissedSilencesAll | app.js:1062 | once `dismissed` is set, no proactive message is ever displayed |
| BubbleTraces.CooldownHolds | app.js:1062-1080 | while no event sets a new cooldown, nothing is displayed before the current cooldown ends |
| BubbleTraces.DismissSilencesThreeMinutes | app.js:1128-1130 | after a "dismiss" click, nothing is displayed within 180 s unless a later click sets a new cooldown |
| BubbleTraces.CooldownCanShrink | app.js:1074-1080 | a concrete session in which a 90 s close after the help toggle lets the inactivity message appear before the 180 s dismissal cooldown ends |
| BubbleTraces.WelcomeScenario | app.js:1160-1163 | in a fresh session, the welcome timer displays "welcome" and the counter becomes 1 |
| BubbleTraces.ScenarioDismiss | app.js:1128-1130 | dismissing the welcome message at 15 s sets the cooldown to 195 s |
| BubbleTraces.ScenarioReachFleet | app.js:1140-1158 | reaching the fleet section schedules a new-section trigger for it |
| BubbleTraces.ScenarioLeaveAndReturn | app.js:1140-1158 | leaving for the routes section and coming back schedules the fleet trigger again, still new |
| BubbleTraces.CooldownScenario | app.js:1140-1153 | after a dismissal at 15 s, the fleet trigger at 23 s is suppressed and the one at 196 s displays "fleet" |
| Bubble.KlausyBubble.constructor | app.js:1045-1052 | the fields form the initial session record |
| Bubble.KlausyBubble.ShowMessage | app.js:1061-1072 | the new state is `Show` of the old |
| Bubble.KlausyBubble.HideMessage | app.js:1074-1080 | the new state is `Hide` of the old |
| Bubble.KlausyBubble.ShowUserHelp | app.js:1082-1091 | the new state is `UserHelp` of the old |
| Bubble.KlausyBubble.ClickButton | app.js:1105-1135 | the new state is `Click` of the old, and the returned effect is `ClickEffect` |
| Bubble.KlausyBubble.ClickClose | app.js:1137 | the new state is `Close` of the old |
| Bubble.KlausyBubble.DetectSection | app.js:1140-1158 | the loop's result is `Detect` of the old state, and the trigger it returns is `Scheduled` |
| Bubble.KlausyBubble.OnScroll | app.js:1166-1170 | the new state is the scroll step of the old, and it returns the scheduled trigger |
| Bubble.KlausyBubble.OnPointer | app.js:1171-1172 | only the activity time changes |
| Bubble.KlausyBubble.OnMouseLeave | app.js:1173-1175 | the new state is the exit-intent step of the old |
| Bubble.KlausyBubble.OnWelcomeTimer | app.js:1161-1163 | the new state is the welcome-timer step of the old |
| Bubble.KlausyBubble.OnInactivityTimer | app.js:1176-1178 | the new state is the inactivity-check step of the old |
| Bubble.KlausyBubble.ShowPdfDelivery | app.js:1094-1102 | the new state is the download-message step of the old |
| Bubble.KlausyBubble.OnSectionTimer | app.js:1151-1153 | the new state is the section-trigger step of the old |
| LeadSpec.Init | app.js:1196-1201 | flags are read back from storage, so state and storage agree; nothing is on screen |
| LeadSpec.ShowExitPopup | app.js:1253-1261 | no-op for a subscriber or once shown; otherwise the popup becomes active when present, and the shown flag is set in memory and in session storage |
| LeadSpec.CloseExitPopup | app.js:1262-1267 | the popup loses `active` when present; nothing else changes |
| LeadSpec.MouseOut | app.js:1269-1271 | only a pointer leaving at or above the top edge can show the popup |
| LeadSpec.ShowStickyBar | app.js:1279-1283 | the bar comes on screen unless the visitor subscribed, closed it, or the page has no bar |
| LeadSpec.HideStickyBar | app.js:1284-1290 | the bar leaves the screen and its closed flag is set in memory and in session storage |
| LeadSpec.StickyCheck | app.js:1296-1298 | the bar is offered only when the page is scrolled past 600 px |
| LeadSpec.LeadSubmitted | app.js:1220-1249 | a non-empty email makes the visitor a subscriber, in memory and in local storage, whether the request resolves or fails; an empty email changes nothing |
| LeadSpec.SuccessCleanup | app.js:1240-1243 | the popup loses `active` and the bar gains `hidden` but keeps `visible`; flags and storage are unchanged |
| LeadSpec.LeadStepGate | app.js:1253-1298 | each event keeps flags and storage in step and never clears a flag; the popup opens only when never shown, the bar only when never closed, and neither for a subscriber |
| LeadSpec.FlagsSurviveReload | app.js:1197-1201 | after any events, re-initialising from storage restores every flag |
| LeadSpec.PopupAtMostOnce | app.js:1253-1261 | the exit popup opens at most once per session, and never if already shown or subscribed |
| LeadSpec.SubscriberSeesNothing | app.js:1254-1280 | a subscriber never sees the popup or the bar open, and stays subscribed |
| LeadSpec.ClosedBarStaysClosed | app.js:1280-1294 | once closed, the sticky bar never comes back in the session |
| LeadSpec.SubscriberStaysClear | app.js:1254-1294 | a subscriber with nothing on screen keeps nothing on screen |
| LeadSpec.SubmissionClearsForGood | app.js:1236-1243 | a resolved submission followed by its clean-up leaves both elements off screen for good |
| LeadCapture.LeadGate.constructor | app.js:1196-1201 | the fields are `Init` of the stores |
| LeadCapture.LeadGate.ShowExitPopup | app.js:1253-1261 | the new state is `ShowExitPopup` of the old |
| LeadCapture.LeadGate.CloseExitPopup | app.js:1262-1276 | the new state is `CloseExitPopup` of the old |
| LeadCapture.LeadGate.OnMouseOut | app.js:1269-1271 | the new state is `MouseOut` of the old |
| LeadCapture.LeadGate.ShowStickyBar | app.js:1279-1283 | the new state is `ShowStickyBar` of the old |
| LeadCapture.LeadGate.HideStickyBar | app.js:1284-1290 | the new state is `HideStickyBar` of the old |
| LeadCapture.LeadGate.OnScroll | app.js:1293-1299 | the bar check is scheduled if and only if the visitor is neither subscribed nor has closed the bar |
| LeadCapture.LeadGate.OnStickyCheck | app.js:1296-1298 | the new state is `StickyCheck` of the old |
| LeadCapture.LeadGate.OnLeadSubmitted | app.js:1220-1249 | the new state is `LeadSubmitted` of the old, and the clean-up is scheduled if and only if the email is non-empty and the request resolved |
| LeadCapture.LeadGate.OnSuccessCleanup | app.js:1240-1243 | the new state is `SuccessCleanup` of the old |
| RateLimit.Check | cloudflare-worker.js:219-246 | refused if and only if the stored count plus one exceeds the limit; a refusal leaves the store unchanged; an allowed request stores count + 1; other keys are untouched; a count within the limit stays within it |
| RateLimit.BurstAllowsUpToLimit | cloudflare-worker.js:219-246 | of n back-to-back requests on one key with stored count c, exactly `min(n, limit - c)` are allowed |
| RateLimit.Limiter.CheckRateLimit | cloudflare-worker.js:219-246 | the verdict and the new store are `Check` of the old store |
| Prompts.ParseLang | cloudflare-worker.js:269 | a recognised language name is that language's own name |
| Prompts.ParseMode | cloudflare-worker.js:270 | a recognised mode name is that mode's own name |
| Prompts.NamesRoundTrip | cloudflare-worker.js:252-267 | every language and mode is found under its own table name |
| Prompts.SystemPrompt | cloudflare-worker.js:269-270 | the German table if and only if the language is "de"; each mode's prompt exactly for its own name, and the route planner also for any unknown mode |
| Prompts.EveryPromptReachable | cloudflare-worker.js:252-270 | every one of the ten prompts is selected by its own names |
| Prompts.SystemPromptAsWritten | cloudflare-worker.js:269-270 | the lookup as written yields a non-prompt if and only if the language or the mode is an inherited `Object.prototype` name |
| Prompts.AsWrittenAgrees | cloudflare-worker.js:269-270 | away from inherited names, the code as written returns the intended prompt |
| Prompts.InheritedNameIsNotAPrompt | cloudflare-worker.js:269-270 | language "constructor", or mode "toString", gives a non-prompt where the English route planner is intended |
| Worker.OrElse | cloudflare-worker.js:104 | `x \|\| fallback`: a present non-empty string is kept, and absent or empty falls back |
| Worker.ClientKey | cloudflare-worker.js:72 | the client key is the `CF-Connecting-IP` header when present and non-empty, otherwise "unknown"; never empty |
| Worker.ConciergePrompt | cloudflare-worker.js:104 | a missing mode selects the route planner, a missing language English |
| Worker.ConciergeReply | cloudflare-worker.js:124-141 | status 200 if and only if a completion came back, 503 if and only if the API answered with an error status; a network failure or a non-JSON body gives 500; a reply is never empty ("No response" when the content is missing) |
| Worker.Consulted | cloudflare-worker.js:36-47 | the limiter is consulted if and only if the request is a POST to the concierge or a GET of the guide, each under its own key prefix and limit (15 or 5) |
| Worker.Concierge | cloudflare-worker.js:63-153 | non-POST gives 405 and no counter change; otherwise a 429 exactly when the limiter refuses; an unreadable body gives 500, an invalid message 400; the API is called if and only if all checks pass, with the selected prompt and the message |
| Worker.PdfUrl | cloudflare-worker.js:196 | the guide location is `PDF_URL` when set and non-empty, otherwise the default guide URL on goiconicway.com; never empty |
| Worker.Guide | cloudflare-worker.js:158-213 | non-GET gives 405; otherwise 429 when the limiter refuses, else a redirect to the guide; the API is never called |
| Worker.Serve | cloudflare-worker.js:24-58 | OPTIONS gives the preflight answer on every path; any other method on /api/concierge and /api/guide is answered by `Concierge` and `Guide`; health answers any other method; unknown paths get 404; the store changes only through the consulted budget, and 429 is answered if and only if that budget refuses |
| Worker.ConciergeLookupAsWritten | cloudflare-worker.js:269-270 | the lookup as written yields the prompt the concierge sends if and only if neither the mode nor the language is an inherited `Object.prototype` name |
| Worker.RepeatHitsLimit | cloudflare-worker.js:74-86 | a repeated rate-limited request is refused exactly from the `(limit - c)`-th repetition on |
| Worker.GuideBudget | cloudflare-worker.js:166-204 | a client with c downloads recorded gets the next `5 - c` requests redirected and 429 after that |
| Worker.GuideNeverFails | cloudflare-worker.js:158-213 | every answer to a repeated guide GET is the redirect or 429 |
| Worker.SeparateBudgets | cloudflare-worker.js:75 | concierge and guide counters live under different keys |
| Worker.CountersIndependent | cloudflare-worker.js:219-246 | a request never changes another client's counter nor the other endpoint's |
| Worker.GuideSparesConcierge | cloudflare-worker.js:167-168 | a guide download never changes any concierge counter |
| Worker.HandleConcierge | cloudflare-worker.js:63-153 | the response, the API call and the new limiter store are `Concierge` of the old store |
| Worker.HandleGuideDownload | cloudflare-worker.js:158-213 | the response and the new limiter store are `Guide` of the old store |
| Worker.HandleFetch | cloudflare-worker.js:24-58 | the response, the API call and the new limiter store are `Serve` of the old store |
| Cookies.Split | app.js:89 | `split` yields at least one piece and no piece contains the separator |
| Cookies.SplitJoin | app.js:89 | joining the pieces with the separator gives the string back |
| Cookies.GetCookie | app.js:87-92 | a value is found if and only if "; name=" occurs exactly once in "; " + cookie; the value holds no ";" and is a prefix of what follows the name |
| Cookies.ReadsTheNamedValue | app.js:87-92 | a name occurring once reads back the value up to the next ";" |
| Cookies.ReadsSecondCookie | app.js:87-92 | reading "b" from "a=1; b=2" gives "2" |
| Cookies.DuplicateCookieIsUnset | app.js:87-92 | a name set twice reads as null |
| Cookies.SuffixNameIsUnset | app.js:87-92 | a name that only ends another cookie's name is not found |
| Sanitize.MatchEnd | app.js:41 | a match at `i` ends after an "=" at least three characters on, and starts at a word boundary |
| Sanitize.MatchEndSound | app.js:41 | every match found is a handler span: "on" in any case, word characters, white space, then "=" |
| Sanitize.MatchEndComplete | app.js:41 | wherever a handler span starts, the greedy match finds it and ends after its "=" |
| Sanitize.NoHandlerLeft | app.js:41 | no handler attribute remains after the rewrite |
| Sanitize.CleanTextUnchanged | app.js:41 | text without handler attributes passes unchanged |
| Sanitize.RemoveHandlersIdempotent | app.js:41 | rewriting twice is rewriting once |
| Sanitize.HandlerNeedsAName | app.js:41 | "onx=" is replaced by "data-removed=", but "on=" is kept, since at least one word character must follow "on" |

## Left out

- Message texts, button labels, the HTML rendering of buttons and the analytics (`gtag`) calls are not modelled. Messages are keys with their buttons' actions and targets.
- The DOM itself is represented only through the CSS classes the code toggles (`visible`, `active`, `hidden`). Smooth scrolling, `window.open` and `alert` are returned as an `Effect`.
- The focus trap of the exit popup (`trapFocus`/`releaseFocus`) is not modelled.
- Timers (`setTimeout`, `setInterval`, the 100 ms debounce of the sticky-bar check) are events of a trace, delivered at any time. Their fixed delays are not enforced, which only widens what the trace lemmas cover.
- `showFormSuccess` (app.js:1211-1218) only renders the form's thank-you content and schedules `showPdfDelivery`. The rendering is left out. The scheduled call is the bubble event `PdfReady`, which a trace may deliver at any time.
- BubbleSpec.Initial: takes the counter as a number already read back from session storage. The parse of a non-numeric stored value (`NaN`) and the write-back of the counter to session storage are not modelled.
- LeadSpec.Init: assumes that the sticky bar starts without the `visible` and `hidden` classes and the popup without `active`. The page markup that sets them is not part of this model.
- The lead form's network request is reduced to its outcome (`Delivery`). The spinner, the disabled button and the request payload are left out.
- The rate limiter's cache lifetime (`windowSeconds`, the `max-age` header) is not modelled: entries never expire. Concurrent requests racing on the cache are not modelled either.
- Worker.ConciergePrompt: uses the corrected prompt lookup (`Prompts.SystemPrompt`), not the lookup as written, which yields no prompt for inherited `Object.prototype` names (see Findings). `Worker.ConciergeLookupAsWritten` states where the two agree.
- Worker.Concierge: uses the corrected prompt lookup for the API call, so for an inherited language or mode name it sends the English route prompt where the code sends no usable system message.
- Worker.HandleConcierge: is proved equal to `Worker.Concierge` and so carries the same corrected lookup.
- Worker.Serve: sends concierge requests through `Worker.Concierge` and so carries the same corrected lookup.
- Worker.HandleFetch: is proved equal to `Worker.Serve` and so carries the same corrected lookup.
- LeadSpec.PopupAtMostOnce, LeadSpec.SubscriberSeesNothing, LeadSpec.SubscriberStaysClear, LeadSpec.SubmissionClearsForGood: hold for the lead-capture operations only. The floating action button's "guide" option adds `active` to the exit popup directly (app.js:578-579), bypassing the subscribed and shown checks. That button is not part of this model.
- Worker.Concierge: treats `message`, `mode` and `language` as strings or absent. Non-string JSON values (numbers, arrays, objects) are not modelled.
- The health check's timestamp body and all response headers (CORS, `Content-Type`) are not modelled.
- The guide download's error path (cloudflare-worker.js:206-212) is not modelled: nothing in the `try` block can throw.
- Of `sanitizeHTML` (app.js:30-43), only the handler-attribute rewrite is modelled. The `<script>`, `<iframe>`, `<object>` and `<embed>` removals are not.

## Findings

| source | as written | input that shows it | evidently intended | confidence | as-written member | corrected member |
|---|---|---|---|---|---|---|
| cloudflare-worker.js:269-270 | `prompts[lang] \|\| prompts.en` and `langPrompts[mode] \|\| langPrompts.route` look names up on plain objects, so names inherited from `Object.prototype` select a function or an object instead of falling back | `language: "constructor"` with the default mode, or `mode: "toString"` with the default language | an unknown language falls back to English and an unknown mode to the route planner, for every string | not executed | Prompts.InheritedNameIsNotAPrompt | Prompts.SystemPrompt |
