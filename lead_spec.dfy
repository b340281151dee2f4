/** The lead-capture side channels of app.js (`LeadCapture.init`): the exit-intent
    popup and the sticky lead bar, gated by one-shot flags and by a long-lived
    "subscribed" flag, plus the lead form whose submission always ends subscribed.
    The flags are mirrored in browser storage as the string "true"; the two stores are
    maps from storage key to stored string. `LeadCapture.LeadGate` is the object that
    keeps this state in its fields. */
module LeadSpec {

  /** Storage keys, with the site prefix "giw". */
  const SubscribedKey: string := "giw_subscribed"
  const PopupShownKey: string := "giw_popup_shown"
  const StickyClosedKey: string := "giw_sticky_closed"

  /** The sticky bar is offered once the page is scrolled further than this. */
  const StickyScrollThreshold: real := 600.0

  /** `store.getItem(key) === 'true'`. */
  predicate StoredTrue(store: map<string, string>, key: string) {
    key in store && store[key] == "true"
  }

  /** The lead-capture state. `popupActive` is the popup's `active` class, and
      `stickyVisible` and `stickyHidden` are the bar's `visible` and `hidden` classes;
      `hasPopup` and `hasBar` say whether the page has those elements at all. `local`
      and `session` are the browser's local and session storage. */
  datatype LeadState = LeadState(
    hasSubscribed: bool,
    popupShown: bool,
    stickyBarClosed: bool,
    popupActive: bool,
    stickyVisible: bool,
    stickyHidden: bool,
    hasPopup: bool,
    hasBar: bool,
    local: map<string, string>,
    session: map<string, string>)

  /** Every flag agrees with what storage says, so a reload restores it. */
  predicate Persisted(st: LeadState) {
    && st.hasSubscribed == StoredTrue(st.local, SubscribedKey)
    && st.popupShown == StoredTrue(st.session, PopupShownKey)
    && st.stickyBarClosed == StoredTrue(st.session, StickyClosedKey)
  }

  /** The sticky bar is on screen: it carries `visible` and not `hidden`. */
  predicate BarOnScreen(st: LeadState) {
    st.stickyVisible && !st.stickyHidden
  }

  /** `init`: the flags are read back from storage; nothing is on screen yet. */
  function Init(local: map<string, string>, session: map<string, string>, hasPopup: bool, hasBar: bool): (st: LeadState)
    ensures Persisted(st) && st.local == local && st.session == session
    ensures !st.popupActive && !BarOnScreen(st)
  {
    LeadState(StoredTrue(local, SubscribedKey), StoredTrue(session, PopupShownKey),
              StoredTrue(session, StickyClosedKey), false, false, false, hasPopup, hasBar, local, session)
  }

  /** `showExitPopup`: at most once per session, and never for a subscriber. */
  function ShowExitPopup(st: LeadState): (r: LeadState)
    ensures st.hasSubscribed || st.popupShown ==> r == st
    ensures !st.hasSubscribed && !st.popupShown ==>
      && r.popupShown && StoredTrue(r.session, PopupShownKey)
      && r.popupActive == (st.popupActive || st.hasPopup)
      && r == st.(popupShown := true, popupActive := r.popupActive, session := r.session)
  {
    if st.hasSubscribed || st.popupShown then st
    else st.(popupActive := if st.hasPopup then true else st.popupActive,
             session := st.session[PopupShownKey := "true"], popupShown := true)
  }

  /** `closeExitPopup`. */
  function CloseExitPopup(st: LeadState): (r: LeadState)
    ensures st.hasPopup ==> !r.popupActive && r == st.(popupActive := false)
    ensures !st.hasPopup ==> r == st
  {
    if st.hasPopup then st.(popupActive := false) else st
  }

  /** The document's `mouseout` listener: the pointer left through the top edge. */
  function MouseOut(st: LeadState, clientY: real): (r: LeadState)
    ensures clientY > 0.0 ==> r == st
    ensures clientY <= 0.0 ==> r == ShowExitPopup(st)
  {
    if clientY <= 0.0 && !st.hasSubscribed && !st.popupShown then ShowExitPopup(st) else st
  }

  /** `showStickyBar`: never for a subscriber nor after the visitor closed the bar. */
  function ShowStickyBar(st: LeadState): (r: LeadState)
    ensures st.hasSubscribed || st.stickyBarClosed || !st.hasBar ==> r == st
    ensures !st.hasSubscribed && !st.stickyBarClosed && st.hasBar ==>
      BarOnScreen(r) && r == st.(stickyVisible := true, stickyHidden := false)
  {
    if st.hasSubscribed || st.stickyBarClosed || !st.hasBar then st
    else st.(stickyVisible := true, stickyHidden := false)
  }

  /** `hideStickyBar`: hides the bar and remembers, for the session, that it was closed. */
  function HideStickyBar(st: LeadState): (r: LeadState)
    ensures !st.hasBar ==> r == st
    ensures st.hasBar ==> !BarOnScreen(r) && r.stickyBarClosed && StoredTrue(r.session, StickyClosedKey)
    ensures st.hasBar ==>
      r == st.(stickyVisible := false, stickyHidden := true, stickyBarClosed := true, session := r.session)
  {
    if !st.hasBar then st
    else st.(stickyVisible := false, stickyHidden := true, session := st.session[StickyClosedKey := "true"], stickyBarClosed := true)
  }

  /** The scroll listener schedules the bar check only while the bar may still appear. */
  predicate StickyCheckScheduled(st: LeadState) {
    !st.hasSubscribed && !st.stickyBarClosed
  }

  /** The debounced bar check firing 100 ms after the last scroll, with `scrollY` then. */
  function StickyCheck(st: LeadState, scrollY: real): (r: LeadState)
    ensures scrollY <= StickyScrollThreshold ==> r == st
    ensures scrollY > StickyScrollThreshold ==> r == ShowStickyBar(st)
  {
    if scrollY > StickyScrollThreshold then ShowStickyBar(st) else st
  }

  /** The outcome of the lead-form `fetch`: resolved (`then`) or rejected (`catch`). */
  datatype Delivery = Resolved | Rejected

  /** A settled submission schedules the 2 s clean-up only when its request resolved. */
  predicate CleanupScheduled(email: string, outcome: Delivery) {
    email != "" && outcome == Resolved
  }

  /** `handleLeadSubmit` once its request has settled: on both outcomes the visitor
      becomes a subscriber, in memory and in local storage. An empty email sends nothing. */
  function LeadSubmitted(st: LeadState, email: string, outcome: Delivery): (r: LeadState)
    ensures email == "" ==> r == st
    ensures email != "" ==> r.hasSubscribed && StoredTrue(r.local, SubscribedKey)
    ensures email != "" ==> r == st.(hasSubscribed := true, local := r.local)
  {
    if email == "" then st
    else st.(local := st.local[SubscribedKey := "true"], hasSubscribed := true)
  }

  /** The clean-up timer set 2 s after a resolved submission: the popup loses `active`
      and the bar gains `hidden` (its `visible` class is left in place). */
  function SuccessCleanup(st: LeadState): (r: LeadState)
    ensures st.hasPopup ==> !r.popupActive
    ensures !st.hasPopup ==> r.popupActive == st.popupActive
    ensures st.hasBar ==> !BarOnScreen(r) && r.stickyHidden && r.stickyVisible == st.stickyVisible
    ensures !st.hasBar ==> r.stickyVisible == st.stickyVisible && r.stickyHidden == st.stickyHidden
    ensures r.hasSubscribed == st.hasSubscribed && r.popupShown == st.popupShown
    ensures r.stickyBarClosed == st.stickyBarClosed && r.local == st.local && r.session == st.session
  {
    var closed := if st.hasPopup && st.popupActive then st.(popupActive := false) else st;
    if st.hasBar then closed.(stickyHidden := true) else closed
  }

  /** The events that reach the lead-capture code. */
  datatype LeadEvent =
    | PointerOut(clientY: real)
    | PopupClose
    | BarCheck(scrollY: real)
    | BarClose
    | Submitted(email: string, outcome: Delivery)
    | Cleanup

  function LeadStep(st: LeadState, e: LeadEvent): LeadState {
    match e
    case PointerOut(y) => MouseOut(st, y)
    case PopupClose => CloseExitPopup(st)
    case BarCheck(y) => StickyCheck(st, y)
    case BarClose => HideStickyBar(st)
    case Submitted(email, outcome) => LeadSubmitted(st, email, outcome)
    case Cleanup => SuccessCleanup(st)
  }

  function LeadRun(st: LeadState, es: seq<LeadEvent>): LeadState
    decreases |es|
  {
    if es == [] then st else LeadRun(LeadStep(st, es[0]), es[1..])
  }

  /** Event `e` opens the exit popup. */
  predicate OpensPopup(st: LeadState, e: LeadEvent) {
    !st.popupActive && LeadStep(st, e).popupActive
  }

  /** How many times the events `es`, run from `st`, open the exit popup. */
  function PopupOpenings(st: LeadState, es: seq<LeadEvent>): nat
    decreases |es|
  {
    if es == [] then 0
    else (if OpensPopup(st, es[0]) then 1 else 0) + PopupOpenings(LeadStep(st, es[0]), es[1..])
  }

  /** Event `e` brings the sticky bar on screen. */
  predicate OpensBar(st: LeadState, e: LeadEvent) {
    !BarOnScreen(st) && BarOnScreen(LeadStep(st, e))
  }

  /** How many times the events `es`, run from `st`, bring the sticky bar on screen. */
  function BarOpenings(st: LeadState, es: seq<LeadEvent>): nat
    decreases |es|
  {
    if es == [] then 0
    else (if OpensBar(st, es[0]) then 1 else 0) + BarOpenings(LeadStep(st, es[0]), es[1..])
  }

  /** What one step from `st` to `r` may do: keep the flags in step with storage, never
      clear a flag, and open the popup only when it was never shown, the bar only while it
      was never closed, and neither for a subscriber. */
  predicate GatedStep(st: LeadState, r: LeadState) {
    && Persisted(r)
    && (st.hasSubscribed ==> r.hasSubscribed)
    && (st.popupShown ==> r.popupShown)
    && (st.stickyBarClosed ==> r.stickyBarClosed)
    && (!st.popupActive && r.popupActive ==> !st.hasSubscribed && !st.popupShown && r.popupShown)
    && (!BarOnScreen(st) && BarOnScreen(r) ==> !st.hasSubscribed && !st.stickyBarClosed)
  }

  lemma PopupStepsGated(st: LeadState, y: real)
    requires Persisted(st)
    ensures GatedStep(st, MouseOut(st, y)) && GatedStep(st, CloseExitPopup(st))
  {
  }

  lemma BarStepsGated(st: LeadState, y: real)
    requires Persisted(st)
    ensures GatedStep(st, StickyCheck(st, y)) && GatedStep(st, HideStickyBar(st))
  {
  }

  lemma SubmitStepsGated(st: LeadState, email: string, outcome: Delivery)
    requires Persisted(st)
    ensures GatedStep(st, LeadSubmitted(st, email, outcome)) && GatedStep(st, SuccessCleanup(st))
  {
  }

  /** One event keeps the flags in step with storage, never clears a flag, and opens the
      popup only when it was never shown, the bar only while it was never closed, and
      neither for a subscriber. */
  lemma LeadStepGate(st: LeadState, e: LeadEvent)
    requires Persisted(st)
    ensures Persisted(LeadStep(st, e))
    ensures st.hasSubscribed ==> LeadStep(st, e).hasSubscribed
    ensures st.popupShown ==> LeadStep(st, e).popupShown
    ensures st.stickyBarClosed ==> LeadStep(st, e).stickyBarClosed
    ensures OpensPopup(st, e) ==> !st.hasSubscribed && !st.popupShown && LeadStep(st, e).popupShown
    ensures OpensBar(st, e) ==> !st.hasSubscribed && !st.stickyBarClosed
  {
    match e
    case PointerOut(y) => PopupStepsGated(st, y);
    case PopupClose => PopupStepsGated(st, 0.0);
    case BarCheck(y) => BarStepsGated(st, y);
    case BarClose => BarStepsGated(st, 0.0);
    case Submitted(email, outcome) => SubmitStepsGated(st, email, outcome);
    case Cleanup => SubmitStepsGated(st, "", Resolved);
  }

  /** Storage and flags stay in step over any sequence of events, so reloading the page
      (`Init` from the stores) restores every flag. */
  lemma {:induction false} FlagsSurviveReload(st: LeadState, es: seq<LeadEvent>)
    requires Persisted(st)
    ensures var r := LeadRun(st, es);
      var reloaded := Init(r.local, r.session, r.hasPopup, r.hasBar);
      && reloaded.hasSubscribed == r.hasSubscribed
      && reloaded.popupShown == r.popupShown
      && reloaded.stickyBarClosed == r.stickyBarClosed
    decreases |es|
  {
    if es != [] {
      LeadStepGate(st, es[0]);
      FlagsSurviveReload(LeadStep(st, es[0]), es[1..]);
    }
  }

  /** The exit popup opens at most once per session, and never once it was shown. */
  lemma {:induction false} PopupAtMostOnce(st: LeadState, es: seq<LeadEvent>)
    requires Persisted(st)
    ensures PopupOpenings(st, es) <= if st.popupShown || st.hasSubscribed then 0 else 1
    decreases |es|
  {
    if es != [] {
      LeadStepGate(st, es[0]);
      PopupAtMostOnce(LeadStep(st, es[0]), es[1..]);
    }
  }

  /** A subscriber never sees the popup or the sticky bar come up again. */
  lemma {:induction false} SubscriberSeesNothing(st: LeadState, es: seq<LeadEvent>)
    requires Persisted(st) && st.hasSubscribed
    ensures PopupOpenings(st, es) == 0 && BarOpenings(st, es) == 0
    ensures LeadRun(st, es).hasSubscribed
    decreases |es|
  {
    if es != [] {
      LeadStepGate(st, es[0]);
      SubscriberSeesNothing(LeadStep(st, es[0]), es[1..]);
    }
  }

  /** Once the visitor closed the sticky bar, it does not come back this session. */
  lemma {:induction false} ClosedBarStaysClosed(st: LeadState, es: seq<LeadEvent>)
    requires Persisted(st) && st.stickyBarClosed
    ensures BarOpenings(st, es) == 0
    decreases |es|
  {
    if es != [] {
      LeadStepGate(st, es[0]);
      ClosedBarStaysClosed(LeadStep(st, es[0]), es[1..]);
    }
  }

  /** Neither the popup nor the bar is on screen. */
  predicate Clear(st: LeadState) {
    !st.popupActive && !BarOnScreen(st)
  }

  /** A subscriber whose screen is clear keeps it clear, whatever happens next. */
  lemma {:induction false} SubscriberStaysClear(st: LeadState, es: seq<LeadEvent>)
    requires st.hasSubscribed && Clear(st)
    ensures Clear(LeadRun(st, es)) && LeadRun(st, es).hasSubscribed
    decreases |es|
  {
    if es != [] {
      SubscriberStaysClear(LeadStep(st, es[0]), es[1..]);
    }
  }

  /** A successful submission followed by its clean-up leaves a page with both elements
      clear for good, whatever was on screen before. */
  lemma SubmissionClearsForGood(st: LeadState, email: string, es: seq<LeadEvent>)
    requires email != "" && st.hasPopup && st.hasBar
    ensures Clear(LeadRun(SuccessCleanup(LeadSubmitted(st, email, Resolved)), es))
  {
    SubscriberStaysClear(SuccessCleanup(LeadSubmitted(st, email, Resolved)), es);
  }
}
