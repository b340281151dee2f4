/** The lead-capture state as the page script holds it, proved against `LeadSpec`. */
module LeadCapture {
  import opened LeadSpec

  /** The lead-capture state held by the page script. */
  class LeadGate {
    var hasSubscribed: bool
    var popupShown: bool
    var stickyBarClosed: bool
    var popupActive: bool
    var stickyVisible: bool
    var stickyHidden: bool
    const hasPopup: bool
    const hasBar: bool
    var local: map<string, string>
    var session: map<string, string>

    function State(): LeadState
      reads this
    {
      LeadState(hasSubscribed, popupShown, stickyBarClosed, popupActive, stickyVisible, stickyHidden,
                hasPopup, hasBar, local, session)
    }

    constructor (local: map<string, string>, session: map<string, string>, hasPopup: bool, hasBar: bool)
      ensures State() == Init(local, session, hasPopup, hasBar)
    {
      this.hasPopup := hasPopup;
      this.hasBar := hasBar;
      this.local := local;
      this.session := session;
      hasSubscribed := SubscribedKey in local && local[SubscribedKey] == "true";
      popupShown := PopupShownKey in session && session[PopupShownKey] == "true";
      stickyBarClosed := StickyClosedKey in session && session[StickyClosedKey] == "true";
      popupActive := false;
      stickyVisible := false;
      stickyHidden := false;
    }

    method ShowExitPopup()
      modifies this
      ensures State() == LeadSpec.ShowExitPopup(old(State()))
    {
      if hasSubscribed || popupShown {
        return;
      }
      if hasPopup {
        popupActive := true;
      }
      session := session[PopupShownKey := "true"];
      popupShown := true;
    }

    method CloseExitPopup()
      modifies this
      ensures State() == LeadSpec.CloseExitPopup(old(State()))
    {
      if hasPopup {
        popupActive := false;
      }
    }

    method OnMouseOut(clientY: real)
      modifies this
      ensures State() == MouseOut(old(State()), clientY)
    {
      if clientY <= 0.0 && !hasSubscribed && !popupShown {
        ShowExitPopup();
      }
    }

    method ShowStickyBar()
      modifies this
      ensures State() == LeadSpec.ShowStickyBar(old(State()))
    {
      if hasSubscribed || stickyBarClosed || !hasBar {
        return;
      }
      stickyVisible := true;
      stickyHidden := false;
    }

    method HideStickyBar()
      modifies this
      ensures State() == LeadSpec.HideStickyBar(old(State()))
    {
      if !hasBar {
        return;
      }
      stickyVisible := false;
      stickyHidden := true;
      session := session[StickyClosedKey := "true"];
      stickyBarClosed := true;
    }

    /** The scroll listener: whether it (re)schedules the debounced bar check. */
    method OnScroll() returns (scheduled: bool)
      ensures scheduled == StickyCheckScheduled(State())
    {
      scheduled := !(hasSubscribed || stickyBarClosed);
    }

    method OnStickyCheck(scrollY: real)
      modifies this
      ensures State() == StickyCheck(old(State()), scrollY)
    {
      if scrollY > StickyScrollThreshold {
        ShowStickyBar();
      }
    }

    /** `handleLeadSubmit` with the settled outcome of its request. */
    method OnLeadSubmitted(email: string, outcome: Delivery) returns (cleanup: bool)
      modifies this
      ensures State() == LeadSubmitted(old(State()), email, outcome)
      ensures cleanup == CleanupScheduled(email, outcome)
    {
      cleanup := false;
      if email == "" {
        return;
      }
      match outcome
      case Resolved =>
        local := local[SubscribedKey := "true"];
        hasSubscribed := true;
        cleanup := true;
      case Rejected =>
        local := local[SubscribedKey := "true"];
        hasSubscribed := true;
    }

    method OnSuccessCleanup()
      modifies this
      ensures State() == SuccessCleanup(old(State()))
    {
      if hasPopup && popupActive {
        popupActive := false;
      }
      if hasBar {
        stickyHidden := true;
      }
    }
  }
}
