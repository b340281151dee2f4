/** The Klausy bubble as the object `initBubble` builds: the `state` record's fields,
    updated in place by the handlers. Every method is proved against the function of
    `BubbleSpec` that specifies it, so the session properties of `BubbleTraces` hold of
    every sequence of calls. */
module Bubble {
  import opened Wrappers
  import opened BubbleSpec

  class KlausyBubble {
    var sessionStart: int
    var lastActivity: int
    var sectionsViewed: set<string>
    var sectionsAtDismiss: set<string>
    var currentSection: string
    var messageShown: set<string>
    var dismissed: bool
    var cooldownUntil: int
    var totalShown: int
    var scrollDepth: real
    /** The bubble element carries the CSS class `visible`. */
    var visible: bool
    /** The key of the message whose text and buttons the bubble holds. */
    var displayed: Option<string>

    /** The fields, as one session record. */
    function State(): Session
      reads this
    {
      Session(sessionStart, lastActivity, sectionsViewed, sectionsAtDismiss, currentSection,
              messageShown, dismissed, cooldownUntil, totalShown, scrollDepth, visible, displayed)
    }

    /** `initBubble` at time `now`; `storedTotal` is the counter read back from session storage. */
    constructor (now: int, storedTotal: int)
      ensures State() == Initial(now, storedTotal)
    {
      sessionStart, lastActivity := now, now;
      sectionsViewed, sectionsAtDismiss := {}, {};
      currentSection := "home";
      messageShown := {};
      dismissed := false;
      cooldownUntil := 0;
      totalShown := storedTotal;
      scrollDepth := 0.0;
      visible := false;
      displayed := None;
    }

    /** `showMessage(key)` at time `now`. */
    method ShowMessage(key: string, now: int)
      modifies this
      ensures State() == Show(old(State()), key, now)
    {
      if dismissed || key in messageShown || now < cooldownUntil || totalShown >= MaxMessages || visible {
        return;
      }
      if key !in Messages {
        return;
      }
      messageShown := messageShown + {key};
      totalShown := totalShown + 1;
      displayed := Some(key);
      visible := true;
    }

    /** `hideMessage(cooldownSeconds)` at time `now`. */
    method HideMessage(cooldownSeconds: int, now: int)
      modifies this
      ensures State() == Hide(old(State()), cooldownSeconds, now)
    {
      visible := false;
      if cooldownSeconds > 0 {
        cooldownUntil := now + cooldownSeconds * 1000;
        sectionsAtDismiss := sectionsViewed;
      }
    }

    /** `showUserHelp`, the help toggle. */
    method ShowUserHelp(now: int)
      modifies this
      ensures State() == UserHelp(old(State()), now)
    {
      if visible {
        HideMessage(0, now);
        return;
      }
      var key := "userHelp_" + currentSection;
      if key !in Messages {
        key := "userHelp_home";
      }
      displayed := Some(key);
      visible := true;
    }

    /** A click on an action button with `data-action` = `action` and `data-target` = `target`. */
    method ClickButton(action: string, target: string, now: int) returns (effect: Effect)
      modifies this
      ensures State() == Click(old(State()), action, now)
      ensures effect == ClickEffect(action, target)
    {
      Text.IndexOfMissing(target, PdfPlaceholder);
      if action == "scroll" {
        HideMessage(0, now);
        effect := ScrollTo(target);
      } else if action == "whatsapp" {
        HideMessage(0, now);
        effect := OpenTab(WhatsAppLink);
      } else if action == "download" {
        HideMessage(0, now);
        if target != "" && Text.IndexOf(target, PdfPlaceholder) == -1 {
          effect := OpenTab(target);
        } else {
          effect := DeliveryNotice;
        }
      } else if action == "dismiss" {
        HideMessage(DismissCooldown, now);
        effect := NoEffect;
      } else {
        HideMessage(0, now);
        effect := NoEffect;
      }
    }

    /** The bubble's close button. */
    method ClickClose(now: int)
      modifies this
      ensures State() == Close(old(State()), now)
    {
      HideMessage(CloseCooldown, now);
    }

    /** `detectSection` with the viewport midpoint `y`: returns the delayed trigger it
        schedules, if any. */
    method DetectSection(layout: map<string, Box>, y: real) returns (scheduled: Option<SectionTrigger>)
      modifies this
      ensures State() == Detect(old(State()), layout, y)
      ensures scheduled == Scheduled(old(State()), layout, y)
    {
      scheduled := None;
      for i := 0 to |Sections|
        invariant forall j :: 0 <= j < i ==> !Hit(layout, Sections[j], y)
        invariant State() == old(State()) && scheduled == None
      {
        var name := Sections[i];
        if name in layout && layout[name].top <= y < layout[name].top + layout[name].height {
          FirstHitUnique(Sections, layout, y, i);
          if currentSection != name {
            currentSection := name;
            sectionsViewed := sectionsViewed + {name};
            var isNew := name !in sectionsAtDismiss;
            scheduled := Some(SectionTrigger(name, isNew));
          }
          break;
        }
      }
    }

    /** The scroll listener. */
    method OnScroll(layout: map<string, Box>, scrollY: real, innerHeight: real, now: int)
      returns (scheduled: Option<SectionTrigger>)
      modifies this
      ensures State() == Step(old(State()), Scroll(layout, scrollY, innerHeight, now))
      ensures scheduled == Scheduled(old(State()), layout, scrollY + innerHeight / 2.0)
    {
      scheduled := DetectSection(layout, scrollY + innerHeight / 2.0);
      lastActivity := now;
      if scrollY > scrollDepth {
        scrollDepth := scrollY;
      }
    }

    /** The mouse-move and click listeners. */
    method OnPointer(now: int)
      modifies this
      ensures State() == Step(old(State()), Pointer(now))
    {
      lastActivity := now;
    }

    /** The mouse-leave listener: exit intent. */
    method OnMouseLeave(clientY: real, now: int)
      modifies this
      ensures State() == Step(old(State()), MouseLeave(clientY, now))
    {
      if clientY < ExitEdge && "exitIntent" !in messageShown {
        ShowMessage("exitIntent", now);
      }
    }

    /** The welcome timer, 15 s after start. */
    method OnWelcomeTimer(now: int)
      modifies this
      ensures State() == Step(old(State()), WelcomeTimer(now))
    {
      if !dismissed && |sectionsViewed| <= 1 {
        ShowMessage("welcome", now);
      }
    }

    /** The inactivity check, every 10 s. */
    method OnInactivityTimer(now: int)
      modifies this
      ensures State() == Step(old(State()), InactivityTimer(now))
    {
      if now - lastActivity > InactivityLimit && "inactive" !in messageShown {
        ShowMessage("inactive", now);
      }
    }

    /** `showPdfDelivery`: the download message, shown outside the gate. */
    method ShowPdfDelivery(now: int)
      modifies this
      ensures State() == Step(old(State()), PdfReady(now))
    {
      displayed := Some("pdfDelivery");
      visible := true;
    }

    /** A section trigger that `detectSection` scheduled, firing 3 s later. */
    method OnSectionTimer(trigger: SectionTrigger, now: int)
      modifies this
      ensures State() == Step(old(State()), SectionTimer(trigger, now))
    {
      if currentSection == trigger.section && trigger.section in Messages && trigger.isNew {
        ShowMessage(trigger.section, now);
      }
    }
  }
}
