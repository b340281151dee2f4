/** What holds of the Klausy bubble over whole sessions: any sequence of browser events
    and timer callbacks, in any order and at any times. Real timers fire at fixed
    delays; a trace here may deliver them at any time, so these results cover every
    schedule the browser can produce. */
module BubbleTraces {
  import opened Wrappers
  import opened BubbleSpec
  import opened Text

  /** One event: a proactive display happens only through the gate, and nothing else
      touches the shown keys, the counter or the `dismissed` flag. */
  lemma StepGate(s: Session, e: Event)
    ensures Displays(s, e) ==>
      var k := Request(s, e).value.key;
      && k !in s.messageShown && !s.visible && !s.dismissed
      && e.now >= s.cooldownUntil && s.totalShown < MaxMessages
      && Step(s, e).messageShown == s.messageShown + {k}
      && Step(s, e).totalShown == s.totalShown + 1
      && Step(s, e).visible
    ensures !Displays(s, e) ==>
      Step(s, e).messageShown == s.messageShown && Step(s, e).totalShown == s.totalShown
    ensures Step(s, e).dismissed == s.dismissed
    ensures Step(s, e).sectionsViewed >= s.sectionsViewed
    ensures !e.CloseClick? && !(e.ButtonClick? && e.action == "dismiss") ==>
      Step(s, e).cooldownUntil == s.cooldownUntil
  {
    match e
    case Scroll(layout, scrollY, innerHeight, now) =>
    case Pointer(now) =>
    case HelpRequest(now) =>
    case ButtonClick(action, _, now) =>
    case CloseClick(now) =>
    case PdfReady(now) =>
    case _ =>
      match Request(s, e)
      case Some(q) =>
      case None =>
  }

  /** While the download message is on screen, no proactive message can appear, and the
      next help request hides the bubble instead of showing help. */
  lemma PdfDeliveryBlocks(s: Session, e: Event, now: int)
    ensures !Displays(Step(s, PdfReady(now)), e)
    ensures !Step(Step(s, PdfReady(now)), HelpRequest(now)).visible
  {
  }

  /** Every download button of the catalogue targets the placeholder, so a click on it
      shows the delivery notice instead of opening a file. */
  lemma CatalogueDownloadsAreNotices(key: string, i: int)
    requires key in Messages && 0 <= i < |Messages[key]| && Messages[key][i].action == "download"
    ensures ClickEffect("download", RenderedTarget(Messages[key][i])) == DeliveryNotice
  {
    assert key == "pdfDelivery" && i == 0;
    assert OccursAt("#PDF_PLACEHOLDER_EN", PdfPlaceholder, 0);
  }

  /** Event `e` displays the message `key`. */
  predicate DisplaysKey(s: Session, e: Event, key: string) {
    Displays(s, e) && Request(s, e).value.key == key
  }

  /** How many times the events `es`, run from `s`, display `key`. */
  function DisplayCount(s: Session, es: seq<Event>, key: string): nat
    decreases |es|
  {
    if es == [] then 0
    else (if DisplaysKey(s, es[0], key) then 1 else 0) + DisplayCount(Step(s, es[0]), es[1..], key)
  }

  /** How many proactive displays the events `es`, run from `s`, make. */
  function TotalDisplays(s: Session, es: seq<Event>): nat
    decreases |es|
  {
    if es == [] then 0
    else (if Displays(s, es[0]) then 1 else 0) + TotalDisplays(Step(s, es[0]), es[1..])
  }

  /** How many proactive displays the events `es` make at a time before `t`. */
  function DisplaysBefore(s: Session, es: seq<Event>, t: int): nat
    decreases |es|
  {
    if es == [] then 0
    else (if Displays(s, es[0]) && es[0].now < t then 1 else 0) + DisplaysBefore(Step(s, es[0]), es[1..], t)
  }

  /** No event of `es` hides the bubble with a cooldown. */
  predicate NoTimedHide(es: seq<Event>) {
    forall i :: 0 <= i < |es| ==> !es[i].CloseClick? && !(es[i].ButtonClick? && es[i].action == "dismiss")
  }

  /** Shown keys and viewed sections only grow, and `dismissed` never changes. */
  lemma {:induction false} SessionSetsGrow(s: Session, es: seq<Event>)
    ensures s.messageShown <= Run(s, es).messageShown
    ensures s.sectionsViewed <= Run(s, es).sectionsViewed
    ensures Run(s, es).dismissed == s.dismissed
    decreases |es|
  {
    if es != [] {
      StepGate(s, es[0]);
      SessionSetsGrow(Step(s, es[0]), es[1..]);
    }
  }

  /** Each message key is displayed at most once per session, and never again once shown. */
  lemma {:induction false} OneShotPerKey(s: Session, es: seq<Event>, key: string)
    ensures DisplayCount(s, es, key) <= if key in s.messageShown then 0 else 1
    decreases |es|
  {
    if es != [] {
      var next := Step(s, es[0]);
      StepGate(s, es[0]);
      OneShotPerKey(next, es[1..], key);
    }
  }

  /** The session counter grows by exactly the number of proactive displays. */
  lemma {:induction false} CounterCountsDisplays(s: Session, es: seq<Event>)
    ensures Run(s, es).totalShown == s.totalShown + TotalDisplays(s, es)
    decreases |es|
  {
    if es != [] {
      StepGate(s, es[0]);
      CounterCountsDisplays(Step(s, es[0]), es[1..]);
    }
  }

  /** The global cap: a session displays at most `MaxMessages - totalShown` proactive
      messages, so a counter that starts within the cap stays within it. */
  lemma {:induction false} CapHolds(s: Session, es: seq<Event>)
    ensures TotalDisplays(s, es) <= if s.totalShown >= MaxMessages then 0 else MaxMessages - s.totalShown
    ensures s.totalShown <= MaxMessages ==> Run(s, es).totalShown <= MaxMessages
    decreases |es|
  {
    CounterCountsDisplays(s, es);
    if es != [] {
      StepGate(s, es[0]);
      CapHolds(Step(s, es[0]), es[1..]);
    }
  }

  /** Once `dismissed` is set, no proactive message is ever displayed. */
  lemma {:induction false} DismissedSilencesAll(s: Session, es: seq<Event>)
    requires s.dismissed
    ensures TotalDisplays(s, es) == 0
    decreases |es|
  {
    if es != [] {
      StepGate(s, es[0]);
      DismissedSilencesAll(Step(s, es[0]), es[1..]);
    }
  }

  /** While no event applies a new cooldown, nothing is displayed before the current one ends. */
  lemma {:induction false} CooldownHolds(s: Session, es: seq<Event>)
    requires NoTimedHide(es)
    ensures DisplaysBefore(s, es, s.cooldownUntil) == 0
    decreases |es|
  {
    if es != [] {
      StepGate(s, es[0]);
      assert NoTimedHide(es[1..]) by {
        forall i | 0 <= i < |es[1..]| ensures !es[1..][i].CloseClick? {
          assert es[1..][i] == es[i + 1];
        }
      }
      CooldownHolds(Step(s, es[0]), es[1..]);
    }
  }

  /** After a "dismiss" click at time `now`, no proactive message appears within the next
      180 seconds, however many triggers fire, unless a later click sets a new cooldown. */
  lemma DismissSilencesThreeMinutes(s: Session, now: int, es: seq<Event>)
    requires NoTimedHide(es)
    ensures DisplaysBefore(Step(s, ButtonClick("dismiss", "", now)), es, now + 180000) == 0
  {
    CooldownHolds(Step(s, ButtonClick("dismiss", "", now)), es);
  }

  /** The cooldown is not monotone: after a 180 s dismissal, opening the help bubble and
      closing it (90 s) lets the inactivity message appear before the 180 s are over. */
  lemma CooldownCanShrink()
    ensures
      var s := Run(Initial(0, 0), [WelcomeTimer(15000), ButtonClick("dismiss", "", 20000), Pointer(20000),
                                   HelpRequest(30000), Pointer(30000), CloseClick(40000), Pointer(40000)]);
      Displays(s, InactivityTimer(130000)) && 130000 < 20000 + 180000
  {
  }

  /** Scenario: in a fresh session where only the landing section was seen, the welcome
      timer displays "welcome" and the counter becomes 1. */
  lemma WelcomeScenario()
    ensures
      var s := Run(Initial(0, 0), [WelcomeTimer(15000)]);
      s.messageShown == {"welcome"} && s.totalShown == 1 && s.visible && s.displayed == Some("welcome")
  {
  }

  /** A page whose fleet section spans [1000, 2000) and routes section [2000, 3000). */
  const DemoLayout: map<string, Box> := map["fleet" := Box(1000.0, 1000.0), "routes" := Box(2000.0, 1000.0)]

  /** The states of the cooldown scenario: welcome shown at 15 s and dismissed at once,
      then the fleet section reached at 20 s, routes at 100 s and fleet again at 193 s. */
  const Dismissed15: Session := Session(0, 0, {}, {}, "home", {"welcome"}, false, 195000, 1, 0.0, false, Some("welcome"))
  const Fleet20: Session := Session(0, 20000, {"fleet"}, {}, "fleet", {"welcome"}, false, 195000, 1, 1000.0, false, Some("welcome"))
  const Routes100: Session := Session(0, 100000, {"fleet", "routes"}, {}, "routes", {"welcome"}, false, 195000, 1, 2000.0, false, Some("welcome"))
  const Fleet193: Session := Session(0, 193000, {"fleet", "routes"}, {}, "fleet", {"welcome"}, false, 195000, 1, 2000.0, false, Some("welcome"))

  lemma ScenarioDismiss()
    ensures Run(Initial(0, 0), [WelcomeTimer(15000), ButtonClick("dismiss", "", 15000)]) == Dismissed15
  {
    var w := Step(Initial(0, 0), WelcomeTimer(15000));
    assert w == Dismissed15.(cooldownUntil := 0, visible := true);
    assert [WelcomeTimer(15000), ButtonClick("dismiss", "", 15000)][1..] == [ButtonClick("dismiss", "", 15000)];
  }

  lemma ScenarioReachFleet()
    ensures Scheduled(Dismissed15, DemoLayout, 1400.0) == Some(SectionTrigger("fleet", true))
    ensures Step(Dismissed15, Scroll(DemoLayout, 1000.0, 800.0, 20000)) == Fleet20
  {
    FirstHitUnique(Sections, DemoLayout, 1400.0, 1);
  }

  lemma ScenarioLeaveAndReturn()
    ensures Step(Fleet20, Scroll(DemoLayout, 2000.0, 800.0, 100000)) == Routes100
    ensures Scheduled(Routes100, DemoLayout, 1400.0) == Some(SectionTrigger("fleet", true))
    ensures Step(Routes100, Scroll(DemoLayout, 1000.0, 800.0, 193000)) == Fleet193
  {
    FirstHitUnique(Sections, DemoLayout, 2400.0, 2);
    FirstHitUnique(Sections, DemoLayout, 1400.0, 1);
  }

  /** Scenario: "welcome" is dismissed at 15 s with the 180 s cooldown; the visitor
      reaches the fleet section at 20 s, and its trigger at 23 s is suppressed because
      23 s < 195 s. After moving to routes and back, the fleet trigger at 196 s, past the
      cooldown, displays "fleet". */
  lemma CooldownScenario()
    ensures Run(Initial(0, 0), [WelcomeTimer(15000), ButtonClick("dismiss", "", 15000)]).cooldownUntil == 195000
    ensures !Displays(Fleet20, SectionTimer(SectionTrigger("fleet", true), 23000))
    ensures Displays(Fleet193, SectionTimer(SectionTrigger("fleet", true), 196000))
    ensures Step(Fleet193, SectionTimer(SectionTrigger("fleet", true), 196000)).displayed == Some("fleet")
  {
    ScenarioDismiss();
  }
}
