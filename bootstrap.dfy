/** Start-up and re-binding of the effects (interactions.js: the init
    functions, runInit and observeContentChanges). */
module Bootstrap {
  import opened Wrappers
  import opened Dom
  import opened Magnetic
  import opened Tilt
  import opened Cursor
  import TextReveal

  /** Tilt and magnetic pull are installed only without touch support. */
  predicate PointerEffectsEnabled(w: Window) {
    !w.hasTouch
  }

  /** The elements the given controllers are bound to, in order. */
  function MagnetTargets(ms: seq<MagneticButton>): (r: seq<Element>)
    ensures |r| == |ms| && forall k :: 0 <= k < |ms| ==> r[k] == ms[k].element
  {
    seq(|ms|, k requires 0 <= k < |ms| => ms[k].element)
  }

  /** `s` repeated `n` times. */
  function RepeatSeq<T>(s: seq<T>, n: nat): (r: seq<T>)
    ensures |r| == n * |s|
    decreases n
  {
    if n == 0 then [] else RepeatSeq(s, n - 1) + s
  }

  /** `initMagneticButtons()`: one controller per target, in order, none on a
      touch device. */
  method InitMagneticButtons(window: Window, targets: seq<Element>) returns (buttons: seq<MagneticButton>)
    ensures !PointerEffectsEnabled(window) ==> buttons == []
    ensures PointerEffectsEnabled(window) ==> MagnetTargets(buttons) == targets
    ensures forall k :: 0 <= k < |buttons| ==> fresh(buttons[k]) && buttons[k].boundingRect == None
  {
    buttons := [];
    var i := 0;
    while i < |targets|
      invariant 0 <= i <= |targets|
      invariant !PointerEffectsEnabled(window) ==> buttons == []
      invariant PointerEffectsEnabled(window) ==> MagnetTargets(buttons) == targets[..i]
      invariant forall k :: 0 <= k < |buttons| ==> fresh(buttons[k]) && buttons[k].boundingRect == None
    {
      if !window.hasTouch {
        var b := new MagneticButton(targets[i]);
        buttons := buttons + [b];
      }
      i := i + 1;
    }
  }

  /** What binding a tilt controller does to a card: one fresh glare layer
      appended, the card marked as a 3D surface. */
  ghost predicate TiltBound(t: TiltCard, card: Element, oldChildren: seq<Node>)
    reads t, card, t.glare
  {
    t.element == card && t.Valid() && t.boundingRect == None &&
    card.children == oldChildren + [Child(t.glare)] && card.preserve3d &&
    t.glare.classes == {GlareClass} && t.glare.opacity == 0.0 && !t.glare.pointerEvents
  }

  /** `initTiltCards()` as written: one controller per card, in order, none on
      a touch device. Every pass appends a further glare layer to each card,
      whether or not an earlier pass already bound it. */
  method InitTiltCards(window: Window, cards: seq<Element>) returns (tilts: seq<TiltCard>)
    requires Distinct(cards)
    modifies (set c | c in cards)`children, (set c | c in cards)`preserve3d
    ensures !PointerEffectsEnabled(window) ==>
      tilts == [] && forall c :: c in cards ==> c.children == old(c.children) && c.preserve3d == old(c.preserve3d)
    ensures PointerEffectsEnabled(window) ==>
      |tilts| == |cards| &&
      forall k :: 0 <= k < |cards| ==> (fresh(tilts[k]) && fresh(tilts[k].glare) &&
        TiltBound(tilts[k], cards[k], old(cards[k].children)))
  {
    tilts := [];
    if window.hasTouch {
      return;
    }
    var i := 0;
    while i < |cards|
      invariant 0 <= i <= |cards|
      invariant |tilts| == i
      invariant forall k :: 0 <= k < i ==> (fresh(tilts[k]) && fresh(tilts[k].glare) &&
        TiltBound(tilts[k], cards[k], old(cards[k].children)))
      invariant forall k :: i <= k < |cards| ==> cards[k].children == old(cards[k].children)
    {
      var t := new TiltCard(cards[i]);
      tilts := tilts + [t];
      i := i + 1;
    }
  }

  /** The marker the corrected tilt pass sets, like the text reveal's. */
  const TiltReadyClass: string := "tilt-processed"

  /** One step of the corrected pass: bind `card` unless it is marked. */
  method BindIfNew(card: Element) returns (t: TiltCard?)
    modifies card`classes, card`children, card`preserve3d
    ensures (t == null) == (TiltReadyClass in old(card.classes))
    ensures t == null ==>
      card.children == old(card.children) && card.classes == old(card.classes) && card.preserve3d == old(card.preserve3d)
    ensures t != null ==> fresh(t) && fresh(t.glare) && TiltBound(t, card, old(card.children))
    ensures card.classes == old(card.classes) + {TiltReadyClass}
  {
    t := null;
    if TiltReadyClass !in card.classes {
      card.classes := card.classes + {TiltReadyClass};
      t := new TiltCard(card);
    }
  }

  /** What the corrected pass did to one card, given the card's classes,
      children and 3D flag before the pass. */
  ghost predicate BindOutcome(t: TiltCard?, card: Element, classes: set<string>, children: seq<Node>, preserve3d: bool)
    reads card, t, if t == null then {} else {t.glare}
  {
    (t == null) == (TiltReadyClass in classes) &&
    card.classes == classes + {TiltReadyClass} &&
    (t == null ==> card.children == children && card.classes == classes && card.preserve3d == preserve3d) &&
    (t != null ==> TiltBound(t, card, children))
  }

  /** `initTiltCards()` corrected (see Findings in README): a card already
      marked is skipped, so a pass binds only cards it has not seen. The
      result is aligned with `cards`: null where a card was skipped. */
  method InitNewTiltCards(window: Window, cards: seq<Element>) returns (tilts: seq<TiltCard?>)
    requires Distinct(cards)
    modifies (set c | c in cards)`classes, (set c | c in cards)`children, (set c | c in cards)`preserve3d
    ensures !PointerEffectsEnabled(window) ==>
      tilts == [] && forall c :: c in cards ==>
        c.children == old(c.children) && c.classes == old(c.classes) && c.preserve3d == old(c.preserve3d)
    ensures PointerEffectsEnabled(window) ==> |tilts| == |cards|
    ensures forall k :: 0 <= k < |tilts| ==> (tilts[k] == null) == (TiltReadyClass in old(cards[k].classes))
    ensures forall k :: 0 <= k < |tilts| && tilts[k] == null ==>
      cards[k].children == old(cards[k].children) && cards[k].classes == old(cards[k].classes) &&
      cards[k].preserve3d == old(cards[k].preserve3d)
    ensures forall k :: 0 <= k < |tilts| && tilts[k] != null ==>
      fresh(tilts[k]) && fresh(tilts[k].glare) && TiltBound(tilts[k], cards[k], old(cards[k].children))
    ensures forall k :: 0 <= k < |tilts| ==> cards[k].classes == old(cards[k].classes) + {TiltReadyClass}
  {
    tilts := [];
    if window.hasTouch {
      return;
    }
    var i := 0;
    while i < |cards|
      invariant 0 <= i <= |cards| && |tilts| == i
      invariant forall k :: 0 <= k < i ==>
        BindOutcome(tilts[k], cards[k], old(cards[k].classes), old(cards[k].children), old(cards[k].preserve3d))
      invariant forall k :: 0 <= k < i && tilts[k] != null ==> fresh(tilts[k]) && fresh(tilts[k].glare)
      invariant forall k :: i <= k < |cards| ==>
        cards[k].children == old(cards[k].children) && cards[k].classes == old(cards[k].classes) &&
        cards[k].preserve3d == old(cards[k].preserve3d)
    {
      var t := BindIfNew(cards[i]);
      tilts := tilts + [t];
      i := i + 1;
    }
  }

  /** Number of mutation records that added at least one node. */
  function NonEmptyCount(addedCounts: seq<nat>): (n: nat)
    ensures n <= |addedCounts|
    ensures n == 0 <==> forall i :: 0 <= i < |addedCounts| ==> addedCounts[i] == 0
    decreases |addedCounts|
  {
    if |addedCounts| == 0 then 0
    else
      var init := addedCounts[..|addedCounts| - 1];
      assert forall i :: 0 <= i < |init| ==> init[i] == addedCounts[i];
      NonEmptyCount(init) + (if addedCounts[|addedCounts| - 1] > 0 then 1 else 0)
  }

  /** A batch of one record schedules a pass exactly when it added a node. */
  lemma NonEmptyCountSingle(added: nat)
    ensures NonEmptyCount([added]) == if added > 0 then 1 else 0
  {
    assert [added][..0] == [];
  }

  /** The cursor classes set by the enter listener that the watcher attaches:
      `hovering`, and `cursor-view` over a project card (never
      `cursor-pointer`). */
  function RebindEnterClasses(classes: set<string>, elementClasses: set<string>): (r: set<string>)
    ensures classes <= r && HoveringClass in r
    ensures r - classes <= {HoveringClass, ViewClass}
    ensures ViewClass in r <==> ViewClass in classes || "project-card" in elementClasses
  {
    classes + {HoveringClass} + (if "project-card" in elementClasses then {ViewClass} else {})
  }

  /** The watcher's leave listener removes `hovering` and `cursor-view` only;
      a `cursor-pointer` class survives it. */
  function RebindLeaveClasses(classes: set<string>): (r: set<string>)
    ensures HoveringClass !in r && ViewClass !in r
    ensures forall c :: c in classes && c != HoveringClass && c != ViewClass ==> c in r
    ensures r <= classes
  {
    classes - {HoveringClass, ViewClass}
  }

  /** The watcher's listeners act on the cursor element if there is one. */
  method RebindHoverEnter(cursor: Element?, element: Element)
    modifies (if cursor == null then {} else {cursor})`classes
    ensures cursor != null ==> cursor.classes == RebindEnterClasses(old(cursor.classes), old(element.classes))
  {
    if cursor != null {
      var isCard := "project-card" in element.classes;
      cursor.classes := cursor.classes + {HoveringClass};
      if isCard {
        cursor.classes := cursor.classes + {ViewClass};
      }
    }
  }

  method RebindHoverLeave(cursor: Element?)
    modifies (if cursor == null then {} else {cursor})`classes
    ensures cursor != null ==> cursor.classes == RebindLeaveClasses(old(cursor.classes))
  {
    if cursor != null {
      cursor.classes := cursor.classes - {HoveringClass, ViewClass};
    }
  }

  /** `observeContentChanges()`: the watcher on the `.projects` container. */
  class ContentWatcher {
    const container: Element

    constructor (container: Element)
      ensures this.container == container
    {
      this.container := container;
    }

    /** The observer callback for one batch of records, each given by its
        number of added nodes. Every record that added a node schedules one
        tilt pass (run after the settle delay) and binds a fresh magnetic
        controller to every release-notes link, except on touch devices.
        Records that added nothing are ignored. */
    method OnMutations(window: Window, addedCounts: seq<nat>, releaseLinks: seq<Element>)
      returns (tiltPasses: nat, magnets: seq<MagneticButton>)
      ensures tiltPasses == NonEmptyCount(addedCounts)
      ensures !PointerEffectsEnabled(window) ==> magnets == []
      ensures PointerEffectsEnabled(window) ==> MagnetTargets(magnets) == RepeatSeq(releaseLinks, tiltPasses)
      ensures forall k :: 0 <= k < |magnets| ==> fresh(magnets[k]) && magnets[k].boundingRect == None
    {
      tiltPasses := 0;
      magnets := [];
      var i := 0;
      while i < |addedCounts|
        invariant 0 <= i <= |addedCounts|
        invariant tiltPasses == NonEmptyCount(addedCounts[..i])
        invariant !PointerEffectsEnabled(window) ==> magnets == []
        invariant PointerEffectsEnabled(window) ==> MagnetTargets(magnets) == RepeatSeq(releaseLinks, tiltPasses)
        invariant forall k :: 0 <= k < |magnets| ==> fresh(magnets[k]) && magnets[k].boundingRect == None
      {
        assert addedCounts[..i + 1][..i] == addedCounts[..i];
        if addedCounts[i] > 0 {
          tiltPasses := tiltPasses + 1;
          ghost var base := magnets;
          var j := 0;
          while j < |releaseLinks|
            invariant 0 <= j <= |releaseLinks|
            invariant !PointerEffectsEnabled(window) ==> magnets == []
            invariant PointerEffectsEnabled(window) ==> MagnetTargets(magnets) == MagnetTargets(base) + releaseLinks[..j]
            invariant forall k :: 0 <= k < |magnets| ==> fresh(magnets[k]) && magnets[k].boundingRect == None
          {
            if !window.hasTouch {
              var b := new MagneticButton(releaseLinks[j]);
              magnets := magnets + [b];
            }
            j := j + 1;
          }
          assert releaseLinks[..|releaseLinks|] == releaseLinks;
        }
        i := i + 1;
      }
      assert addedCounts[..|addedCounts|] == addedCounts;
    }
  }

  /** Without the `.projects` container no watcher is installed. */
  method ObserveContentChanges(container: Element?) returns (watcher: ContentWatcher?)
    ensures (watcher == null) == (container == null)
    ensures watcher != null ==> fresh(watcher) && watcher.container == container
  {
    if container == null {
      return null;
    }
    watcher := new ContentWatcher(container);
  }

  /** The options of the footer heading's reveal. */
  const FooterRevealOptions: TextReveal.Options :=
    TextReveal.Options(Some("words"), Some(60.0), Some(600.0))

  function StateOf(e: Element): TextReveal.RevealState
    reads e
  {
    TextReveal.RevealState(e.classes, e.children)
  }

  /** The footer heading's visibility trigger: the heading is revealed the
      first time an entry reports it intersecting, and observation stops. */
  class FooterRevealTrigger {
    const heading: Element
    var observing: bool

    constructor (heading: Element)
      ensures this.heading == heading && observing
    {
      this.heading := heading;
      observing := true;
    }

    /** One observer callback. All entries of the batch are still walked
        after the disconnect; a second intersecting entry constructs another
        reveal, which the processed marker turns into a no-op. */
    method OnIntersection(entries: seq<bool>)
      requires observing
      modifies this`observing, heading`classes, heading`children
      ensures observing == (forall i :: 0 <= i < |entries| ==> !entries[i])
      ensures StateOf(heading) == if observing then old(StateOf(heading))
                                  else TextReveal.Reveal(old(StateOf(heading)), FooterRevealOptions)
    {
      ghost var before := StateOf(heading);
      var i := 0;
      while i < |entries|
        invariant 0 <= i <= |entries|
        invariant observing == (forall k :: 0 <= k < i ==> !entries[k])
        invariant StateOf(heading) == if observing then before else TextReveal.Reveal(before, FooterRevealOptions)
      {
        if entries[i] {
          TextReveal.RevealIdempotent(before, FooterRevealOptions, FooterRevealOptions);
          var controller := new TextReveal.TextReveal(heading, FooterRevealOptions);
          observing := false;
        }
        i := i + 1;
      }
    }
  }

  /** `runInit()` without the text reveals: the cursor, the magnetic
      buttons, the watcher and then the tilt pass, which the source defers
      until after the watcher is installed. On a touch device nothing but the
      watcher is created, and the watcher then creates no controller. */
  method RunInit(window: Window, body: Element, magneticTargets: seq<Element>,
                 cards: seq<Element>, projects: Element?)
    returns (cursor: CustomCursor, buttons: seq<MagneticButton>, watcher: ContentWatcher?, tilts: seq<TiltCard>)
    requires Distinct(cards) && body !in cards
    modifies body`children, body`classes, (set c | c in cards)`children, (set c | c in cards)`preserve3d
    ensures (cursor.cursor == null) == !CursorEnabled(window)
    ensures window.hasTouch ==> cursor.cursor == null && buttons == [] && tilts == []
    ensures !window.hasTouch ==> MagnetTargets(buttons) == magneticTargets && |tilts| == |cards|
    ensures !CursorEnabled(window) ==> body.children == old(body.children) && body.classes == old(body.classes)
    ensures CursorEnabled(window) ==>
      cursor.cursor != null && body.children == old(body.children) + [Child(cursor.cursor)] &&
      body.classes == old(body.classes) + {"custom-cursor-active"}
    ensures window.hasTouch ==>
      forall c :: c in cards ==> c.children == old(c.children) && c.preserve3d == old(c.preserve3d)
    ensures forall k :: 0 <= k < |buttons| ==> fresh(buttons[k]) && buttons[k].boundingRect == None
    ensures forall k :: 0 <= k < |tilts| ==>
      fresh(tilts[k]) && fresh(tilts[k].glare) && TiltBound(tilts[k], cards[k], old(cards[k].children))
    ensures (watcher == null) == (projects == null)
  {
    cursor := new CustomCursor(window, body);
    buttons := InitMagneticButtons(window, magneticTargets);
    watcher := ObserveContentChanges(projects);
    tilts := InitTiltCards(window, cards);
  }

  /** `runInit()` with the corrected tilt pass (see Findings in README):
      the same start-up, except that a card already marked is not bound
      again. */
  method RunInitCorrected(window: Window, body: Element, magneticTargets: seq<Element>,
                          cards: seq<Element>, projects: Element?)
    returns (cursor: CustomCursor, buttons: seq<MagneticButton>, watcher: ContentWatcher?, tilts: seq<TiltCard?>)
    requires Distinct(cards) && body !in cards
    modifies body`children, body`classes,
      (set c | c in cards)`classes, (set c | c in cards)`children, (set c | c in cards)`preserve3d
    ensures (cursor.cursor == null) == !CursorEnabled(window)
    ensures window.hasTouch ==> cursor.cursor == null && buttons == [] && tilts == []
    ensures !window.hasTouch ==> MagnetTargets(buttons) == magneticTargets && |tilts| == |cards|
    ensures !CursorEnabled(window) ==> body.children == old(body.children) && body.classes == old(body.classes)
    ensures CursorEnabled(window) ==>
      cursor.cursor != null && body.children == old(body.children) + [Child(cursor.cursor)] &&
      body.classes == old(body.classes) + {"custom-cursor-active"}
    ensures window.hasTouch ==> forall c :: c in cards ==>
      c.children == old(c.children) && c.classes == old(c.classes) && c.preserve3d == old(c.preserve3d)
    ensures forall k :: 0 <= k < |tilts| ==> cards[k].classes == old(cards[k].classes) + {TiltReadyClass}
    ensures forall k :: 0 <= k < |tilts| && tilts[k] == null ==>
      cards[k].children == old(cards[k].children) && cards[k].classes == old(cards[k].classes) &&
      cards[k].preserve3d == old(cards[k].preserve3d)
    ensures forall k :: 0 <= k < |buttons| ==> fresh(buttons[k]) && buttons[k].boundingRect == None
    ensures forall k :: 0 <= k < |tilts| ==> (tilts[k] == null) == (TiltReadyClass in old(cards[k].classes))
    ensures forall k :: 0 <= k < |tilts| && tilts[k] != null ==>
      fresh(tilts[k]) && fresh(tilts[k].glare) && TiltBound(tilts[k], cards[k], old(cards[k].children))
    ensures (watcher == null) == (projects == null)
  {
    cursor := new CustomCursor(window, body);
    buttons := InitMagneticButtons(window, magneticTargets);
    watcher := ObserveContentChanges(projects);
    tilts := InitNewTiltCards(window, cards);
  }

  // ----- the tilt pass feeding the watcher (README, Findings) -----

  /** As written: the glare layer a tilt pass appends lands inside the
      watched container, the record it produces schedules another pass, and
      that pass appends a second layer and schedules yet another. */
  method TiltPassRetriggersAsWritten() returns (firstPasses: nat, secondPasses: nat, layers: nat)
    ensures firstPasses == 1 && secondPasses == 1 && layers == 2
  {
    var w := Window(false, 1280);
    var box := Rect(0.0, 0.0, 300.0, 200.0);
    var card := new Element("ARTICLE", {"project-card"}, [], box);
    var container := new Element("SECTION", {"projects"}, [Child(card)], box);
    var watcher := new ContentWatcher(container);
    // the start-up pass, run after the watcher is installed
    var first := InitTiltCards(w, [card]);
    assert [card][0] == card;
    assert TiltBound(first[0], card, []);
    assert |card.children| == 1;
    // one record, adding the one glare layer
    var records := [|card.children|];
    var magnets;
    firstPasses, magnets := watcher.OnMutations(w, records, []);
    NonEmptyCountSingle(1);
    // the pass that record scheduled
    var before := |card.children|;
    ghost var children := card.children;
    var second := InitTiltCards(w, [card]);
    assert TiltBound(second[0], card, children);
    layers := |card.children|;
    assert layers == 2;
    records := [layers - before];
    secondPasses, magnets := watcher.OnMutations(w, records, []);
    NonEmptyCountSingle(1);
  }

  /** Corrected: the second pass skips the marked card, adds nothing, and
      the record it produces schedules no further pass. */
  method TiltPassSettlesCorrected() returns (firstPasses: nat, secondPasses: nat, layers: nat)
    ensures firstPasses == 1 && secondPasses == 0 && layers == 1
  {
    var w := Window(false, 1280);
    var box := Rect(0.0, 0.0, 300.0, 200.0);
    var card := new Element("ARTICLE", {"project-card"}, [], box);
    var container := new Element("SECTION", {"projects"}, [Child(card)], box);
    var watcher := new ContentWatcher(container);
    var first := InitNewTiltCards(w, [card]);
    assert [card][0] == card;
    assert first[0] != null && TiltBound(first[0], card, []);
    assert |card.children| == 1 && TiltReadyClass in card.classes;
    var records := [|card.children|];
    var magnets;
    firstPasses, magnets := watcher.OnMutations(w, records, []);
    NonEmptyCountSingle(1);
    var before := |card.children|;
    var second := InitNewTiltCards(w, [card]);
    assert second[0] == null;
    layers := |card.children|;
    assert layers == 1;
    records := [layers - before];
    secondPasses, magnets := watcher.OnMutations(w, records, []);
    NonEmptyCountSingle(0);
  }
}
