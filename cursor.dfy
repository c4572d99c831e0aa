/** The custom cursor (interactions.js, class CustomCursor): a page-wide
    marker that eases toward the pointer once per frame and carries flag
    classes for pressing and hovering. */
module Cursor {
  import opened Dom

  /** Fraction of the remaining distance covered per frame. */
  const Ease: real := 0.15
  /** Narrower viewports get no custom cursor. */
  const MinViewportWidth: int := 768

  const ClickingClass: string := "clicking"
  const HoveringClass: string := "hovering"
  const ViewClass: string := "cursor-view"
  const PointerClass: string := "cursor-pointer"

  /** The gate in `init()`: no cursor on touch devices or narrow viewports. */
  predicate CursorEnabled(w: Window) {
    !w.hasTouch && w.innerWidth >= MinViewportWidth
  }

  /** One frame of easing: `current += (target − current) × ease`. The
      remaining error shrinks by exactly the factor 1 − ease. */
  function EaseStep(current: real, target: real): (r: real)
    ensures target - r == (1.0 - Ease) * (target - current)
  {
    current + (target - current) * Ease
  }

  /** The position after `n` frames with a fixed target. */
  function EaseSteps(current: real, target: real, n: nat): real
    decreases n
  {
    if n == 0 then current else EaseSteps(EaseStep(current, target), target, n - 1)
  }

  function Pow(b: real, n: nat): real
    decreases n
  {
    if n == 0 then 1.0 else b * Pow(b, n - 1)
  }

  /** After n frames the error is (1 − ease)^n times the initial error. */
  lemma {:induction false} EaseStepsError(current: real, target: real, n: nat)
    ensures target - EaseSteps(current, target, n) == Pow(1.0 - Ease, n) * (target - current)
    decreases n
  {
    if n > 0 {
      var next := EaseStep(current, target);
      EaseStepsError(next, target, n - 1);
      assert EaseSteps(current, target, n) == EaseSteps(next, target, n - 1);
      assert target - EaseSteps(current, target, n) == Pow(1.0 - Ease, n - 1) * (target - next);
      assert target - next == (1.0 - Ease) * (target - current);
      assert Pow(1.0 - Ease, n - 1) * ((1.0 - Ease) * (target - current))
          == ((1.0 - Ease) * Pow(1.0 - Ease, n - 1)) * (target - current);
    }
  }

  lemma {:induction false} PowAdd(b: real, m: nat, n: nat)
    ensures Pow(b, m + n) == Pow(b, m) * Pow(b, n)
    decreases m
  {
    if m > 0 {
      PowAdd(b, m - 1, n);
      assert Pow(b, m + n) == b * Pow(b, m - 1 + n);
    }
  }

  lemma PowPositive(b: real, n: nat)
    requires b > 0.0
    ensures Pow(b, n) > 0.0
  {
  }

  /** (0.85)^40 is below 1/500. */
  lemma Pow40Small()
    ensures Pow(1.0 - Ease, 40) < 0.002
  {
    var b := 1.0 - Ease;
    assert Pow(b, 1) == 0.85;
    assert Pow(b, 2) == 0.7225;
    assert Pow(b, 3) == 0.614125;
    assert Pow(b, 4) == 0.52200625;
    assert Pow(b, 5) == 0.4437053125;
    PowAdd(b, 5, 5);
    var p10 := Pow(b, 10);
    assert p10 < 0.19688;
    PowAdd(b, 10, 10);
    var p20 := Pow(b, 20);
    PowPositive(b, 10);
    assert p20 == p10 * p10;
    assert p20 < 0.19688 * 0.19688 by {
      assert p10 * p10 < 0.19688 * p10;
    }
    PowAdd(b, 20, 20);
    PowPositive(b, 20);
    assert Pow(b, 40) == p20 * p20;
    assert p20 * p20 < 0.0388 * p20;
  }

  /** A 500-pixel gap closes to within one pixel in 40 frames. */
  lemma ConvergesIn40Frames(current: real, target: real)
    requires -500.0 <= target - current <= 500.0
    ensures -1.0 < target - EaseSteps(current, target, 40) < 1.0
  {
    Pow40Small();
    ErrorBelowOne(current, target, 40);
  }

  lemma ErrorBelowOne(current: real, target: real, n: nat)
    requires -500.0 <= target - current <= 500.0
    requires Pow(1.0 - Ease, n) < 0.002
    ensures -1.0 < target - EaseSteps(current, target, n) < 1.0
  {
    EaseStepsError(current, target, n);
    PowPositive(1.0 - Ease, n);
    var p := Pow(1.0 - Ease, n);
    var e := target - current;
    assert p * 500.0 < 1.0;
    if e >= 0.0 {
      assert 0.0 <= p * e <= p * 500.0;
    } else {
      assert 0.0 > p * e >= p * -500.0;
    }
  }

  /** Classes added when the pointer enters an interactive element: always
      `hovering`, plus `cursor-view` over a project card, or else
      `cursor-pointer` over a link or button. */
  function HoverOnClasses(classes: set<string>, elementClasses: set<string>, tagName: string): (r: set<string>)
    ensures HoveringClass in r && classes <= r
    ensures ViewClass in r - classes <==> "project-card" in elementClasses && ViewClass !in classes
    ensures PointerClass in r - classes <==>
      "project-card" !in elementClasses && tagName in {"A", "BUTTON"} && PointerClass !in classes
    ensures r - classes <= {HoveringClass, ViewClass, PointerClass}
  {
    classes + {HoveringClass}
      + (if "project-card" in elementClasses then {ViewClass}
         else if tagName == "A" || tagName == "BUTTON" then {PointerClass}
         else {})
  }

  /** Leaving removes all three hover classes. */
  function HoverOffClasses(classes: set<string>): (r: set<string>)
    ensures r <= classes && r !! {HoveringClass, ViewClass, PointerClass}
    ensures forall c :: c in classes && c !in {HoveringClass, ViewClass, PointerClass} ==> c in r
  {
    classes - {HoveringClass, ViewClass, PointerClass}
  }

  /** From a cursor with no hover class, entering adds at most one of the
      two affordances, never both; leaving again restores the classes. */
  lemma HoverRoundTrip(classes: set<string>, elementClasses: set<string>, tagName: string)
    requires classes !! {HoveringClass, ViewClass, PointerClass}
    ensures var on := HoverOnClasses(classes, elementClasses, tagName);
      !(ViewClass in on && PointerClass in on) && HoverOffClasses(on) == classes
  {
  }

  class CustomCursor {
    /** The marker element and its two parts; null when the gate refused. */
    var cursor: Element?
    var cursorDot: Element?
    var cursorRing: Element?
    var isHovering: bool
    var isClicking: bool
    var currentX: real
    var currentY: real
    var targetX: real
    var targetY: real

    /** Gated construction: on a pointer device with a wide viewport the
        marker (a dot and a ring) is appended to the body, the body is
        marked, and the first frame is drawn. */
    constructor (window: Window, body: Element)
      modifies body`children, body`classes
      ensures (cursor != null) == CursorEnabled(window)
      ensures !isHovering && !isClicking
      ensures currentX == 0.0 && currentY == 0.0 && targetX == 0.0 && targetY == 0.0
      ensures !CursorEnabled(window) ==>
        cursorDot == null && cursorRing == null &&
        body.children == old(body.children) && body.classes == old(body.classes)
      ensures CursorEnabled(window) ==>
        cursor != null && cursorDot != null && cursorRing != null &&
        fresh(cursor) && fresh(cursorDot) && fresh(cursorRing) &&
        cursor.classes == {"custom-cursor"} &&
        cursorDot.classes == {"cursor-dot"} && cursorRing.classes == {"cursor-ring"} &&
        cursor.children == [Child(cursorDot), Child(cursorRing)] &&
        cursor.transform == Translate(0.0, 0.0) &&
        body.children == old(body.children) + [Child(cursor)] &&
        body.classes == old(body.classes) + {"custom-cursor-active"}
    {
      cursor := null;
      cursorDot := null;
      cursorRing := null;
      isHovering := false;
      isClicking := false;
      currentX, currentY := 0.0, 0.0;
      targetX, targetY := 0.0, 0.0;
      new;
      if window.hasTouch || window.innerWidth < MinViewportWidth {
        return;
      }
      // createCursor()
      var nowhere := Rect(0.0, 0.0, 0.0, 0.0);
      var dot := new Element("DIV", {"cursor-dot"}, [], nowhere);
      var ring := new Element("DIV", {"cursor-ring"}, [], nowhere);
      var marker := new Element("DIV", {"custom-cursor"}, [Child(dot), Child(ring)], nowhere);
      cursor, cursorDot, cursorRing := marker, dot, ring;
      body.children := body.children + [Child(marker)];
      // first frame of animate()
      Animate();
      body.classes := body.classes + {"custom-cursor-active"};
    }

    /** Only the target moves; the marker catches up frame by frame. */
    method OnMouseMove(clientX: real, clientY: real)
      modifies this`targetX, this`targetY
      ensures targetX == clientX && targetY == clientY
    {
      targetX := clientX;
      targetY := clientY;
    }

    method OnMouseDown()
      requires cursor != null
      modifies this`isClicking, cursor`classes
      ensures isClicking && cursor.classes == old(cursor.classes) + {ClickingClass}
    {
      isClicking := true;
      cursor.classes := cursor.classes + {ClickingClass};
    }

    method OnMouseUp()
      requires cursor != null
      modifies this`isClicking, cursor`classes
      ensures !isClicking && cursor.classes == old(cursor.classes) - {ClickingClass}
    {
      isClicking := false;
      cursor.classes := cursor.classes - {ClickingClass};
    }

    /** The enter and leave listeners of the interactive elements. */
    method SetHoverState(hovering: bool, element: Element)
      requires cursor != null
      modifies this`isHovering, cursor`classes
      ensures isHovering == hovering
      ensures hovering ==>
        cursor.classes == HoverOnClasses(old(cursor.classes), old(element.classes), element.tagName)
      ensures !hovering ==> cursor.classes == HoverOffClasses(old(cursor.classes))
    {
      isHovering := hovering;
      if hovering {
        var isCard := "project-card" in element.classes;
        cursor.classes := cursor.classes + {HoveringClass};
        if isCard {
          cursor.classes := cursor.classes + {ViewClass};
        } else if element.tagName == "A" || element.tagName == "BUTTON" {
          cursor.classes := cursor.classes + {PointerClass};
        }
      } else {
        cursor.classes := cursor.classes - {HoveringClass, ViewClass, PointerClass};
      }
    }

    /** The document's leave and enter listeners hide and show the marker. */
    method OnDocumentLeave()
      requires cursor != null
      modifies cursor`opacity
      ensures cursor.opacity == 0.0
    {
      cursor.opacity := 0.0;
    }

    method OnDocumentEnter()
      requires cursor != null
      modifies cursor`opacity
      ensures cursor.opacity == 1.0
    {
      cursor.opacity := 1.0;
    }

    /** One frame: both coordinates ease toward the target and the marker
        is drawn at the new position. */
    method Animate()
      requires cursor != null
      modifies this`currentX, this`currentY, cursor`transform
      ensures currentX == EaseStep(old(currentX), targetX)
      ensures currentY == EaseStep(old(currentY), targetY)
      ensures cursor.transform == Translate(currentX, currentY)
    {
      var ease := Ease;
      currentX := currentX + (targetX - currentX) * ease;
      currentY := currentY + (targetY - currentY) * ease;
      cursor.transform := Translate(currentX, currentY);
    }
  }
}
