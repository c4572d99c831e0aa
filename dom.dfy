/** An abstract page element: only the presentation state the effects and
    the renderers read or write. Selector matching, event listeners and CSS
    text are not part of it. */
module Dom {

  /** What `getBoundingClientRect()` reports: screen position and size. */
  datatype Rect = Rect(left: real, top: real, width: real, height: real)
  {
    predicate HasArea() { width > 0.0 && height > 0.0 }
  }

  /** What the effects read from `window`: whether `ontouchstart` exists,
      and `innerWidth` in pixels. */
  datatype Window = Window(hasTouch: bool, innerWidth: int)

  /** The numeric content of `style.transform`. */
  datatype Transform =
    | Untransformed
    | Translate(dx: real, dy: real)
    | Tilt(rotateX: real, rotateY: real, scale: real)

  /** The glare layer's `style.background`: the initial diagonal gradient,
      or a radial highlight centred at a point given in percent. */
  datatype Background = Unstyled | LinearGlare | RadialGlare(xPercent: real, yPercent: real)

  /** A child of an element: a bare text node, a text-reveal span (text,
      animation delay and duration in milliseconds), or an element. */
  datatype Node =
    | Text(text: string)
    | Span(text: string, delay: real, duration: real)
    | Child(element: Element)

  function NodeText(n: Node): string {
    match n
    case Text(t) => t
    case Span(t, _, _) => t
    case Child(_) => ""
  }

  /** `textContent` of a child list: the texts of its text nodes and spans in
      order. Element children contribute nothing here (see README). */
  function TextContent(ns: seq<Node>): string
    decreases |ns|
  {
    if |ns| == 0 then "" else TextContent(ns[..|ns| - 1]) + NodeText(ns[|ns| - 1])
  }

  lemma TextContentSnoc(ns: seq<Node>, n: Node)
    ensures TextContent(ns + [n]) == TextContent(ns) + NodeText(n)
  {
    assert (ns + [n])[..|ns|] == ns;
  }

  /** The delay of the `index`-th item of a staggered animation. */
  function Stagger(index: nat, interval: real): real {
    index as real * interval
  }

  /** With a positive interval, later items start strictly later. */
  lemma StaggerIncreasing(i: nat, j: nat, interval: real)
    requires interval > 0.0 && i < j
    ensures Stagger(i, interval) < Stagger(j, interval)
  {
    assert Stagger(j, interval) - Stagger(i, interval) == (j - i) as real * interval;
  }

  /** No element occurs twice, as in the list `querySelectorAll` returns. */
  predicate Distinct(es: seq<Element>) {
    forall i, j :: 0 <= i < j < |es| ==> es[i] != es[j]
  }

  class Element {
    /** `tagName`, upper case as the browser reports it. */
    const tagName: string
    var classes: set<string>
    var children: seq<Node>
    var transform: Transform
    /** `style.opacity`; an unset opacity renders as 1. */
    var opacity: real
    /** false once `pointer-events: none` is set. */
    var pointerEvents: bool
    var background: Background
    /** `style.transformStyle == 'preserve-3d'`. */
    var preserve3d: bool
    /** `style.transitionDelay`, in seconds. */
    var transitionDelay: real
    /** The layout box the browser would report; layout itself is outside the model. */
    var rect: Rect
    /** `dataset`: the `data-*` attributes. */
    var dataset: map<string, string>

    constructor (tagName: string, classes: set<string>, children: seq<Node>, rect: Rect)
      ensures this.tagName == tagName && this.classes == classes
      ensures this.children == children && this.rect == rect
      ensures transform == Untransformed && opacity == 1.0 && pointerEvents
      ensures background == Unstyled && !preserve3d && transitionDelay == 0.0
      ensures dataset == map[]
    {
      this.tagName := tagName;
      this.classes := classes;
      this.children := children;
      this.rect := rect;
      transform := Untransformed;
      opacity := 1.0;
      pointerEvents := true;
      background := Unstyled;
      preserve3d := false;
      transitionDelay := 0.0;
      dataset := map[];
    }
  }
}
