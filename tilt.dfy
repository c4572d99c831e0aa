/** The tilt-and-glare effect (interactions.js, class TiltCard): a card
    rotates about its centre toward the pointer, and a glare layer shows a
    highlight under the pointer. */
module Tilt {
  import opened Wrappers
  import opened Dom

  /** Largest rotation, in degrees, reached at the card's edges. */
  const MaxTilt: real := 8.0
  /** Uniform scale while the pointer moves over the card. */
  const LiftScale: real := 1.02
  const GlareClass: string := "tilt-glare"

  /** Rotation about the horizontal axis for a pointer `y` pixels below the
      card's top: −maxTilt × (y − h/2) / (h/2) (inverted). */
  function RotateX(y: real, height: real): real
    requires height > 0.0
  {
    ((y - height / 2.0) / (height / 2.0)) * -MaxTilt
  }

  /** Rotation about the vertical axis for a pointer `x` pixels right of the
      card's left edge: maxTilt × (x − w/2) / (w/2). */
  function RotateY(x: real, width: real): real
    requires width > 0.0
  {
    ((x - width / 2.0) / (width / 2.0)) * MaxTilt
  }

  /** Position of the pointer along one side of the card, in percent. */
  function GlarePercent(offset: real, size: real): real
    requires size > 0.0
  {
    (offset / size) * 100.0
  }

  /** Both rotations vanish at the centre. */
  lemma TiltAtCentre(width: real, height: real)
    requires width > 0.0 && height > 0.0
    ensures RotateX(height / 2.0, height) == 0.0 && RotateY(width / 2.0, width) == 0.0
  {
  }

  /** Strictly inside the card, each rotation is smaller than maxTilt in magnitude. */
  lemma TiltBounded(x: real, y: real, width: real, height: real)
    requires width > 0.0 && height > 0.0
    requires 0.0 < x < width && 0.0 < y < height
    ensures -MaxTilt < RotateX(y, height) < MaxTilt
    ensures -MaxTilt < RotateY(x, width) < MaxTilt
  {
    RatioBelowOne(y - height / 2.0, height / 2.0);
    RatioBelowOne(x - width / 2.0, width / 2.0);
  }

  lemma RatioBelowOne(a: real, b: real)
    requires b > 0.0 && -b < a < b
    ensures -1.0 < a / b < 1.0
  {
    var q := a / b;
    assert q * b == a;
    assert (q - 1.0) * b < 0.0;
    assert (q + 1.0) * b > 0.0;
  }

  /** The sign convention: above the centre the card rotates positively about
      the horizontal axis, below it negatively; right of the centre
      positively about the vertical axis, left of it negatively. */
  lemma TiltSign(x: real, y: real, width: real, height: real)
    requires width > 0.0 && height > 0.0
    ensures y < height / 2.0 ==> RotateX(y, height) > 0.0
    ensures y > height / 2.0 ==> RotateX(y, height) < 0.0
    ensures x > width / 2.0 ==> RotateY(x, width) > 0.0
    ensures x < width / 2.0 ==> RotateY(x, width) < 0.0
  {
    var u := (y - height / 2.0) / (height / 2.0);
    assert u * (height / 2.0) == y - height / 2.0;
    var v := (x - width / 2.0) / (width / 2.0);
    assert v * (width / 2.0) == x - width / 2.0;
  }

  /** The rotations determine the pointer position: they are a bijection
      between the card and the square of angles. */
  lemma TiltInverse(x: real, y: real, width: real, height: real)
    requires width > 0.0 && height > 0.0
    ensures y == height / 2.0 * (1.0 - RotateX(y, height) / MaxTilt)
    ensures x == width / 2.0 * (1.0 + RotateY(x, width) / MaxTilt)
  {
    var u := (y - height / 2.0) / (height / 2.0);
    assert u * (height / 2.0) == y - height / 2.0;
    var v := (x - width / 2.0) / (width / 2.0);
    assert v * (width / 2.0) == x - width / 2.0;
  }

  /** For a pointer on the card the glare origin lies in [0, 100]. */
  lemma GlareInRange(offset: real, size: real)
    requires size > 0.0 && 0.0 <= offset <= size
    ensures 0.0 <= GlarePercent(offset, size) <= 100.0
  {
    var q := offset / size;
    assert q * size == offset;
  }

  class TiltCard {
    const element: Element
    const glare: Element
    const maxTilt: real := MaxTilt
    const scale: real := LiftScale
    var boundingRect: Option<Rect>

    /** The glare layer is a separate element of its own. */
    predicate Valid() {
      glare != element
    }

    /** `init()` and `createGlare()`: mark the card as a 3D surface and
        append one fresh glare layer, transparent and not hit-testable.
        There is no guard: constructing a second TiltCard on the same card
        appends a second layer. */
    constructor (element: Element)
      modifies element`children, element`preserve3d
      ensures Valid() && this.element == element && boundingRect == None
      ensures fresh(glare)
      ensures element.children == old(element.children) + [Child(glare)]
      ensures element.preserve3d
      ensures glare.classes == {GlareClass} && glare.children == []
      ensures glare.opacity == 0.0 && !glare.pointerEvents && glare.background == LinearGlare
    {
      this.element := element;
      boundingRect := None;
      var layer := new Element("DIV", {GlareClass}, [], element.rect);
      layer.pointerEvents := false;
      layer.background := LinearGlare;
      layer.opacity := 0.0;
      glare := layer;
      new;
      element.preserve3d := true;
      element.children := element.children + [Child(glare)];
    }

    method OnMouseEnter()
      modifies this`boundingRect
      ensures boundingRect == Some(element.rect)
    {
      boundingRect := Some(element.rect);
    }

    /** A move without a snapshot is ignored. Otherwise the card is rotated
        from the pointer's position relative to the snapshot, lifted, and
        the glare is centred under the pointer at full opacity. */
    method OnMouseMove(clientX: real, clientY: real)
      requires Valid()
      requires boundingRect.Some? ==> boundingRect.value.HasArea()
      modifies element`transform, glare`background, glare`opacity
      ensures boundingRect.None? ==>
        element.transform == old(element.transform) &&
        glare.background == old(glare.background) && glare.opacity == old(glare.opacity)
      ensures boundingRect.Some? ==>
        var box := boundingRect.value;
        var x, y := clientX - box.left, clientY - box.top;
        element.transform == Tilt(RotateX(y, box.height), RotateY(x, box.width), LiftScale) &&
        glare.background == RadialGlare(GlarePercent(x, box.width), GlarePercent(y, box.height)) &&
        glare.opacity == 1.0
    {
      if boundingRect.None? {
        return;
      }
      var box := boundingRect.value;
      var x := clientX - box.left;
      var y := clientY - box.top;
      var centerX := box.width / 2.0;
      var centerY := box.height / 2.0;
      var rotateX := ((y - centerY) / centerY) * -maxTilt;
      var rotateY := ((x - centerX) / centerX) * maxTilt;
      element.transform := Tilt(rotateX, rotateY, scale);
      var glareX := (x / box.width) * 100.0;
      var glareY := (y / box.height) * 100.0;
      glare.background := RadialGlare(glareX, glareY);
      glare.opacity := 1.0;
    }

    /** Back to no rotation and no lift, glare faded out, snapshot dropped. */
    method OnMouseLeave()
      requires Valid()
      modifies this`boundingRect, element`transform, glare`opacity
      ensures element.transform == Tilt(0.0, 0.0, 1.0)
      ensures glare.opacity == 0.0 && boundingRect == None
    {
      element.transform := Tilt(0.0, 0.0, 1.0);
      glare.opacity := 0.0;
      boundingRect := None;
    }
  }
}
