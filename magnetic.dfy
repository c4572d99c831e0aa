/** The magnetic pull effect (interactions.js, class MagneticButton): while
    the pointer is over an element, the element is shifted by a fixed
    fraction of the pointer's offset from the element's centre. */
module Magnetic {
  import opened Wrappers
  import opened Dom

  /** How far the element follows the pointer, as a fraction of the offset. */
  const Strength: real := 0.3

  function CentreX(box: Rect): real { box.left + box.width / 2.0 }
  function CentreY(box: Rect): real { box.top + box.height / 2.0 }

  /** The displacement applied on a move: (pointer − centre) × strength.
      It determines the pointer again: centre + displacement / strength. */
  function Offset(box: Rect, clientX: real, clientY: real): (d: (real, real))
    ensures CentreX(box) + d.0 / Strength == clientX
    ensures CentreY(box) + d.1 / Strength == clientY
  {
    ((clientX - CentreX(box)) * Strength, (clientY - CentreY(box)) * Strength)
  }

  /** No displacement with the pointer at the centre. */
  lemma OffsetAtCentre(box: Rect)
    ensures Offset(box, CentreX(box), CentreY(box)) == (0.0, 0.0)
  {
  }

  /** Inside the box the displacement is at most strength × half the size
      on each axis. */
  lemma OffsetBounded(box: Rect, clientX: real, clientY: real)
    requires box.left <= clientX <= box.left + box.width
    requires box.top <= clientY <= box.top + box.height
    ensures -Strength * box.width / 2.0 <= Offset(box, clientX, clientY).0 <= Strength * box.width / 2.0
    ensures -Strength * box.height / 2.0 <= Offset(box, clientX, clientY).1 <= Strength * box.height / 2.0
  {
  }

  /** Centre (100, 100), pointer (110, 130): displacement (3, 9). */
  lemma OffsetExample()
    ensures Offset(Rect(90.0, 90.0, 20.0, 20.0), 110.0, 130.0) == (3.0, 9.0)
  {
  }

  /** The controller: no snapshot while the pointer is outside, a bounding
      box snapshot taken on enter while it is inside. */
  class MagneticButton {
    const element: Element
    const strength: real := Strength
    var boundingRect: Option<Rect>

    constructor (element: Element)
      ensures this.element == element && boundingRect == None
    {
      this.element := element;
      boundingRect := None;
    }

    method OnMouseEnter()
      modifies this`boundingRect
      ensures boundingRect == Some(element.rect)
    {
      boundingRect := Some(element.rect);
    }

    /** A move without a snapshot is ignored; otherwise the element is
        translated by the offset from the snapshot's centre. */
    method OnMouseMove(clientX: real, clientY: real)
      modifies element`transform
      ensures boundingRect.None? ==> element.transform == old(element.transform)
      ensures boundingRect.Some? ==>
        var d := Offset(boundingRect.value, clientX, clientY);
        element.transform == Translate(d.0, d.1)
    {
      if boundingRect.None? {
        return;
      }
      var box := boundingRect.value;
      var centerX := box.left + box.width / 2.0;
      var centerY := box.top + box.height / 2.0;
      var deltaX := (clientX - centerX) * strength;
      var deltaY := (clientY - centerY) * strength;
      element.transform := Translate(deltaX, deltaY);
    }

    method OnMouseLeave()
      modifies this`boundingRect, element`transform
      ensures element.transform == Translate(0.0, 0.0) && boundingRect == None
    {
      element.transform := Translate(0.0, 0.0);
      boundingRect := None;
    }
  }
}
