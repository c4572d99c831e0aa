/** The text reveal effect (interactions.js, class TextReveal): an element's
    text is cut into words or characters, and each piece becomes its own
    span with a staggered animation delay. */
module TextReveal {
  import opened Wrappers
  import opened Strings
  import opened Dom

  /** The marker class that makes a second reveal of the same element a no-op. */
  const ProcessedClass: string := "text-reveal-processed"
  const RevealClass: string := "text-reveal"

  const DefaultStaggerDelay: real := 50.0
  const DefaultAnimationDuration: real := 600.0

  datatype Mode = WordMode | CharMode

  /** The constructor's `options` object; a missing field is `None`. */
  datatype Options = Options(kind: Option<string>, staggerDelay: Option<real>, animationDuration: Option<real>)

  /** `options.type || 'words'` followed by the test `type === 'words'`:
      a missing or empty type means words, and every type other than
      "words" splits into characters. */
  function ModeOf(kind: Option<string>): (m: Mode)
    ensures m == WordMode <==> kind.None? || kind.value in {"", "words"}
  {
    if kind.None? || kind.value == "" || kind.value == "words" then WordMode else CharMode
  }

  /** `value || fallback` for a number: a missing value and a zero value
      both fall back; any other value is kept. */
  function OrDefault(value: Option<real>, fallback: real): (r: real)
    ensures (value.None? || value.value == 0.0) ==> r == fallback
    ensures value.Some? && value.value != 0.0 ==> r == value.value
  {
    if value.None? || value.value == 0.0 then fallback else value.value
  }

  /** The separator between two pieces in the element's text. */
  function Separator(mode: Mode): string {
    if mode == WordMode then " " else ""
  }

  /** `text.split(' ')` in word mode, `text.split('')` in character mode. */
  function Segments(text: string, mode: Mode): seq<string> {
    if mode == WordMode then Split(text, ' ') else Chars(text)
  }

  /** The nodes appended for item `i`: its span and, in word mode and
      except after the last item, a literal space text node. */
  function Piece(items: seq<string>, i: nat, mode: Mode, stagger: real, duration: real): seq<Node>
    requires i < |items|
  {
    [Span(items[i], Stagger(i, stagger), duration)]
      + (if mode == WordMode && i < |items| - 1 then [Text(" ")] else [])
  }

  /** The children after the first `k` items have been appended. */
  function Revealed(items: seq<string>, k: nat, mode: Mode, stagger: real, duration: real): seq<Node>
    requires k <= |items|
    decreases k
  {
    if k == 0 then [] else Revealed(items, k - 1, mode, stagger, duration) + Piece(items, k - 1, mode, stagger, duration)
  }

  /** The complete replacement child list for `text`. */
  function Render(text: string, mode: Mode, stagger: real, duration: real): seq<Node> {
    var items := Segments(text, mode);
    Revealed(items, |items|, mode, stagger, duration)
  }

  /** The part of an element a reveal reads and writes. */
  datatype RevealState = RevealState(classes: set<string>, children: seq<Node>)

  /** The effect of constructing a TextReveal on an element in state `st`. */
  function Reveal(st: RevealState, options: Options): RevealState {
    if ProcessedClass in st.classes then st
    else RevealState(
      st.classes + {ProcessedClass, RevealClass},
      Render(TextContent(st.children), ModeOf(options.kind),
             OrDefault(options.staggerDelay, DefaultStaggerDelay),
             OrDefault(options.animationDuration, DefaultAnimationDuration)))
  }

  // ----- properties of the segmentation -----

  /** After k rounds the children read as the first k items joined by the
      separator, followed by the space node of round k, if it has one. */
  lemma {:induction false} RevealedTextPrefix(items: seq<string>, k: nat, mode: Mode, stagger: real, duration: real)
    requires k <= |items|
    ensures TextContent(Revealed(items, k, mode, stagger, duration))
         == Join(items[..k], Separator(mode)) + Trailer(|items|, k, mode)
    decreases k
  {
    if k > 0 {
      RevealedTextPrefix(items, k - 1, mode, stagger, duration);
      var before := Revealed(items, k - 1, mode, stagger, duration);
      PieceText(before, items, k, mode, stagger, duration);
      JoinStep(TextContent(before), items, k, mode);
    }
  }

  /** Round k appends the text of item k - 1 and then its trailer. */
  lemma PieceText(before: seq<Node>, items: seq<string>, k: nat, mode: Mode, stagger: real, duration: real)
    requires 0 < k <= |items|
    ensures TextContent(before + Piece(items, k - 1, mode, stagger, duration))
         == TextContent(before) + items[k - 1] + Trailer(|items|, k, mode)
  {
    var span := Span(items[k - 1], Stagger(k - 1, stagger), duration);
    if mode == WordMode && k < |items| {
      assert Piece(items, k - 1, mode, stagger, duration) == [span, Text(" ")];
      SpanSpaceText(before, span);
    } else {
      assert Piece(items, k - 1, mode, stagger, duration) == [span];
      TextContentSnoc(before, span);
    }
  }

  lemma SpanSpaceText(before: seq<Node>, span: Node)
    ensures TextContent(before + [span, Text(" ")]) == TextContent(before) + NodeText(span) + " "
  {
    TextContentSnoc(before, span);
    assert before + [span, Text(" ")] == (before + [span]) + [Text(" ")];
    TextContentSnoc(before + [span], Text(" "));
  }

  /** The text of the first k - 1 rounds, followed by item k - 1, is the join
      of the first k items. */
  lemma JoinStep(pre: string, items: seq<string>, k: nat, mode: Mode)
    requires 0 < k <= |items|
    requires pre == Join(items[..k - 1], Separator(mode)) + Trailer(|items|, k - 1, mode)
    ensures pre + items[k - 1] == Join(items[..k], Separator(mode))
  {
    var sep, x := Separator(mode), items[k - 1];
    assert items[..k] == items[..k - 1] + [x];
    JoinSnoc(items[..k - 1], x, sep);
    if k > 1 {
      assert Trailer(|items|, k - 1, mode) == sep;
    } else {
      assert pre == "";
    }
  }

  /** The space that follows the k-th item in word mode while more items are to come. */
  function Trailer(n: nat, k: nat, mode: Mode): string {
    if mode == WordMode && 0 < k < n then " " else ""
  }

  /** Concatenating the generated children gives back the original text,
      in both modes, including empty words from doubled spaces and the
      empty string. */
  lemma RenderRoundTrip(text: string, mode: Mode, stagger: real, duration: real)
    ensures TextContent(Render(text, mode, stagger, duration)) == text
  {
    var items := Segments(text, mode);
    RevealedTextPrefix(items, |items|, mode, stagger, duration);
    assert items[..|items|] == items;
    if mode == WordMode {
      JoinSplit(text, ' ');
    } else {
      JoinChars(text);
    }
  }

  lemma {:induction false} RevealedWordsShape(items: seq<string>, k: nat, stagger: real, duration: real)
    requires 0 < k <= |items|
    ensures var r := Revealed(items, k, WordMode, stagger, duration);
      |r| == (if k < |items| then 2 * k else 2 * k - 1) &&
      (forall i :: 0 <= i < k ==> r[2 * i] == Span(items[i], Stagger(i, stagger), duration)) &&
      (forall i :: 0 <= i < k && i < |items| - 1 ==> r[2 * i + 1] == Text(" "))
    decreases k
  {
    if k > 1 {
      RevealedWordsShape(items, k - 1, stagger, duration);
    }
  }

  /** Word mode: for n pieces of `split(' ')` there are n spans at the even
      positions, carrying the pieces in order with delays i * stagger, and
      n - 1 single-space text nodes between them, none after the last. */
  lemma WordsShape(text: string, stagger: real, duration: real)
    ensures var items, r := Split(text, ' '), Render(text, WordMode, stagger, duration);
      |r| == 2 * |items| - 1 &&
      (forall i :: 0 <= i < |items| ==> r[2 * i] == Span(items[i], Stagger(i, stagger), duration)) &&
      (forall i :: 0 <= i < |items| - 1 ==> r[2 * i + 1] == Text(" "))
  {
    var items := Split(text, ' ');
    RevealedWordsShape(items, |items|, stagger, duration);
  }

  lemma {:induction false} RevealedCharsShape(items: seq<string>, k: nat, stagger: real, duration: real)
    requires k <= |items|
    ensures var r := Revealed(items, k, CharMode, stagger, duration);
      |r| == k && forall i :: 0 <= i < k ==> r[i] == Span(items[i], Stagger(i, stagger), duration)
    decreases k
  {
    if k > 0 {
      RevealedCharsShape(items, k - 1, stagger, duration);
    }
  }

  /** Character mode: exactly one span per character, in order, the i-th
      holding that character with delay i * stagger; no space nodes. */
  lemma CharsShape(text: string, stagger: real, duration: real)
    ensures var r := Render(text, CharMode, stagger, duration);
      |r| == |text| &&
      forall i :: 0 <= i < |text| ==> r[i] == Span([text[i]], Stagger(i, stagger), duration)
  {
    RevealedCharsShape(Chars(text), |text|, stagger, duration);
  }

  /** Delays grow strictly along the spans when the stagger is positive, and
      every span has the same duration. */
  lemma RenderDelaysIncrease(text: string, mode: Mode, stagger: real, duration: real, i: nat, j: nat)
    requires stagger > 0.0
    requires i < j < |Render(text, mode, stagger, duration)|
    requires Render(text, mode, stagger, duration)[i].Span? && Render(text, mode, stagger, duration)[j].Span?
    ensures Render(text, mode, stagger, duration)[i].delay < Render(text, mode, stagger, duration)[j].delay
    ensures Render(text, mode, stagger, duration)[i].duration == duration
    ensures Render(text, mode, stagger, duration)[j].duration == duration
  {
    if mode == WordMode {
      WordsDelaysIncrease(text, stagger, duration, i, j);
    } else {
      CharsShape(text, stagger, duration);
      StaggerIncreasing(i, j, stagger);
    }
  }

  lemma WordsDelaysIncrease(text: string, stagger: real, duration: real, i: nat, j: nat)
    requires stagger > 0.0
    requires i < j < |Render(text, WordMode, stagger, duration)|
    requires Render(text, WordMode, stagger, duration)[i].Span? && Render(text, WordMode, stagger, duration)[j].Span?
    ensures Render(text, WordMode, stagger, duration)[i].delay == Stagger(i / 2, stagger)
    ensures Render(text, WordMode, stagger, duration)[j].delay == Stagger(j / 2, stagger)
    ensures Render(text, WordMode, stagger, duration)[i].duration == duration
    ensures Render(text, WordMode, stagger, duration)[j].duration == duration
    ensures Stagger(i / 2, stagger) < Stagger(j / 2, stagger)
  {
    var r := Render(text, WordMode, stagger, duration);
    var items := Split(text, ' ');
    WordsShape(text, stagger, duration);
    SpanAtEven(r, items, stagger, duration, i);
    SpanAtEven(r, items, stagger, duration, j);
    StaggerIncreasing(i / 2, j / 2, stagger);
  }

  /** In a word-mode child list, a span can only sit at an even position. */
  lemma SpanAtEven(r: seq<Node>, items: seq<string>, stagger: real, duration: real, i: nat)
    requires |items| >= 1 && |r| == 2 * |items| - 1
    requires forall k :: 0 <= k < |items| ==> r[2 * k] == Span(items[k], Stagger(k, stagger), duration)
    requires forall k :: 0 <= k < |items| - 1 ==> r[2 * k + 1] == Text(" ")
    requires i < |r| && r[i].Span?
    ensures i % 2 == 0 && r[i] == Span(items[i / 2], Stagger(i / 2, stagger), duration)
  {
    var k := i / 2;
    assert i == 2 * k || i == 2 * k + 1;
  }

  // ----- properties of the whole reveal -----

  /** A second reveal of an element changes nothing, whatever its options:
      the marker class set by the first one stops it. */
  lemma RevealIdempotent(st: RevealState, first: Options, second: Options)
    ensures Reveal(Reveal(st, first), second) == Reveal(st, first)
  {
  }

  /** A reveal never changes what the element's text reads as. */
  lemma RevealPreservesText(st: RevealState, options: Options)
    ensures TextContent(Reveal(st, options).children) == TextContent(st.children)
  {
    if ProcessedClass !in st.classes {
      RenderRoundTrip(TextContent(st.children), ModeOf(options.kind),
                      OrDefault(options.staggerDelay, DefaultStaggerDelay),
                      OrDefault(options.animationDuration, DefaultAnimationDuration));
    }
  }

  /** A first reveal marks the element and keeps every class it had. */
  lemma RevealMarks(st: RevealState, options: Options)
    ensures ProcessedClass in Reveal(st, options).classes
    ensures st.classes <= Reveal(st, options).classes
    ensures ProcessedClass !in st.classes ==> Reveal(st, options).classes == st.classes + {ProcessedClass, RevealClass}
  {
  }

  /** The controller. Construction runs `init` at once. */
  class TextReveal {
    const element: Element
    const mode: Mode
    const staggerDelay: real
    const animationDuration: real
    const originalText: string

    constructor (element: Element, options: Options)
      modifies element`classes, element`children
      ensures this.element == element
      ensures mode == ModeOf(options.kind)
      ensures staggerDelay == OrDefault(options.staggerDelay, DefaultStaggerDelay)
      ensures animationDuration == OrDefault(options.animationDuration, DefaultAnimationDuration)
      ensures originalText == old(TextContent(element.children))
      ensures RevealState(element.classes, element.children)
           == Reveal(old(RevealState(element.classes, element.children)), options)
    {
      this.element := element;
      mode := ModeOf(options.kind);
      staggerDelay := OrDefault(options.staggerDelay, DefaultStaggerDelay);
      animationDuration := OrDefault(options.animationDuration, DefaultAnimationDuration);
      originalText := TextContent(element.children);
      new;
      Init();
    }

    /** `init()`: the guard, then clear the element and append one span per
        item (and a space after every word but the last). */
    method Init()
      modifies element`classes, element`children
      ensures ProcessedClass in old(element.classes) ==>
        element.classes == old(element.classes) && element.children == old(element.children)
      ensures ProcessedClass !in old(element.classes) ==>
        element.classes == old(element.classes) + {ProcessedClass, RevealClass} &&
        element.children == Render(originalText, mode, staggerDelay, animationDuration)
    {
      ghost var before := element.classes;
      if ProcessedClass in element.classes {
        return;
      }
      element.classes := element.classes + {ProcessedClass};
      var items := if mode == WordMode then Split(originalText, ' ') else Chars(originalText);
      element.children := [];
      element.classes := element.classes + {RevealClass};
      assert element.classes == before + {ProcessedClass, RevealClass};
      var index := 0;
      while index < |items|
        invariant 0 <= index <= |items|
        invariant element.children == Revealed(items, index, mode, staggerDelay, animationDuration)
        invariant element.classes == before + {ProcessedClass, RevealClass}
      {
        element.children := element.children + [Span(items[index], Stagger(index, staggerDelay), animationDuration)];
        if mode == WordMode && index < |items| - 1 {
          element.children := element.children + [Text(" ")];
        }
        index := index + 1;
      }
    }
  }
}
