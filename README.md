# Portfolio interactions and page scripts, modelled in Dafny

This project models the client-side behaviour of a static design portfolio
and proves properties of that model. It covers three scripts:

- **interactions.js**. Four event-driven effect controllers:
  - the *magnetic button*, which pulls an element toward the pointer;
  - the *tilt card*, which rotates a project card in 3D and moves a glare
    layer over it;
  - the *text reveal*, which splits a heading into staggered word or
    character spans, once;
  - the *custom cursor*, which eases toward the pointer and shows hover and
    click states.

  It also models the start-up code that installs them, and the mutation
  watcher that re-installs them after the project list is re-rendered.
- **project-loader.js**. The case-study page:
  - finding the project named by the `id` URL parameter, and the page title;
  - the newline formatting of texts;
  - the sidebar, including the comma-separated responsibilities tags;
  - the content sections, with their label fallbacks and numbered process
    steps;
  - the previous and next navigation;
  - the footer buttons.
- **script.js**. The home page:
  - the tag filter;
  - the exclusive active filter pill;
  - each project card's links;
  - the staggered entrance delays;
  - the footer buttons;
  - the profile header.

The DOM is abstract. `Dom.Element` is a class whose fields are what the
scripts change: a class set, a child list, transform, opacity, pointer
events, background, transition delay, the `data-*` map and the layout box.
Each controller is a class whose handlers change those fields. Geometry uses
exact `real` arithmetic. A text field that the scripts only test for
truthiness is a `string`, with `""` standing for missing. A field compared
with `===` is an `Option`.

Modules and where they come from:

| module | file | models |
|---|---|---|
| `Wrappers` | wrappers.dfy | `Option` |
| `Strings` | strings.dfy | JavaScript `split`, `join`, `trim`, `String(n)`, `padStart` |
| `Dom` | dom.dfy | elements, child nodes, `textContent`, stagger delays |
| `TextReveal` | text_reveal.dfy | interactions.js `TextReveal` |
| `Magnetic` | magnetic.dfy | interactions.js `MagneticButton` |
| `Tilt` | tilt.dfy | interactions.js `TiltCard` |
| `Cursor` | cursor.dfy | interactions.js `CustomCursor` |
| `Bootstrap` | bootstrap.dfy | interactions.js init functions, `runInit`, `observeContentChanges`, the footer-heading trigger |
| `Catalog` | catalog.dfy | the project/profile data and the shared footer-button list |
| `ProjectLoader` | project_loader.dfy | project-loader.js |
| `Portfolio` | portfolio.dfy | script.js |

## Model

| member | source | states |
|---|---|---|
| TextReveal.ModeOf | interactions.js:201 | word mode exactly when `type` is missing, empty or `'words'` (the `\|\|` fallback) |
| TextReveal.OrDefault | interactions.js:202-203 | a missing or zero option falls back to the default (the `\|\|` fallback), any other value is kept |
| TextReveal.RenderRoundTrip | interactions.js:214-236 | `Render`: the text of the rebuilt children equals the original text, in both modes, including empty items from doubled spaces and the empty string |
| TextReveal.RevealedTextPrefix | interactions.js:222-236 | after the first k loop rounds, the children spell the first k items joined by the separator, plus a trailing space in word mode |
| TextReveal.WordsShape | interactions.js:214-236 | word mode: for n items of `split(' ')` there are 2n-1 children; child 2i is span i with delay i × stagger and the common duration; child 2i+1 is a space node; nothing follows the last word |
| TextReveal.RevealedWordsShape | interactions.js:222-236 | the same shape after each loop round (the loop's own invariant) |
| TextReveal.CharsShape | interactions.js:214-236 | character mode: one span per character, span i holding character i with delay i × stagger, no space nodes |
| TextReveal.RevealedCharsShape | interactions.js:222-236 | the same shape after each loop round in character mode |
| TextReveal.RenderDelaysIncrease | interactions.js:226-227 | with a positive stagger, a later span starts strictly later, and every span has the configured duration |
| TextReveal.WordsDelaysIncrease | interactions.js:226-227 | in word mode the span at child position i has delay (i/2) × stagger |
| TextReveal.SpanAtEven | interactions.js:229-235 | in the word layout every span sits at an even child position and is item i/2 |
| TextReveal.RevealIdempotent | interactions.js:209-212 | `Reveal`: a second reveal of a revealed element, with any options, changes neither its classes nor its children |
| TextReveal.RevealPreservesText | interactions.js:204-236 | `Reveal`: revealing keeps the element's text content |
| TextReveal.RevealMarks | interactions.js:210-220 | after a reveal the processed marker is set and no class was removed; a first reveal adds exactly the marker and `text-reveal` |
| TextReveal.TextReveal.constructor | interactions.js:199-207 | the options are resolved with their defaults, the text is read before the rebuild, and the element ends in the state the reveal function gives |
| TextReveal.TextReveal.Init | interactions.js:209-237 | an already-processed element is untouched; otherwise the classes gain the two markers and the children become the rendered spans, built one item per round |
| Magnetic.Offset | interactions.js:37-41 | the offset is the pointer's distance from the box centre scaled by 0.3: centre + offset / 0.3 is the pointer |
| Magnetic.OffsetAtCentre | interactions.js:37-41 | a pointer at the centre gives no offset |
| Magnetic.OffsetBounded | interactions.js:37-41 | a pointer inside the box moves the element by at most 0.3 × half the box in each axis |
| Magnetic.OffsetExample | interactions.js:37-41 | centre (100,100) and pointer (110,130) give (3,9) |
| Magnetic.MagneticButton.constructor | interactions.js:11-21 | a new controller has no snapshot |
| Magnetic.MagneticButton.OnMouseEnter | interactions.js:30-32 | enter takes a snapshot of the element's box |
| Magnetic.MagneticButton.OnMouseMove | interactions.js:34-44 | with no snapshot a move changes nothing; otherwise the transform becomes the offset translation |
| Magnetic.MagneticButton.OnMouseLeave | interactions.js:46-49 | leave translates back to (0,0) and clears the snapshot |
| Tilt.TiltAtCentre | interactions.js:135-143 | `RotateX`, `RotateY`: both rotations are 0 at the card's centre |
| Tilt.TiltBounded | interactions.js:135-143 | for a pointer strictly inside the card both rotations are strictly below 8 degrees in magnitude |
| Tilt.RatioBelowOne | interactions.js:142-143 | a ratio with magnitude below its positive divisor lies strictly between -1 and 1 (used for the bound) |
| Tilt.TiltSign | interactions.js:142-143 | above the centre the card tilts back (rotateX > 0), below it forward; right of the centre rotateY > 0, left of it < 0 |
| Tilt.TiltInverse | interactions.js:142-143 | the pointer position can be recovered from the two rotations, so the mapping loses nothing |
| Tilt.GlareInRange | interactions.js:155-156 | `GlarePercent`: for a pointer inside the card the glare origin lies in [0,100]% on both axes |
| Tilt.TiltCard.constructor | interactions.js:72-125 | construction appends exactly one new glare child (class `tilt-glare`, opacity 0, no pointer events, linear gradient), sets `preserve-3d`, starts with no snapshot |
| Tilt.TiltCard.OnMouseEnter | interactions.js:127-130 | enter takes a snapshot of the card's box |
| Tilt.TiltCard.OnMouseMove | interactions.js:132-166 | with no snapshot a move changes nothing; otherwise the card gets the two rotations and the 1.02 lift, and the glare gets its radial origin and opacity 1 |
| Tilt.TiltCard.OnMouseLeave | interactions.js:168-181 | leave resets both rotations to 0 and the scale to 1, hides the glare and clears the snapshot |
| Cursor.EaseStep | interactions.js:397-400 | one frame multiplies the remaining distance to the target by exactly 0.85 |
| Cursor.EaseStepsError | interactions.js:395-405 | after n frames with a fixed target the distance is 0.85^n times the initial distance |
| Cursor.PowAdd | interactions.js:395-405 | powers add their exponents (used to bound 0.85^40) |
| Cursor.PowPositive | interactions.js:395-405 | the remaining fraction never reaches zero |
| Cursor.Pow40Small | interactions.js:397 | 0.85^40 is below 0.002 |
| Cursor.ConvergesIn40Frames | interactions.js:395-405 | from up to 500 px away the cursor is within 1 px of a fixed target after 40 frames |
| Cursor.ErrorBelowOne | interactions.js:395-405 | the same bound for any frame count whose remaining fraction is below 0.002 |
| Cursor.HoverOnClasses | interactions.js:381-389 | hover-on adds `hovering`, adds `cursor-view` only for a project card and `cursor-pointer` only for an A or BUTTON that is not a card, never both, and removes nothing |
| Cursor.HoverOffClasses | interactions.js:390-392 | hover-off removes the three hover classes and keeps every other class |
| Cursor.HoverRoundTrip | interactions.js:378-393 | hover-on followed by hover-off restores a class set that had no hover class |
| Cursor.CustomCursor.constructor | interactions.js:285-336 | the gate `CursorEnabled`: on a touch device or a viewport below 768 px no cursor exists and the body is untouched; otherwise a cursor is appended to the body and the body gets `custom-cursor-active` |
| Cursor.CustomCursor.OnMouseMove | interactions.js:363-366 | a pointer move changes only the two target coordinates |
| Cursor.CustomCursor.OnMouseDown | interactions.js:368-371 | mousedown sets the clicking flag and adds `clicking` |
| Cursor.CustomCursor.OnMouseUp | interactions.js:373-376 | mouseup clears the flag and removes `clicking` |
| Cursor.CustomCursor.SetHoverState | interactions.js:378-393 | the flag follows the argument; the classes become the hover-on or hover-off set |
| Cursor.CustomCursor.OnDocumentLeave | interactions.js:354-356 | leaving the window hides the cursor |
| Cursor.CustomCursor.OnDocumentEnter | interactions.js:358-360 | entering the window shows it again |
| Cursor.CustomCursor.Animate | interactions.js:395-402 | one frame eases each coordinate toward its target and moves the cursor there |
| Bootstrap.MagnetTargets | interactions.js:58-62 | the elements of a list of controllers, in order |
| Bootstrap.RepeatSeq | interactions.js:446-473 | n copies of a list have n times its length |
| Bootstrap.InitMagneticButtons | interactions.js:52-65 | one fresh controller per target, in order, each without a snapshot; none when `PointerEffectsEnabled` is false (a touch device) |
| Bootstrap.InitTiltCards | interactions.js:184-192 | as written: only the cards' child lists and 3D flags may change; on a touch device neither does; otherwise every card gets one more glare layer, even a card that already has one, and no class changes |
| Bootstrap.BindIfNew | interactions.js:189 | corrected binding: only the card's classes, children and 3D flag may change; a card already marked keeps all three; an unmarked card is marked and gets one glare layer |
| Bootstrap.InitNewTiltCards | interactions.js:184-192 | corrected pass: only classes, children and 3D flags may change; none does on a touch device; otherwise exactly the unmarked cards are bound, each once, every card ends marked, and a skipped card keeps all three |
| Bootstrap.NonEmptyCount | interactions.js:446-447 | the number of records with added nodes is zero exactly when every record added nothing |
| Bootstrap.RebindEnterClasses | interactions.js:456-461 | the re-bound enter listener adds `hovering`, adds `cursor-view` only for a project card, and nothing else |
| Bootstrap.RebindLeaveClasses | interactions.js:462-464 | the re-bound leave listener removes only `hovering` and `cursor-view`; `cursor-pointer` survives |
| Bootstrap.RebindHoverEnter | interactions.js:456-461 | only the cursor's classes may change: with no cursor element nothing happens; otherwise they become the enter set |
| Bootstrap.RebindHoverLeave | interactions.js:462-464 | only the cursor's classes may change: with no cursor element nothing happens; otherwise they become the leave set |
| Bootstrap.ContentWatcher.constructor | interactions.js:445-478 | the watcher observes the given container |
| Bootstrap.ContentWatcher.OnMutations | interactions.js:445-476 | one tilt pass per record that added nodes and none for the others; per such record one fresh magnetic controller per release link, none on a touch device |
| Bootstrap.ObserveContentChanges | interactions.js:441-444 | no watcher exists without the `.projects` container |
| Bootstrap.FooterRevealTrigger.constructor | interactions.js:263-274 | the footer heading starts observed |
| Bootstrap.FooterRevealTrigger.OnIntersection | interactions.js:266-273 | the heading is revealed with the word preset (60, 600) once an entry intersects, and observation stops; with no intersecting entry nothing changes |
| Bootstrap.RunInit | interactions.js:425-438 | as written, with the watcher installed before the deferred tilt pass: the cursor exists exactly when its gate allows; on a touch device there are no magnetic or tilt controllers; otherwise one fresh magnetic controller per target without a snapshot, and one tilt controller per card, each bound with one more glare layer; the watcher exists exactly when the container does; without the cursor the body keeps its children and classes, with it the body gains the cursor child and `custom-cursor-active`; on a touch device the cards keep their children and 3D flags |
| Bootstrap.RunInitCorrected | interactions.js:425-438 | the same start-up with the corrected tilt pass: the same body and cursor outcome; exactly the unmarked cards are bound, each with one glare layer; every card ends marked; a skipped card, and every card on a touch device, keeps its classes, children and 3D flag |
| Bootstrap.TiltPassRetriggersAsWritten | interactions.js:441-479 | as written (the glare append of lines 123-124 inside the observed container, the pass of lines 184-190), the start-up tilt pass produces a mutation record that schedules a second pass, which adds a second glare layer and schedules a third pass |
| Bootstrap.TiltPassSettlesCorrected | interactions.js:441-479 | with the processed marker (the corrected pass of lines 184-190), the second pass adds nothing and schedules no further pass |
| Catalog.Footer | project-loader.js:264-294 | LinkedIn, Resume and Substack in that order, each present exactly when its link is set, each with its own link, no other button, at most three |
| Catalog.FooterButtons | project-loader.js:264-294 | the pushes build exactly the list `Footer` characterises |
| Strings.Split | project-loader.js:103 | `split` with one separator gives at least one piece, none containing the separator |
| Strings.JoinSplit | interactions.js:214-215 | `Join` of `Split`: joining the pieces of a split with its separator gives back the string |
| Strings.SplitJoin | project-loader.js:103 | `Split` of `Join`: splitting a join of separator-free pieces gives back the pieces |
| Strings.SplitCount | project-loader.js:103 | a split has one more piece than the string has separators |
| Strings.JoinChars | interactions.js:216 | the characters of `split('')` join back to the string |
| Strings.Chars | interactions.js:216 | `split('')` gives one one-character piece per character |
| Strings.TrimSpec | project-loader.js:104 | `Trim`: `trim` gives the slice between the first and last non-whitespace characters; only whitespace is cut |
| Strings.TrimNoop | project-loader.js:104 | a string with no whitespace at either end is its own trim |
| Strings.TrimLeadingPad | project-loader.js:104 | trimming a whitespace prefix off a trimmed string gives that string |
| Strings.NatToString | project-loader.js:153 | `String(n)` is a non-empty digit string, one digit exactly for n < 10, with no leading zero otherwise |
| Strings.DecimalValueOfNat | project-loader.js:153 | `String(n)` reads back as n |
| Strings.PadStart | project-loader.js:153 | `padStart` gives at least the requested width |
| Strings.DecimalValueLeadingZeros | project-loader.js:153 | leading zeros do not change a decimal value |
| ProjectLoader.FormatContent | project-loader.js:47 | an empty or missing text gives the empty string; the result never contains a newline |
| ProjectLoader.ReplaceBreaksNoNewline | project-loader.js:47 | the second replacement leaves no newline |
| ProjectLoader.ReplaceBreaksIdentity | project-loader.js:47 | text without newlines passes the second replacement unchanged (so the paragraph tags of the first pass survive it) |
| ProjectLoader.TwoPassesAreOne | project-loader.js:47 | replacing blank lines first and then single newlines equals one left-to-right pass that turns each non-overlapping pair into a paragraph break and each remaining newline into a line break |
| ProjectLoader.FormatRoundTrip | project-loader.js:47 | for text without markup, reading paragraph and line breaks back as newlines gives the original text, so formatting loses no newline |
| ProjectLoader.UnformatOnePass | project-loader.js:47 | the same round trip for the one-pass form |
| ProjectLoader.FindIndex | project-loader.js:19 | the position of the first project with the requested id, or -1 exactly when none has it; a missing id matches nothing |
| ProjectLoader.FindAgrees | project-loader.js:18-19 | `find` returns the project at the position `findIndex` returns, and nothing when it returns -1 |
| ProjectLoader.PageTitle | project-loader.js:27 | the title is the project title, then " · ", then the profile name |
| ProjectLoader.TagsSpec | project-loader.js:103-105 | `Tags`: one tag per comma-separated piece, in order, so commas + 1 tags; each is its piece trimmed, holds no comma and neither starts nor ends with whitespace |
| ProjectLoader.Sidebar | project-loader.js:78-115 | one group per field of role, timeline, team, responsibilities and tools that is set |
| ProjectLoader.SidebarSpec | project-loader.js:78-115 | each of role, timeline, team and tools appears, with its formatted text, exactly when its field is set, and responsibilities appear as the tags exactly when set; no other group appears; the groups keep that order |
| ProjectLoader.FiveEntries | project-loader.js:78-115 | five optional groups of increasing rank, concatenated: each is there exactly when present, nothing else is, the ranks increase |
| ProjectLoader.StepLabelSpec | project-loader.js:153 | `StepLabel`: step i is labelled "0" + digit for i + 1 < 10 and the plain number from 10 on; the label has at least two digits and reads back as i + 1 |
| ProjectLoader.StepLabelsDistinct | project-loader.js:151-153 | different steps get different labels |
| ProjectLoader.StepViews | project-loader.js:151-159 | one step view per step, in order, with its label, title and formatted description |
| ProjectLoader.SectionBlock | project-loader.js:120-187 | a section appears exactly when its body is set, with its label or the fixed default |
| ProjectLoader.LeadSections | project-loader.js:120-142 | overview, challenge and discovery give one text block per section whose body is set |
| ProjectLoader.TrailSections | project-loader.js:165-187 | solution, impact and learnings give one text block per section whose body is set |
| ProjectLoader.ContentSectionsSpec | project-loader.js:118-188 | `ContentSections`: one block per section whose body is set plus one for the process section when `process` or `processSteps` is set; only that block is a process block, and it sits right after overview, challenge and discovery |
| ProjectLoader.ProcessBetween | project-loader.js:118-188 | text blocks, at most one process block, text blocks: the process block, if any, is at the position just after the first part |
| ProjectLoader.TextBlocks | project-loader.js:120-187 | three sections in a row give only text blocks |
| ProjectLoader.ProcessSectionSpec | project-loader.js:144-163 | `ProcessSection`: the process section appears exactly when `process` or `processSteps` is set (an empty list counts); the paragraph appears exactly when `process` is set and `processSteps` is not; the numbered list appears exactly when there are steps; never both |
| ProjectLoader.NeighboursSpec | project-loader.js:50-51 | `Previous`, `Next`: previous is missing exactly at position 0 and is otherwise the project before; next is missing exactly at the last position and is otherwise the project after |
| ProjectLoader.NavigationSpec | project-loader.js:220-246 | `NavigationFor`: the navigation appears exactly when there is another project; a missing side is a spacer; a present side links to its neighbour's case study |
| ProjectLoader.ProjectPage.constructor | project-loader.js:11-39 | the page starts blank |
| ProjectLoader.ProjectPage.UpdateFooter | project-loader.js:259-305 | without a footer element nothing changes; otherwise the footer is exactly the `Footer` list of the profile |
| ProjectLoader.ProjectPage.Show | project-loader.js:26-33 | the found-project branch: the title is `PageTitle`, the content is `RenderProject` of the project and its position, and a page with a footer element shows exactly the `Footer` list |
| ProjectLoader.ProjectPage.Init | project-loader.js:17-33 | an unknown id shows only "Project not found" and leaves the title and footer alone; otherwise the title is set, the content is `RenderProject` of the found project and its neighbours, and a page with a footer element shows exactly the `Footer` list |
| Portfolio.Keep | script.js:59 | the kept projects are exactly the input projects whose tag equals the filter, never more than the input |
| Portfolio.KeepSpec | script.js:59 | the result is an order-preserving subsequence of the input, and every matching project is kept as often as it occurs |
| Portfolio.SubsequenceSkip | script.js:59 | a subsequence of a list stays one after an element is put in front |
| Portfolio.SubsequenceDrop | script.js:59 | dropping the first element of a subsequence keeps it a subsequence |
| Portfolio.KeepAppend | script.js:59 | filtering decides project by project: filtering a concatenation concatenates the results |
| Portfolio.KeepIdempotent | script.js:59 | filtering twice with the same tag equals filtering once |
| Portfolio.FilterSpec | script.js:53-62 | `Filter`: `'all'` returns the list unchanged; any other filter returns exactly the projects with that tag; re-filtering changes nothing |
| Portfolio.CardLinks | script.js:96-139 | `CardFor`: cover and header link go to the external page (new tab) when set, otherwise `project.html?id=<id>`; the release link is the release notes when set, otherwise that same target; an untagged card has an empty tag attribute |
| Portfolio.CardsFor | script.js:95-142 | one card per project, in input order |
| Portfolio.ProfileFor | script.js:74-76 | the picture is shown exactly when `profileImage` is set, otherwise the initials |
| Portfolio.PreviousTextRoundTrip | script.js:71 | the ", "-joined company list splits back into the same companies with the tag rule of project-loader.js:103-105, for names without commas or surrounding whitespace |
| Portfolio.JoinCommaSpace | script.js:71 | joining with ", " is joining with "," after putting a space before every name but the first |
| Portfolio.PortfolioPage.constructor | script.js:6-7 | the list starts empty and the filter starts as `'all'` |
| Portfolio.PortfolioPage.RenderProjects | script.js:91-143 | without a `.projects` section nothing changes; otherwise the cards are those of the given projects |
| Portfolio.PortfolioPage.FilterProjects | script.js:53-64 | the cards shown are those of the filtered list |
| Portfolio.PortfolioPage.RenderFooter | script.js:146-193 | without a footer element nothing changes; otherwise the footer is exactly the `Footer` list of the profile |
| Portfolio.PortfolioPage.OnPillClick | script.js:40-48 | only the pills' classes, the filter and the cards may change; afterwards exactly the clicked pill is `active`, no other class of any pill changed, the filter is the clicked pill's `data-filter`, and the list shows the filtered projects |
| Portfolio.PortfolioPage.Init | script.js:10-29 | the projects are stored and shown unfiltered, and a page with a footer element shows exactly the `Footer` list |
| Portfolio.InitAnimations | script.js:196-231 | only the classes and delays of the cards and pills and the footer's classes may change; card i gets delay i × 0.1 s and pill i gets i × 0.05 s; every card, pill and the footer gets `scroll-animate` |
| Dom.StaggerIncreasing | script.js:213-223 | with a positive interval a later index starts strictly later (cards, pills and reveal spans alike) |
| Dom.TextContentSnoc | interactions.js:204 | appending a node appends its text to the element's text |

## Left out

- `fetch`, JSON parsing and the `try`/`catch` paths of both page scripts are I/O. The model takes the parsed catalogue as input. The "Error loading project" message is not modelled.
- Selector matching, `innerHTML` markup, `addEventListener` and the browser's event dispatch are not modelled. The elements a query would return are parameters, and each listener is a method that a caller invokes.
- CSS text is left out: transform strings, gradients, transition strings and `cssText`. The model keeps the numbers and choices that the CSS would carry. The TiltCard constants `perspective`, `speed` and `glareOpacity` appear only in CSS text.
- Floating point is out of scope; arithmetic is exact `real`. No claim is made about rounding or `NaN`.
- Tilt.TiltCard.OnMouseMove: requires the snapshot to have positive width and height. For a zero-sized box the source divides by zero, giving `NaN`/`Infinity`, which exact reals cannot express.
- `requestAnimationFrame` makes the cursor animate forever. The model has one frame (`Animate`), and lemmas about repeated frames over the fixed-target sequence `EaseSteps`.
- Timers are not modelled: `setTimeout` in `runInit`, the 100 ms tilt delay and the work page's staggered description delays. A scheduled tilt pass is counted (`OnMutations`) rather than run.
- `IntersectionObserver` and `MutationObserver` delivery is not modelled. Their callbacks are methods that take the entries or records as arguments.
- A mutation record is given only by its number of added nodes.
- `initTextReveal` creates fixed-preset reveals for the work page title, its descriptions and the about-page title. Only the footer heading's trigger is modelled. The other presets are ordinary `TextReveal` constructions with constant options.
- Bootstrap.RunInit: does not perform the text reveals of `initTextReveal`, for the reason above; neither does `RunInitCorrected`.
- Strings.Chars: characters are Unicode scalar values, while `split('')` splits UTF-16 code units. The two differ for text outside the Basic Multilingual Plane: "Hi😀" has four code units, and `split('')` yields four pieces, two of them lone surrogates, where `Chars` yields three.
- CharsShape: inherits that difference from `Chars`; for text outside the Basic Multilingual Plane the source creates one span per code unit, the model one per scalar value.
- RevealedCharsShape: inherits the same difference, at every round of the loop.
- The cursor's full hover-listener set is not modelled. Its attachment over `a, button, .project-card, …` is a selector query; `SetHoverState` is the listener body.
- `textContent` counts only text and span children. An element child contributes no text in this model. The elements the model reveals hold only text.
- Cover media is not modelled: the hero video or image, cover videos, preview colours and labels, and the custom media sections of project-loader.js:192-217. They are presentation markup with no decisions beyond presence, and `encodeURI` is a library call.
- Section titles are kept as strings; the `<h2>` wrapper is markup.
- The projects page's `initScrollAnimations`, the `visible`/`in-view` classes added by observers, the preview-card hover scale, `initScrollProgress` and the body `loaded` class are presentation. They are tied to observer or scroll timing.
- `Date().getFullYear()` in the footer is a clock read. `console.log` and the `window.PortfolioInteractions` export are left out.
- `renderProfile` (script.js:67-88) is defined but never called by the page script. It is modelled as the pure function `ProfileFor`, with no page state.
- Element identity across a re-render is not modelled. `FilterProjects` yields card values. `InitAnimations`, which the source re-runs after each filter, takes the card elements as a parameter.
- The model's text of the footer buttons is the link only. Icons and labels are markup.

## Findings

| source | as written | input that shows it | evidently intended | confidence | as-written member | corrected member |
|---|---|---|---|---|---|---|
| interactions.js:441-479 | The tilt controller appends its glare layer inside each `.project-card` (lines 123-124). The mutation observer watches `.projects` with `childList` and `subtree`. Each appended glare is therefore a record with added nodes, and each such record schedules another `initTiltCards`. That pass binds every card again, with no guard, appending another glare to each card and scheduling further passes without end. With N cards one pass appends N glare layers, giving N records; each schedules its own pass, so the pending passes multiply by N every round. | A home page with one `.project-card` inside `.projects`, on a non-touch device. The start-up pass adds one glare and yields one record. That record schedules a second pass, which adds a second glare and yields another record. | Re-binding after a re-render should bind only new cards, so each card carries one glare layer and the watcher settles. The model marks bound cards with a `tilt-processed` class, as `TextReveal` does with its marker. | not executed | Bootstrap.InitTiltCards, Bootstrap.TiltPassRetriggersAsWritten | Bootstrap.InitNewTiltCards, Bootstrap.TiltPassSettlesCorrected |

`InitTiltCards` and `RunInit` model the code as written. `InitNewTiltCards`
and `RunInitCorrected` use the corrected pass.
