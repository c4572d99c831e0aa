/** The case-study page (project-loader.js): finding the requested project,
    the page title, the text formatting, the sidebar and content sections,
    the numbered process steps, the neighbour navigation and the footer. */
module ProjectLoader {
  import opened Wrappers
  import opened Strings
  import opened Catalog

  // ----- formatContent -----

  const ParagraphBreak: string := "</p><p>"
  const LineBreak: string := "<br>"

  /** `replace(/\n\n/g, '</p><p>')`: non-overlapping pairs, left to right. */
  function ReplaceParagraphs(s: string): string
    decreases |s|
  {
    if |s| < 2 then s
    else if s[0] == '\n' && s[1] == '\n' then ParagraphBreak + ReplaceParagraphs(s[2..])
    else [s[0]] + ReplaceParagraphs(s[1..])
  }

  /** `replace(/\n/g, '<br>')`. */
  function ReplaceBreaks(s: string): string
    decreases |s|
  {
    if |s| == 0 then "" else BreakOf(s[0]) + ReplaceBreaks(s[1..])
  }

  /** What the second replacement turns one character into. */
  function BreakOf(c: char): string {
    if c == '\n' then LineBreak else [c]
  }

  /** `formatContent`: "" for an empty or missing text; otherwise blank lines
      become paragraph breaks and the remaining newlines line breaks, so no
      newline is left. */
  function FormatContent(text: string): (r: string)
    ensures text == "" ==> r == ""
    ensures '\n' !in r
  {
    if text == "" then ""
    else
      var paragraphs := ReplaceParagraphs(text);
      ReplaceBreaksNoNewline(paragraphs);
      ReplaceBreaks(paragraphs)
  }

  /** Both replacements as one left-to-right pass. */
  function FormatOnePass(s: string): string
    decreases |s|
  {
    if |s| == 0 then ""
    else if |s| >= 2 && s[0] == '\n' && s[1] == '\n' then ParagraphBreak + FormatOnePass(s[2..])
    else if s[0] == '\n' then LineBreak + FormatOnePass(s[1..])
    else [s[0]] + FormatOnePass(s[1..])
  }

  /** The inverse reading: paragraph breaks back to blank lines, line breaks
      back to newlines. */
  function Unformat(r: string): string
    decreases |r|
  {
    if |r| == 0 then ""
    else if |r| >= 7 && r[..7] == ParagraphBreak then "\n\n" + Unformat(r[7..])
    else if |r| >= 4 && r[..4] == LineBreak then "\n" + Unformat(r[4..])
    else [r[0]] + Unformat(r[1..])
  }

  lemma {:induction false} ReplaceBreaksAppend(a: string, b: string)
    ensures ReplaceBreaks(a + b) == ReplaceBreaks(a) + ReplaceBreaks(b)
    decreases |a|
  {
    if |a| == 0 {
      assert a + b == b;
    } else {
      var c, rest := a[0], a[1..];
      assert a == [c] + rest;
      assert a + b == [c] + (rest + b);
      calc {
        ReplaceBreaks(a + b);
        == { ReplaceBreaksCons(c, rest + b); }
        BreakOf(c) + ReplaceBreaks(rest + b);
        == { ReplaceBreaksAppend(rest, b); }
        BreakOf(c) + (ReplaceBreaks(rest) + ReplaceBreaks(b));
        == (BreakOf(c) + ReplaceBreaks(rest)) + ReplaceBreaks(b);
        == { ReplaceBreaksCons(c, rest); }
        ReplaceBreaks(a) + ReplaceBreaks(b);
      }
    }
  }

  lemma ReplaceBreaksCons(c: char, s: string)
    ensures ReplaceBreaks([c] + s) == BreakOf(c) + ReplaceBreaks(s)
  {
    assert ([c] + s)[1..] == s;
  }

  /** The second replacement leaves no newline. */
  lemma {:induction false} ReplaceBreaksNoNewline(s: string)
    ensures '\n' !in ReplaceBreaks(s)
    decreases |s|
  {
    if |s| > 0 {
      ReplaceBreaksNoNewline(s[1..]);
      assert '\n' !in BreakOf(s[0]);
    }
  }

  /** Text without newlines passes the second replacement unchanged. */
  lemma {:induction false} ReplaceBreaksIdentity(s: string)
    requires '\n' !in s
    ensures ReplaceBreaks(s) == s
    decreases |s|
  {
    if |s| > 0 {
      assert '\n' !in s[1..] by {
        forall k | 0 <= k < |s[1..]| ensures s[1..][k] != '\n' {
          assert s[1..][k] == s[k + 1];
        }
      }
      ReplaceBreaksIdentity(s[1..]);
      assert s == [s[0]] + s[1..];
    }
  }

  /** The two `replace` calls in sequence equal the single pass. */
  lemma {:induction false} TwoPassesAreOne(s: string)
    ensures ReplaceBreaks(ReplaceParagraphs(s)) == FormatOnePass(s)
    decreases |s|
  {
    if |s| == 0 {
    } else if |s| == 1 {
      assert ReplaceBreaks(s) == BreakOf(s[0]) + ReplaceBreaks(s[1..]);
      assert FormatOnePass(s) == BreakOf(s[0]) + FormatOnePass(s[1..]);
    } else if s[0] == '\n' && s[1] == '\n' {
      TwoPassesAreOne(s[2..]);
      ReplaceBreaksAppend(ParagraphBreak, ReplaceParagraphs(s[2..]));
      ReplaceBreaksIdentity(ParagraphBreak);
    } else {
      TwoPassesAreOne(s[1..]);
      ReplaceBreaksAppend([s[0]], ReplaceParagraphs(s[1..]));
      assert ReplaceBreaks([s[0]]) == BreakOf(s[0]) by {
        assert [s[0]][1..] == [];
      }
      if s[0] == '\n' {
        // the second character is not a newline here, so the pair rule does not apply
        assert FormatOnePass(s) == LineBreak + FormatOnePass(s[1..]);
      }
    }
  }

  /** For text without markup, formatting loses nothing: reading the result
      back gives the original text, blank lines and newlines included. */
  lemma {:induction false} FormatRoundTrip(s: string)
    requires '<' !in s
    ensures Unformat(FormatContent(s)) == s
  {
    if s != "" {
      TwoPassesAreOne(s);
      UnformatOnePass(s);
    }
  }

  lemma {:induction false} UnformatOnePass(s: string)
    requires '<' !in s
    ensures Unformat(FormatOnePass(s)) == s
    decreases |s|
  {
    if |s| == 0 {
    } else if |s| >= 2 && s[0] == '\n' && s[1] == '\n' {
      UnformatParagraph(FormatOnePass(s[2..]));
      UnformatOnePass(s[2..]);
      assert s == "\n\n" + s[2..];
    } else if s[0] == '\n' {
      UnformatLineBreak(FormatOnePass(s[1..]));
      UnformatOnePass(s[1..]);
      assert s == "\n" + s[1..];
    } else {
      UnformatPlain(s[0], FormatOnePass(s[1..]));
      UnformatOnePass(s[1..]);
      assert s == [s[0]] + s[1..];
    }
  }

  lemma UnformatParagraph(rest: string)
    ensures Unformat(ParagraphBreak + rest) == "\n\n" + Unformat(rest)
  {
    var r := ParagraphBreak + rest;
    assert r[..7] == ParagraphBreak && r[7..] == rest;
  }

  lemma UnformatLineBreak(rest: string)
    ensures Unformat(LineBreak + rest) == "\n" + Unformat(rest)
  {
    var r := LineBreak + rest;
    assert r[..4] == LineBreak && r[4..] == rest;
    assert |r| >= 7 ==> r[..7][1] == 'b' && ParagraphBreak[1] == '/';
  }

  lemma UnformatPlain(c: char, rest: string)
    requires c != '<'
    ensures Unformat([c] + rest) == [c] + Unformat(rest)
  {
    var r := [c] + rest;
    assert r[1..] == rest;
    assert |r| >= 7 ==> r[..7][0] == c;
    assert |r| >= 4 ==> r[..4][0] == c;
  }

  // ----- finding the project -----

  function Matches(p: Project, projectId: Option<string>): bool {
    projectId == Some(p.id)
  }

  /** `projects.findIndex(p => p.id === projectId)`: the first matching
      position, or -1. A missing `id` parameter matches nothing. */
  function FindIndex(projects: seq<Project>, projectId: Option<string>): (r: int)
    ensures -1 <= r < |projects|
    ensures r >= 0 ==> Matches(projects[r], projectId)
    ensures r >= 0 ==> forall k :: 0 <= k < r ==> !Matches(projects[k], projectId)
    ensures r == -1 <==> forall k :: 0 <= k < |projects| ==> !Matches(projects[k], projectId)
    decreases |projects|
  {
    if |projects| == 0 then -1
    else if Matches(projects[0], projectId) then 0
    else
      var r := FindIndex(projects[1..], projectId);
      assert forall k :: 1 <= k < |projects| ==> projects[k] == projects[1..][k - 1];
      if r == -1 then -1 else r + 1
  }

  /** `projects.find(p => p.id === projectId)`. */
  function Find(projects: seq<Project>, projectId: Option<string>): Option<Project>
    decreases |projects|
  {
    if |projects| == 0 then None
    else if Matches(projects[0], projectId) then Some(projects[0])
    else Find(projects[1..], projectId)
  }

  /** `find` and `findIndex` agree: the project shown is the one at the
      position used for the navigation. */
  lemma {:induction false} FindAgrees(projects: seq<Project>, projectId: Option<string>)
    ensures var i := FindIndex(projects, projectId);
      Find(projects, projectId) == if i >= 0 then Some(projects[i]) else None
    decreases |projects|
  {
    if |projects| > 0 && !Matches(projects[0], projectId) {
      FindAgrees(projects[1..], projectId);
    }
  }

  // ----- the page -----

  /** `${project.title} · ${profile.name}`. */
  function PageTitle(project: Project, profile: Profile): (r: string)
    ensures |r| == |project.title| + 3 + |profile.name|
    ensures r[..|project.title|] == project.title
    ensures r[|project.title|..|project.title| + 3] == " · "
    ensures r[|project.title| + 3..] == profile.name
  {
    project.title + " · " + profile.name
  }

  /** `label || fallback`. */
  function LabelOr(given: string, fallback: string): string {
    if given != "" then given else fallback
  }

  /** One entry of the sidebar. */
  /** The five groups of the sidebar, in display order. */
  datatype DetailKind = Role | Timeline | Team | Responsibilities | Tools

  /** The text of a group's `detail-label`. */
  function Label(k: DetailKind): string {
    match k
    case Role => "Role"
    case Timeline => "Timeline"
    case Team => "Team"
    case Responsibilities => "Responsibilities"
    case Tools => "Tools"
  }

  datatype DetailGroup = DetailValue(kind: DetailKind, html: string) | DetailTags(kind: DetailKind, tags: seq<string>)

  /** The responsibilities tags: one per comma-separated piece, trimmed. */
  function Tags(responsibilities: string): seq<string> {
    var pieces := Split(responsibilities, ',');
    seq(|pieces|, i requires 0 <= i < |pieces| => Trim(pieces[i]))
  }

  /** There are commas + 1 tags, in order, each the trimmed piece between
      two commas, none containing a comma, none starting or ending with
      whitespace. */
  lemma TagsSpec(responsibilities: string)
    ensures var tags, pieces := Tags(responsibilities), Split(responsibilities, ',');
      |tags| == Occurrences(responsibilities, ',') + 1 &&
      forall i :: 0 <= i < |tags| ==>
        tags[i] == Trim(pieces[i]) && ',' !in tags[i] &&
        (|tags[i]| > 0 ==> !IsWhitespace(tags[i][0]) && !IsWhitespace(tags[i][|tags[i]| - 1]))
  {
    SplitCount(responsibilities, ',');
    var pieces := Split(responsibilities, ',');
    forall i | 0 <= i < |pieces|
      ensures ',' !in Trim(pieces[i])
      ensures var t := Trim(pieces[i]); |t| > 0 ==> !IsWhitespace(t[0]) && !IsWhitespace(t[|t| - 1])
    {
      TrimSpec(pieces[i]);
      var t := Trim(pieces[i]);
      var at := |pieces[i]| - |TrimStart(pieces[i])|;
      assert forall k :: 0 <= k < |t| ==> t[k] == pieces[i][at + k];
    }
  }

  /** A group that is shown only when `present` holds. */
  function Entry(present: bool, g: DetailGroup): seq<DetailGroup> {
    if present then [g] else []
  }

  /** Position of a group in the sidebar. */
  function GroupRank(g: DetailGroup): nat {
    match g.kind
    case Role => 0
    case Timeline => 1
    case Team => 2
    case Responsibilities => 3
    case Tools => 4
  }

  predicate InRankOrder(s: seq<DetailGroup>) {
    forall i, j :: 0 <= i < j < |s| ==> GroupRank(s[i]) < GroupRank(s[j])
  }

  /** Appending an optional group of a higher rank keeps the order. */
  lemma AppendEntry(s: seq<DetailGroup>, present: bool, g: DetailGroup)
    requires InRankOrder(s) && forall x :: x in s ==> GroupRank(x) < GroupRank(g)
    ensures InRankOrder(s + Entry(present, g))
    ensures forall x :: x in s + Entry(present, g) <==> x in s || (present && x == g)
    ensures forall x :: x in s + Entry(present, g) ==> GroupRank(x) <= GroupRank(g)
  {
    var t := s + Entry(present, g);
    forall i, j | 0 <= i < j < |t| ensures GroupRank(t[i]) < GroupRank(t[j]) {
      if j >= |s| {
        assert t[i] in s && t[j] == g;
      }
    }
  }

  /** Five optional groups of ranks 0 to 4, concatenated: each is there
      exactly when it is present, nothing else is, and the ranks increase. */
  lemma FiveEntries(p0: bool, g0: DetailGroup, p1: bool, g1: DetailGroup, p2: bool, g2: DetailGroup,
                    p3: bool, g3: DetailGroup, p4: bool, g4: DetailGroup)
    requires GroupRank(g0) == 0 && GroupRank(g1) == 1 && GroupRank(g2) == 2
    requires GroupRank(g3) == 3 && GroupRank(g4) == 4
    ensures var r := Entry(p0, g0) + Entry(p1, g1) + Entry(p2, g2) + Entry(p3, g3) + Entry(p4, g4);
      (g0 in r <==> p0) && (g1 in r <==> p1) && (g2 in r <==> p2) && (g3 in r <==> p3) && (g4 in r <==> p4) &&
      (forall g :: g in r ==> g in {g0, g1, g2, g3, g4}) &&
      InRankOrder(r)
  {
    var s0 := Entry(p0, g0);
    assert forall x :: x in s0 <==> p0 && x == g0;
    AppendEntry(s0, p1, g1);
    var s1 := s0 + Entry(p1, g1);
    AppendEntry(s1, p2, g2);
    var s2 := s1 + Entry(p2, g2);
    AppendEntry(s2, p3, g3);
    var s3 := s2 + Entry(p3, g3);
    AppendEntry(s3, p4, g4);
    var r := s3 + Entry(p4, g4);
    assert forall x :: x in r <==>
      (p0 && x == g0) || (p1 && x == g1) || (p2 && x == g2) || (p3 && x == g3) || (p4 && x == g4);
  }

  /** The sidebar: role, timeline, team, responsibilities and tools, each
      present exactly when its field is set. */
  function Sidebar(d: Details): (r: seq<DetailGroup>)
    ensures |r| == CountIf(d.role != "") + CountIf(d.timeline != "") + CountIf(d.teamDescription != "")
                   + CountIf(d.responsibilities != "") + CountIf(d.tools != "")
  {
    Entry(d.role != "", DetailValue(Role, FormatContent(d.role)))
      + Entry(d.timeline != "", DetailValue(Timeline, FormatContent(d.timeline)))
      + Entry(d.teamDescription != "", DetailValue(Team, FormatContent(d.teamDescription)))
      + Entry(d.responsibilities != "", DetailTags(Responsibilities, Tags(d.responsibilities)))
      + Entry(d.tools != "", DetailValue(Tools, FormatContent(d.tools)))
  }

  /** Each group is in the sidebar exactly when its field is set, with its
      own content; no other group is; and the groups keep the order role,
      timeline, team, responsibilities, tools. */
  lemma SidebarSpec(d: Details)
    ensures var r := Sidebar(d);
      (DetailValue(Role, FormatContent(d.role)) in r <==> d.role != "") &&
      (DetailValue(Timeline, FormatContent(d.timeline)) in r <==> d.timeline != "") &&
      (DetailValue(Team, FormatContent(d.teamDescription)) in r <==> d.teamDescription != "") &&
      (DetailTags(Responsibilities, Tags(d.responsibilities)) in r <==> d.responsibilities != "") &&
      (DetailValue(Tools, FormatContent(d.tools)) in r <==> d.tools != "") &&
      (forall g :: g in r ==>
        g in {DetailValue(Role, FormatContent(d.role)), DetailValue(Timeline, FormatContent(d.timeline)),
              DetailValue(Team, FormatContent(d.teamDescription)),
              DetailTags(Responsibilities, Tags(d.responsibilities)), DetailValue(Tools, FormatContent(d.tools))}) &&
      InRankOrder(r)
  {
    FiveEntries(d.role != "", DetailValue(Role, FormatContent(d.role)),
                d.timeline != "", DetailValue(Timeline, FormatContent(d.timeline)),
                d.teamDescription != "", DetailValue(Team, FormatContent(d.teamDescription)),
                d.responsibilities != "", DetailTags(Responsibilities, Tags(d.responsibilities)),
                d.tools != "", DetailValue(Tools, FormatContent(d.tools)));
  }

  // ----- numbered process steps -----

  /** `String(index + 1).padStart(2, '0')`. */
  function StepLabel(index: nat): string {
    PadStart(NatToString(index + 1), 2, '0')
  }

  /** Step labels are "01" to "09", then the plain number from "10" on; at
      least two digits, and they read back as index + 1. */
  lemma StepLabelSpec(index: nat)
    ensures var r := StepLabel(index);
      |r| >= 2 && IsDigits(r) && DecimalValue(r) == index + 1 &&
      (index + 1 < 10 ==> r == ['0', DigitChar(index + 1)]) &&
      (index + 1 >= 10 ==> r == NatToString(index + 1))
  {
    var n := index + 1;
    var s := NatToString(n);
    DecimalValueOfNat(n);
    if n < 10 {
      assert Repeat('0', 1) == ['0'];
      DecimalValueLeadingZeros(1, s);
    }
  }

  /** Distinct steps get distinct labels. */
  lemma StepLabelsDistinct(i: nat, j: nat)
    requires i != j
    ensures StepLabel(i) != StepLabel(j)
  {
    StepLabelSpec(i);
    StepLabelSpec(j);
  }

  datatype StepView = StepView(number: string, title: string, description: string)

  function StepViews(steps: seq<Step>): (r: seq<StepView>)
    ensures |r| == |steps|
    ensures forall i :: 0 <= i < |steps| ==>
      r[i] == StepView(StepLabel(i), steps[i].title, FormatContent(steps[i].description))
  {
    seq(|steps|, i requires 0 <= i < |steps| =>
      StepView(StepLabel(i), steps[i].title, FormatContent(steps[i].description)))
  }

  // ----- content sections -----

  datatype ContentBlock =
    | TextBlock(heading: string, title: string, body: string)
    | ProcessBlock(heading: string, title: string, paragraph: Option<string>, steps: seq<StepView>)

  /** A section appears when its body is set; its label falls back to the
      fixed default. */
  function SectionBlock(s: Section, defaultLabel: string): (r: seq<ContentBlock>)
    ensures |r| == CountIf(s.body != "")
    ensures s.body != "" ==> r[0] == TextBlock(LabelOr(s.sectionLabel, defaultLabel), s.title, FormatContent(s.body))
  {
    if s.body == "" then [] else [TextBlock(LabelOr(s.sectionLabel, defaultLabel), s.title, FormatContent(s.body))]
  }

  /** The design process section: shown when `process` or `processSteps` is
      set (an empty steps list counts as set); the plain paragraph only when
      `process` is set and `processSteps` is not; the numbered list only
      when there are steps. */
  function ProcessSection(d: Details): seq<ContentBlock> {
    if d.process == "" && d.processSteps.None? then []
    else [ProcessBlock(
      LabelOr(d.processLabel, "Design Process"),
      d.processTitle,
      if d.process != "" && d.processSteps.None? then Some(FormatContent(d.process)) else None,
      if d.processSteps.Some? && |d.processSteps.value| > 0 then StepViews(d.processSteps.value) else [])]
  }

  lemma ProcessSectionSpec(d: Details)
    ensures |ProcessSection(d)| == CountIf(d.process != "" || d.processSteps.Some?)
    ensures ProcessSection(d) != [] ==>
      var b := ProcessSection(d)[0];
      b.ProcessBlock? &&
      (b.paragraph.Some? <==> d.process != "" && d.processSteps.None?) &&
      (|b.steps| > 0 <==> d.processSteps.Some? && |d.processSteps.value| > 0) &&
      !(b.paragraph.Some? && |b.steps| > 0) &&
      b.heading == (if d.processLabel == "" then "Design Process" else d.processLabel)
  {
  }

  /** Overview, challenge and discovery: one text block per section set. */
  function LeadSections(d: Details): (r: seq<ContentBlock>)
    ensures |r| == CountIf(d.overview.body != "") + CountIf(d.challenge.body != "") + CountIf(d.discovery.body != "")
    ensures forall i :: 0 <= i < |r| ==> r[i].TextBlock?
  {
    TextBlocks(d.overview, "Overview", d.challenge, "The Challenge", d.discovery, "Discovery");
    SectionBlock(d.overview, "Overview") + SectionBlock(d.challenge, "The Challenge")
      + SectionBlock(d.discovery, "Discovery")
  }

  /** Solution, impact and learnings: one text block per section set. */
  function TrailSections(d: Details): (r: seq<ContentBlock>)
    ensures |r| == CountIf(d.solution.body != "") + CountIf(d.impact.body != "") + CountIf(d.learnings.body != "")
    ensures forall i :: 0 <= i < |r| ==> r[i].TextBlock?
  {
    TextBlocks(d.solution, "The Solution", d.impact, "Results", d.learnings, "Reflection");
    SectionBlock(d.solution, "The Solution") + SectionBlock(d.impact, "Results")
      + SectionBlock(d.learnings, "Reflection")
  }

  /** The main column, in page order. */
  function ContentSections(d: Details): seq<ContentBlock> {
    LeadSections(d) + ProcessSection(d) + TrailSections(d)
  }

  /** One block per section whose body is set, plus the process section;
      only the process section is a process block, and it comes right after
      overview, challenge and discovery. */
  lemma ContentSectionsSpec(d: Details)
    ensures var r := ContentSections(d);
      var before := CountIf(d.overview.body != "") + CountIf(d.challenge.body != "") + CountIf(d.discovery.body != "");
      |r| == before + CountIf(d.process != "" || d.processSteps.Some?)
             + CountIf(d.solution.body != "") + CountIf(d.impact.body != "") + CountIf(d.learnings.body != "") &&
      forall i :: 0 <= i < |r| ==> (r[i].ProcessBlock? <==> (d.process != "" || d.processSteps.Some?) && i == before)
  {
    ProcessSectionSpec(d);
    ProcessBetween(LeadSections(d), ProcessSection(d), TrailSections(d));
  }

  /** Text blocks, at most one process block, text blocks: the process
      block, if any, sits right after the first part. */
  lemma ProcessBetween(first: seq<ContentBlock>, process: seq<ContentBlock>, last: seq<ContentBlock>)
    requires forall i :: 0 <= i < |first| ==> first[i].TextBlock?
    requires forall i :: 0 <= i < |last| ==> last[i].TextBlock?
    requires |process| <= 1 && (|process| == 1 ==> process[0].ProcessBlock?)
    ensures var r := first + process + last;
      forall i :: 0 <= i < |r| ==> (r[i].ProcessBlock? <==> |process| == 1 && i == |first|)
  {
    var r := first + process + last;
    forall i | 0 <= i < |r| ensures r[i].ProcessBlock? <==> |process| == 1 && i == |first| {
      if i < |first| {
        assert r[i] == first[i];
      } else if i < |first| + |process| {
        assert r[i] == process[i - |first|];
      } else {
        assert r[i] == last[i - |first| - |process|];
      }
    }
  }

  /** Three sections in a row give only text blocks. */
  lemma TextBlocks(a: Section, la: string, b: Section, lb: string, c: Section, lc: string)
    ensures var r := SectionBlock(a, la) + SectionBlock(b, lb) + SectionBlock(c, lc);
      forall i :: 0 <= i < |r| ==> r[i].TextBlock?
  {
    var r := SectionBlock(a, la) + SectionBlock(b, lb) + SectionBlock(c, lc);
    forall i | 0 <= i < |r| ensures r[i].TextBlock? {
      var x, y := SectionBlock(a, la), SectionBlock(b, lb);
      if i < |x| {
        assert r[i] == x[0];
      } else if i < |x| + |y| {
        assert r[i] == y[0];
      } else {
        assert r[i] == SectionBlock(c, lc)[0];
      }
    }
  }

  // ----- neighbours -----

  /** `projectIndex > 0 ? allProjects[projectIndex - 1] : null`. */
  function Previous(all: seq<Project>, index: nat): Option<Project>
    requires index < |all|
  {
    if index > 0 then Some(all[index - 1]) else None
  }

  /** `projectIndex < allProjects.length - 1 ? allProjects[projectIndex + 1] : null`. */
  function Next(all: seq<Project>, index: nat): Option<Project>
    requires index < |all|
  {
    if index < |all| - 1 then Some(all[index + 1]) else None
  }

  lemma NeighboursSpec(all: seq<Project>, index: nat)
    requires index < |all|
    ensures Previous(all, index).None? <==> index == 0
    ensures Previous(all, index).Some? ==> Previous(all, index).value == all[index - 1]
    ensures Next(all, index).None? <==> index == |all| - 1
    ensures Next(all, index).Some? ==> Next(all, index).value == all[index + 1]
  {
  }

  datatype NavSlot = NavCard(href: string, title: string, meta: string) | Spacer

  datatype Navigation = Navigation(prev: NavSlot, next: NavSlot)

  function DetailHref(id: string): string {
    "project.html?id=" + id
  }

  /** A neighbour's card: its page, title, and company with the date if any. */
  function Slot(p: Option<Project>): NavSlot {
    if p.None? then Spacer
    else NavCard(DetailHref(p.value.id), p.value.title,
                 p.value.company + (if p.value.date != "" then " · " + p.value.date else ""))
  }

  function NavigationFor(all: seq<Project>, index: nat): Option<Navigation>
    requires index < |all|
  {
    var prev, next := Previous(all, index), Next(all, index);
    if prev.None? && next.None? then None else Some(Navigation(Slot(prev), Slot(next)))
  }

  /** The navigation appears exactly when the catalogue has another project;
      a missing side is a spacer, a present side links to its neighbour. */
  lemma NavigationSpec(all: seq<Project>, index: nat)
    requires index < |all|
    ensures NavigationFor(all, index).None? <==> |all| == 1
    ensures NavigationFor(all, index).Some? ==>
      var nav := NavigationFor(all, index).value;
      (nav.prev == Spacer <==> index == 0) &&
      (nav.next == Spacer <==> index == |all| - 1) &&
      (index > 0 ==> nav.prev.href == DetailHref(all[index - 1].id)) &&
      (index < |all| - 1 ==> nav.next.href == DetailHref(all[index + 1].id))
  {
  }

  // ----- the rendered page -----

  datatype ProjectView = ProjectView(
    company: string,
    sector: string,
    title: string,
    tagline: string,
    sidebar: seq<DetailGroup>,
    sections: seq<ContentBlock>,
    navigation: Option<Navigation>)

  /** `renderProject` without the media markup. */
  function RenderProject(project: Project, index: nat, all: seq<Project>): ProjectView
    requires index < |all|
  {
    ProjectView(project.company, project.sector, project.title, FormatContent(project.details.tagline),
                Sidebar(project.details), ContentSections(project.details), NavigationFor(all, index))
  }

  datatype Content = Blank | ErrorState(message: string) | Rendered(view: ProjectView)

  /** The state of the detail page that `initProjectPage` writes. */
  class ProjectPage {
    /** Whether the page has a `#site-footer` element. */
    const hasFooter: bool
    var documentTitle: string
    var content: Content
    var footer: Option<seq<FooterButton>>

    constructor (hasFooter: bool, documentTitle: string)
      ensures this.hasFooter == hasFooter && this.documentTitle == documentTitle
      ensures content == Blank && footer == None
    {
      this.hasFooter := hasFooter;
      this.documentTitle := documentTitle;
      content := Blank;
      footer := None;
    }

    /** `updateFooter`: nothing without a footer element. */
    method UpdateFooter(profile: Profile)
      modifies this`footer
      ensures !hasFooter ==> footer == old(footer)
      ensures hasFooter ==> footer == Some(Footer(profile))
    {
      if !hasFooter {
        return;
      }
      var buttons := FooterButtons(profile);
      footer := Some(buttons);
    }

    /** `initProjectPage` once the catalogue is loaded: an unknown id shows
        only the error state; otherwise the title is set, the found project
        is rendered with its neighbours, and the footer is filled. */
    method Init(projects: seq<Project>, profile: Profile, projectId: Option<string>)
      modifies this`documentTitle, this`content, this`footer
      ensures FindIndex(projects, projectId) == -1 ==>
        content == ErrorState("Project not found") &&
        documentTitle == old(documentTitle) && footer == old(footer)
      ensures FindIndex(projects, projectId) >= 0 ==>
        var i := FindIndex(projects, projectId);
        documentTitle == PageTitle(projects[i], profile) &&
        content == Rendered(RenderProject(projects[i], i, projects)) &&
        (hasFooter ==> footer == Some(Footer(profile))) && (!hasFooter ==> footer == old(footer))
    {
      var project := Find(projects, projectId);
      var projectIndex := FindIndex(projects, projectId);
      FindAgrees(projects, projectId);
      if project.None? {
        content := ErrorState("Project not found");
        return;
      }
      Show(project.value, projectIndex, projects, profile);
    }

    /** The found branch of `initProjectPage`: title, rendered page, footer. */
    method Show(project: Project, index: nat, all: seq<Project>, profile: Profile)
      requires index < |all|
      modifies this`documentTitle, this`content, this`footer
      ensures documentTitle == PageTitle(project, profile)
      ensures content == Rendered(RenderProject(project, index, all))
      ensures hasFooter ==> footer == Some(Footer(profile))
      ensures !hasFooter ==> footer == old(footer)
    {
      documentTitle := project.title + " · " + profile.name;
      content := Rendered(RenderProject(project, index, all));
      UpdateFooter(profile);
    }
  }
}
