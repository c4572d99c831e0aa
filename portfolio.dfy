/** The home page (script.js): the project list with its filter pills, the
    project cards, the staggered entrance animation, the footer and the
    profile header. */
module Portfolio {
  import opened Wrappers
  import opened Strings
  import opened Dom
  import opened Catalog
  import ProjectLoader

  const AllFilter: string := "all"
  const ActiveClass: string := "active"
  const ScrollAnimateClass: string := "scroll-animate"
  /** Seconds between the entrance of two consecutive cards, and of two pills. */
  const CardInterval: real := 0.1
  const PillInterval: real := 0.05

  // ----- filtering -----

  /** `projects.filter(project => project.filterTag === filter)`. A pill
      without `data-filter` (None) keeps the projects without a tag, as
      `undefined === undefined` does. */
  function Keep(projects: seq<Project>, filter: Option<string>): (r: seq<Project>)
    ensures |r| <= |projects|
    ensures forall p :: p in r <==> p in projects && p.filterTag == filter
    decreases |projects|
  {
    if |projects| == 0 then []
    else if projects[0].filterTag == filter then [projects[0]] + Keep(projects[1..], filter)
    else Keep(projects[1..], filter)
  }

  /** `filterProjects`' choice of what to render. */
  function Filter(projects: seq<Project>, filter: Option<string>): seq<Project> {
    if filter == Some(AllFilter) then projects else Keep(projects, filter)
  }

  /** `a` is `b` with some elements left out, in the same order. */
  predicate IsSubsequence<T(==)>(a: seq<T>, b: seq<T>)
    decreases |b|
  {
    if |a| == 0 then true
    else if |b| == 0 then false
    else if a[0] == b[0] then IsSubsequence(a[1..], b[1..])
    else IsSubsequence(a, b[1..])
  }

  /** The kept projects are an order-preserving subsequence of the input,
      and each matching project is kept as often as it occurs. */
  lemma {:induction false} KeepSpec(projects: seq<Project>, filter: Option<string>)
    ensures IsSubsequence(Keep(projects, filter), projects)
    ensures forall p :: multiset(Keep(projects, filter))[p] ==
                        (if p.filterTag == filter then multiset(projects)[p] else 0)
    decreases |projects|
  {
    if |projects| > 0 {
      KeepSpec(projects[1..], filter);
      assert projects == [projects[0]] + projects[1..];
      assert multiset(projects) == multiset{projects[0]} + multiset(projects[1..]);
      if projects[0].filterTag == filter {
        var rest := Keep(projects[1..], filter);
        assert ([projects[0]] + rest)[1..] == rest;
      } else {
        SubsequenceSkip(Keep(projects[1..], filter), projects[0], projects[1..]);
      }
    }
  }

  /** A subsequence of `rest` is one of `[x] + rest`. */
  lemma {:induction false} SubsequenceSkip<T>(a: seq<T>, x: T, rest: seq<T>)
    requires IsSubsequence(a, rest)
    ensures IsSubsequence(a, [x] + rest)
    decreases |rest|, 1
  {
    var b := [x] + rest;
    assert b[1..] == rest;
    if |a| > 0 && a[0] == x {
      SubsequenceDrop(a, rest);
    }
  }

  /** Leaving out the first element of a subsequence keeps it one. */
  lemma {:induction false} SubsequenceDrop<T>(a: seq<T>, b: seq<T>)
    requires |a| > 0 && IsSubsequence(a, b)
    ensures IsSubsequence(a[1..], b)
    decreases |b|, 0
  {
    assert [b[0]] + b[1..] == b;
    if a[0] == b[0] {
      SubsequenceSkip(a[1..], b[0], b[1..]);
    } else {
      SubsequenceDrop(a, b[1..]);
      SubsequenceSkip(a[1..], b[0], b[1..]);
    }
  }

  /** Filtering is decided project by project: filtering two lists one
      after the other gives both results one after the other. */
  lemma {:induction false} KeepAppend(a: seq<Project>, b: seq<Project>, filter: Option<string>)
    ensures Keep(a + b, filter) == Keep(a, filter) + Keep(b, filter)
    decreases |a|
  {
    if |a| == 0 {
      assert a + b == b;
    } else {
      assert (a + b)[1..] == a[1..] + b;
      KeepAppend(a[1..], b, filter);
    }
  }

  /** `'all'` shows every project unchanged; any other filter shows exactly
      the projects whose tag equals it, and filtering again changes nothing. */
  lemma FilterSpec(projects: seq<Project>, filter: Option<string>)
    ensures filter == Some(AllFilter) ==> Filter(projects, filter) == projects
    ensures filter != Some(AllFilter) ==>
      forall p :: p in Filter(projects, filter) <==> p in projects && p.filterTag == filter
    ensures Filter(Filter(projects, filter), filter) == Filter(projects, filter)
  {
    if filter != Some(AllFilter) {
      KeepIdempotent(projects, filter);
    }
  }

  lemma {:induction false} KeepIdempotent(projects: seq<Project>, filter: Option<string>)
    ensures Keep(Keep(projects, filter), filter) == Keep(projects, filter)
    decreases |projects|
  {
    if |projects| > 0 {
      KeepIdempotent(projects[1..], filter);
      if projects[0].filterTag == filter {
        var rest := Keep(projects[1..], filter);
        assert ([projects[0]] + rest)[1..] == rest;
      }
    }
  }

  // ----- project cards -----

  datatype ReleaseLink = ReleaseNotes(href: string) | CaseStudy(href: string, newTab: bool)

  datatype Card = Card(
    projectId: string,
    filterTag: string,
    coverHref: string,
    headerHref: string,
    newTab: bool,
    title: string,
    meta: seq<string>,
    description: string,
    release: ReleaseLink)

  /** Where a card leads: the external page if there is one, otherwise the
      case study. */
  function Target(p: Project): string {
    if p.externalUrl != "" then p.externalUrl else ProjectLoader.DetailHref(p.id)
  }

  function MetaItem(value: string): seq<string> {
    if value == "" then [] else [value]
  }

  function TagText(p: Project): string {
    if p.filterTag.Some? then p.filterTag.value else ""
  }

  /** One `<article class="project-card">` of `renderProjects`, without its
      cover media. */
  function CardFor(p: Project): Card {
    Card(p.id, TagText(p), Target(p), Target(p), p.externalUrl != "", p.title,
         MetaItem(p.company) + MetaItem(p.date) + MetaItem(TagText(p)), p.description,
         if p.releaseNotes != "" then ReleaseNotes(p.releaseNotes) else CaseStudy(Target(p), p.externalUrl != ""))
  }

  /** The links of a card: cover and header go to the same place, the
      external page (in a new tab) when set and otherwise the case study;
      the release link is the release notes when set and otherwise that
      same place; the tag attribute is empty for an untagged project. */
  lemma CardLinks(p: Project)
    ensures var c := CardFor(p);
      c.coverHref == c.headerHref && c.projectId == p.id &&
      (p.externalUrl != "" ==> c.coverHref == p.externalUrl && c.newTab) &&
      (p.externalUrl == "" ==> c.coverHref == "project.html?id=" + p.id && !c.newTab) &&
      (p.releaseNotes != "" ==> c.release == ReleaseNotes(p.releaseNotes)) &&
      (p.releaseNotes == "" ==> c.release == CaseStudy(c.coverHref, c.newTab)) &&
      (p.filterTag.None? ==> c.filterTag == "") &&
      |c.meta| <= 3
  {
  }

  /** `projects.map(...).join('')`: one card per project, in order. */
  function CardsFor(projects: seq<Project>): (r: seq<Card>)
    ensures |r| == |projects|
    ensures forall i :: 0 <= i < |projects| ==> r[i] == CardFor(projects[i])
  {
    seq(|projects|, i requires 0 <= i < |projects| => CardFor(projects[i]))
  }

  // ----- profile header -----

  datatype Photo = PhotoImage(src: string, alt: string) | PhotoInitials(initials: string)

  datatype ProfileHeader = ProfileHeader(photo: Photo, name: string, previous: string)

  /** `previousCompanies.join(', ')`. */
  function PreviousText(companies: seq<string>): string {
    Join(companies, ", ")
  }

  /** `renderProfile`: the picture when there is one, the initials otherwise. */
  function ProfileFor(profile: Profile): (r: ProfileHeader)
    ensures r.photo.PhotoImage? <==> profile.profileImage != ""
    ensures r.photo.PhotoImage? ==> r.photo.src == profile.profileImage
    ensures r.photo.PhotoInitials? ==> r.photo.initials == profile.initials
  {
    ProfileHeader(
      if profile.profileImage != "" then PhotoImage(profile.profileImage, profile.name)
      else PhotoInitials(profile.initials),
      profile.name, PreviousText(profile.previousCompanies))
  }

  function SpaceBefore(ds: seq<string>): (r: seq<string>)
    ensures |r| == |ds|
    ensures forall i :: 0 <= i < |ds| ==> r[i] == " " + ds[i]
  {
    seq(|ds|, i requires 0 <= i < |ds| => " " + ds[i])
  }

  /** One step of `Join`: the head, the separator, the join of the rest. */
  lemma JoinCons(x: string, rest: seq<string>, sep: string)
    ensures Join([x] + rest, sep) == if |rest| == 0 then x else x + sep + Join(rest, sep)
  {
    assert ([x] + rest)[1..] == rest;
  }

  lemma JoinSpacedHead(a: string, rest: seq<string>, sep: string)
    ensures Join([" " + a] + rest, sep) == " " + Join([a] + rest, sep)
  {
    JoinCons(" " + a, rest, sep);
    JoinCons(a, rest, sep);
  }

  /** `, ` between the companies is `,` between the companies with a space
      put before every one but the first. */
  lemma {:induction false} JoinCommaSpace(h: string, ds: seq<string>)
    ensures Join([h] + ds, ", ") == Join([h] + SpaceBefore(ds), ",")
    decreases |ds|
  {
    if |ds| == 0 {
      assert [h] + ds == [h] + SpaceBefore(ds);
    } else {
      var d, tail := ds[0], ds[1..];
      assert ds == [d] + tail;
      JoinCommaSpace(d, tail);
      JoinCommaSpaceStep(h, d, tail);
      SpaceBeforeCons(d, tail);
    }
  }

  /** The inductive step of `JoinCommaSpace`, on plain variables. */
  lemma JoinCommaSpaceStep(h: string, d: string, tail: seq<string>)
    requires Join([d] + tail, ", ") == Join([d] + SpaceBefore(tail), ",")
    ensures Join([h, d] + tail, ", ") == Join([h] + ([" " + d] + SpaceBefore(tail)), ",")
  {
    var x := Join([d] + SpaceBefore(tail), ",");
    var spaced := [" " + d] + SpaceBefore(tail);
    assert [h, d] + tail == [h] + ([d] + tail);
    calc {
      Join([h] + ([d] + tail), ", ");
      == { JoinCons(h, [d] + tail, ", "); }
      h + ", " + Join([d] + tail, ", ");
      == { CommaSpace(h, x); }
      h + "," + (" " + x);
      == { JoinSpacedHead(d, SpaceBefore(tail), ","); }
      h + "," + Join(spaced, ",");
      == { JoinCons(h, spaced, ","); }
      Join([h] + spaced, ",");
    }
  }

  lemma CommaSpace(h: string, x: string)
    ensures h + ", " + x == h + "," + (" " + x)
  {
    assert ", " == "," + " ";
  }

  lemma SpaceBeforeCons(d: string, tail: seq<string>)
    ensures SpaceBefore([d] + tail) == [" " + d] + SpaceBefore(tail)
  {
    assert ([d] + tail)[1..] == tail;
  }

  /** The pieces between the commas of a ", "-joined list: the first name,
      then every further name with its leading space. */
  function CommaPieces(companies: seq<string>): (r: seq<string>)
    requires |companies| >= 1
    ensures |r| == |companies|
    ensures r[0] == companies[0]
    ensures forall i :: 1 <= i < |r| ==> r[i] == " " + companies[i]
  {
    [companies[0]] + SpaceBefore(companies[1..])
  }

  lemma CommaPiecesJoin(companies: seq<string>)
    requires |companies| >= 1
    ensures PreviousText(companies) == Join(CommaPieces(companies), [','])
  {
    assert companies == [companies[0]] + companies[1..];
    JoinCommaSpace(companies[0], companies[1..]);
  }

  lemma CommaPiecesCommaFree(companies: seq<string>)
    requires |companies| >= 1
    requires forall i :: 0 <= i < |companies| ==> ',' !in companies[i]
    ensures forall i :: 0 <= i < |companies| ==> ',' !in CommaPieces(companies)[i]
  {
    var pieces := CommaPieces(companies);
    forall i | 1 <= i < |companies| ensures ',' !in pieces[i] {
      assert pieces[i] == " " + companies[i];
    }
  }

  lemma CommaPieceTrim(companies: seq<string>, i: nat)
    requires i < |companies|
    requires |companies[i]| > 0 ==>
      !IsWhitespace(companies[i][0]) && !IsWhitespace(companies[i][|companies[i]| - 1])
    ensures Trim(CommaPieces(companies)[i]) == companies[i]
  {
    if i == 0 {
      TrimNoop(companies[0]);
    } else {
      TrimLeadingPad(" ", companies[i]);
    }
  }

  /** The header's list of previous companies reads back as the same
      companies with the tag splitting of the case-study page, as long as no
      name contains a comma or starts or ends with whitespace. */
  lemma PreviousTextRoundTrip(companies: seq<string>)
    requires |companies| >= 1
    requires forall i :: 0 <= i < |companies| ==> ',' !in companies[i]
    requires forall i :: 0 <= i < |companies| ==> |companies[i]| > 0 ==>
      !IsWhitespace(companies[i][0]) && !IsWhitespace(companies[i][|companies[i]| - 1])
    ensures ProjectLoader.Tags(PreviousText(companies)) == companies
  {
    var pieces := CommaPieces(companies);
    CommaPiecesJoin(companies);
    CommaPiecesCommaFree(companies);
    SplitJoin(pieces, ',');
    assert Split(PreviousText(companies), ',') == pieces;
    var tags := ProjectLoader.Tags(PreviousText(companies));
    forall i | 0 <= i < |companies| ensures tags[i] == companies[i] {
      CommaPieceTrim(companies, i);
    }
  }

  // ----- the page -----

  /** The global state of the home page script. */
  class PortfolioPage {
    /** Whether the page has a `.projects` section. */
    const hasProjects: bool
    /** Whether the page has a `.footer` element. */
    const hasFooter: bool
    var allProjects: seq<Project>
    var currentFilter: Option<string>
    /** The cards in the `.projects` section. */
    var cards: seq<Card>
    var footer: Option<seq<FooterButton>>

    constructor (hasProjects: bool, hasFooter: bool)
      ensures this.hasProjects == hasProjects && this.hasFooter == hasFooter
      ensures allProjects == [] && currentFilter == Some(AllFilter) && cards == [] && footer == None
    {
      this.hasProjects := hasProjects;
      this.hasFooter := hasFooter;
      allProjects := [];
      currentFilter := Some(AllFilter);
      cards := [];
      footer := None;
    }

    /** `renderProjects`: nothing without a `.projects` section. */
    method RenderProjects(projects: seq<Project>)
      modifies this`cards
      ensures hasProjects ==> cards == CardsFor(projects)
      ensures !hasProjects ==> cards == old(cards)
    {
      if !hasProjects {
        return;
      }
      cards := CardsFor(projects);
    }

    /** `filterProjects`: the cards shown are those of the filtered list. */
    method FilterProjects(filter: Option<string>)
      modifies this`cards
      ensures hasProjects ==> cards == CardsFor(Filter(allProjects, filter))
      ensures !hasProjects ==> cards == old(cards)
    {
      var filtered;
      if filter == Some(AllFilter) {
        filtered := allProjects;
      } else {
        filtered := Keep(allProjects, filter);
      }
      RenderProjects(filtered);
    }

    /** `renderFooter`: nothing without a footer element. */
    method RenderFooter(profile: Profile)
      modifies this`footer
      ensures !hasFooter ==> footer == old(footer)
      ensures hasFooter ==> footer == Some(Footer(profile))
    {
      if !hasFooter {
        return;
      }
      var buttons := FooterButtons(profile);
      footer := Some(buttons);
    }

    /** The click listener of pill `k`: afterwards exactly the clicked pill
        is active, no other class of any pill has changed, the filter is the
        pill's `data-filter` and the list shows the filtered projects. */
    method OnPillClick(pills: seq<Element>, k: nat)
      requires k < |pills| && Distinct(pills)
      modifies (set p | p in pills)`classes, this`currentFilter, this`cards
      ensures forall i :: 0 <= i < |pills| ==> (ActiveClass in pills[i].classes <==> i == k)
      ensures forall i :: 0 <= i < |pills| ==> pills[i].classes - {ActiveClass} == old(pills[i].classes) - {ActiveClass}
      ensures currentFilter == (if "filter" in pills[k].dataset then Some(pills[k].dataset["filter"]) else None)
      ensures hasProjects ==> cards == CardsFor(Filter(allProjects, currentFilter))
      ensures !hasProjects ==> cards == old(cards)
    {
      var i := 0;
      while i < |pills|
        invariant 0 <= i <= |pills|
        invariant forall j :: 0 <= j < i ==> pills[j].classes == old(pills[j].classes) - {ActiveClass}
        invariant forall j :: i <= j < |pills| ==> pills[j].classes == old(pills[j].classes)
        invariant cards == old(cards)
      {
        pills[i].classes := pills[i].classes - {ActiveClass};
        i := i + 1;
      }
      pills[k].classes := pills[k].classes + {ActiveClass};
      currentFilter := if "filter" in pills[k].dataset then Some(pills[k].dataset["filter"]) else None;
      FilterProjects(currentFilter);
    }

    /** `initPortfolio` once the catalogue is loaded: the list is stored and
        shown unfiltered, and the footer is filled. */
    method Init(projects: seq<Project>, profile: Profile)
      modifies this`allProjects, this`cards, this`footer
      ensures allProjects == projects
      ensures hasProjects ==> cards == CardsFor(projects)
      ensures !hasProjects ==> cards == old(cards)
      ensures hasFooter ==> footer == Some(Footer(profile))
      ensures !hasFooter ==> footer == old(footer)
    {
      allProjects := projects;
      RenderProjects(allProjects);
      RenderFooter(profile);
    }
  }

  /** `initAnimations`: card `i` enters `i × 0.1` s after the first, pill
      `i` `i × 0.05` s after the first, and every card, pill and the footer
      gets the `scroll-animate` class. */
  method InitAnimations(cards: seq<Element>, pills: seq<Element>, footer: Element?)
    requires Distinct(cards + pills)
    modifies (set e | e in cards + pills)`classes, (set e | e in cards + pills)`transitionDelay,
      (if footer == null then {} else {footer})`classes
    ensures forall i :: 0 <= i < |cards| ==> cards[i].transitionDelay == Stagger(i, CardInterval)
    ensures forall i :: 0 <= i < |pills| ==> pills[i].transitionDelay == Stagger(i, PillInterval)
    ensures forall e :: e in cards + pills ==> e.classes == old(e.classes) + {ScrollAnimateClass}
    ensures footer != null ==> footer.classes == old(footer.classes) + {ScrollAnimateClass}
  {
    var all := cards + pills;
    var i := 0;
    while i < |all|
      invariant 0 <= i <= |all|
      invariant forall j :: 0 <= j < i ==>
        all[j].classes == old(all[j].classes) + {ScrollAnimateClass} &&
        all[j].transitionDelay == (if j < |cards| then Stagger(j, CardInterval) else Stagger(j - |cards|, PillInterval))
      invariant forall j :: i <= j < |all| ==> all[j].classes == old(all[j].classes)
      invariant footer != null && footer !in all ==> footer.classes == old(footer.classes)
    {
      all[i].classes := all[i].classes + {ScrollAnimateClass};
      all[i].transitionDelay := if i < |cards| then Stagger(i, CardInterval) else Stagger(i - |cards|, PillInterval);
      i := i + 1;
    }
    assert forall j :: 0 <= j < |cards| ==> all[j] == cards[j];
    assert forall j :: 0 <= j < |pills| ==> all[|cards| + j] == pills[j];
    if footer != null {
      footer.classes := footer.classes + {ScrollAnimateClass};
    }
  }
}
