/** The content catalogue both page scripts read (the parsed
    data/projects.json), and the footer buttons both of them build from the
    profile. A text field the scripts only test for truthiness is a string,
    with "" standing for a missing or empty field; a field compared with
    `===` or tested for presence keeps the difference as an `Option`. */
module Catalog {
  import opened Wrappers

  /** A titled content section of a case study (overview, challenge, ...). */
  datatype Section = Section(body: string, sectionLabel: string, title: string)

  datatype Step = Step(title: string, description: string)

  datatype Details = Details(
    tagline: string,
    role: string,
    timeline: string,
    teamDescription: string,
    responsibilities: string,
    tools: string,
    overview: Section,
    challenge: Section,
    discovery: Section,
    process: string,
    processLabel: string,
    processTitle: string,
    processSteps: Option<seq<Step>>,
    solution: Section,
    impact: Section,
    learnings: Section)

  datatype Project = Project(
    id: string,
    title: string,
    company: string,
    sector: string,
    date: string,
    description: string,
    filterTag: Option<string>,
    externalUrl: string,
    releaseNotes: string,
    details: Details)

  datatype Social = Social(linkedin: string, substack: string)

  datatype Profile = Profile(
    name: string,
    initials: string,
    profileImage: string,
    previousCompanies: seq<string>,
    resume: string,
    social: Option<Social>)

  /** `profile.social?.linkedin` and `profile.social?.substack`. */
  function LinkedInUrl(p: Profile): string {
    if p.social.Some? then p.social.value.linkedin else ""
  }

  function SubstackUrl(p: Profile): string {
    if p.social.Some? then p.social.value.substack else ""
  }

  datatype FooterButton = LinkedIn(href: string) | Resume(href: string) | Substack(href: string)

  /** Position of each kind of button in the footer. */
  function Rank(b: FooterButton): nat {
    match b
    case LinkedIn(_) => 0
    case Resume(_) => 1
    case Substack(_) => 2
  }

  function CountIf(b: bool): nat {
    if b then 1 else 0
  }

  /** The `buttons` array of the footer: a LinkedIn, a Resume and a Substack
      button, each present exactly when its link is set, always in that
      order, each pointing at its own link, and no other button. */
  function Footer(profile: Profile): (buttons: seq<FooterButton>)
    ensures |buttons| == CountIf(LinkedInUrl(profile) != "") + CountIf(profile.resume != "")
                         + CountIf(SubstackUrl(profile) != "")
    ensures |buttons| <= 3
    ensures forall i, j :: 0 <= i < j < |buttons| ==> Rank(buttons[i]) < Rank(buttons[j])
    ensures LinkedInUrl(profile) != "" <==> LinkedIn(LinkedInUrl(profile)) in buttons
    ensures profile.resume != "" <==> Resume(profile.resume) in buttons
    ensures SubstackUrl(profile) != "" <==> Substack(SubstackUrl(profile)) in buttons
    ensures forall b :: b in buttons ==>
      b in {LinkedIn(LinkedInUrl(profile)), Resume(profile.resume), Substack(SubstackUrl(profile))}
  {
    (if LinkedInUrl(profile) != "" then [LinkedIn(LinkedInUrl(profile))] else [])
    + (if profile.resume != "" then [Resume(profile.resume)] else [])
    + (if SubstackUrl(profile) != "" then [Substack(SubstackUrl(profile))] else [])
  }

  /** The `buttons.push` sequence both page scripts run: one push per link
      that is set. */
  method FooterButtons(profile: Profile) returns (buttons: seq<FooterButton>)
    ensures buttons == Footer(profile)
  {
    buttons := [];
    if profile.social.Some? && profile.social.value.linkedin != "" {
      buttons := buttons + [LinkedIn(profile.social.value.linkedin)];
    }
    if profile.resume != "" {
      buttons := buttons + [Resume(profile.resume)];
    }
    if profile.social.Some? && profile.social.value.substack != "" {
      buttons := buttons + [Substack(profile.social.value.substack)];
    }
  }
}
