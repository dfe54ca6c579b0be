// MinimalTemplate (client/src/components/templates/MinimalTemplate.tsx) as
// a function from the resume data and the chosen font to its text content.
module Minimal {
  import opened Wrappers
  import opened Seqs
  import opened JsText
  import opened Schema
  import opened Document

  /** The page order of the sections; there is no languages section. */
  const Order: seq<Kind> := [SummarySection, ExperienceSection, ProjectsSection, EducationSection,
                             SkillsSection, CertificationsSection]

  /** The font class for the `font` prop, "sans" when it is not given. */
  function FontClass(font: Option<string>): (r: string)
    ensures r == "font-sans" || r == "font-serif" || r == "font-mono"
    ensures font == Some("serif") <==> r == "font-serif"
    ensures font == Some("mono") <==> r == "font-mono"
  {
    var f := font.GetOr("sans");
    if f == "sans" then "font-sans"
    else if f == "serif" then "font-serif"
    else if f == "mono" then "font-mono"
    else "font-sans"
  }

  /** `{cond && <item>}`. */
  function Item(shown: bool, s: Span): (r: seq<Span>)
    ensures shown ==> r == [s]
    ensures !shown ==> r == []
  {
    if shown then [s] else []
  }

  /** `label || "Link"`. */
  function LinkLabel(given: Option<string>): (r: string)
    ensures r != ""
    ensures Truthy(given) ==> r == given.value
  {
    if Truthy(given) then given.value else "Link"
  }

  /** The contact row: email, phone and location as text, then the profile
      links. */
  function Contact(p: Personal): (r: seq<Span>)
    ensures |r| <= 9
    ensures p.email != "" ==> |r| > 0 && r[0] == Text(p.email)
    ensures p.email == "" && p.phone != "" ==> |r| > 0 && r[0] == Text(p.phone)
    ensures (Text(p.email) in r) <== p.email != ""
    ensures (Text(p.phone) in r) <== p.phone != ""
    ensures (Text(p.location) in r) <== p.location != ""
  {
    var texts := TextItems(p);
    var links := LinkItems(p);
    assert texts <= texts + links;
    texts + links
  }

  /** Email, phone and location, each when non-empty. */
  function TextItems(p: Personal): (r: seq<Span>)
    ensures |r| <= 3
    ensures p.email != "" ==> |r| > 0 && r[0] == Text(p.email)
    ensures p.email == "" && p.phone != "" ==> |r| > 0 && r[0] == Text(p.phone)
    ensures (Text(p.email) in r) <== p.email != ""
    ensures (Text(p.phone) in r) <== p.phone != ""
    ensures (Text(p.location) in r) <== p.location != ""
  {
    Item(p.email != "", Text(p.email))
    + Item(p.phone != "", Text(p.phone))
    + Item(p.location != "", Text(p.location))
  }

  /** The profile links, each when its value is set. */
  function LinkItems(p: Personal): (r: seq<Span>)
    ensures |r| <= 6
  {
    Item(Truthy(p.linkedin), Link("LinkedIn", Value(p.linkedin)))
    + Item(Truthy(p.github), Link("GitHub", "https://" + Value(p.github)))
    + Item(Truthy(p.website), Link("Portfolio", "https://" + Value(p.website)))
    + Item(Truthy(p.leetcode), Link("LeetCode", "https://" + Value(p.leetcode)))
    + Item(Truthy(p.twitter), Link("Twitter", "https://" + Value(p.twitter)))
    + Item(Truthy(p.customLink), Link(LinkLabel(p.customLinkLabel), Value(p.customLink)))
  }

  /** GitHub, portfolio, LeetCode and Twitter links go to "https://" and
      the stored value; LinkedIn and the custom link go to the value as
      stored, the custom one labelled "Link" unless it has a label; each
      shows when its value is non-empty. */
  lemma ContactLinks(p: Personal)
    ensures var r := Contact(p);
      && (Truthy(p.linkedin) ==> Link("LinkedIn", Value(p.linkedin)) in r)
      && (Truthy(p.github) ==> Link("GitHub", "https://" + Value(p.github)) in r)
      && (Truthy(p.website) ==> Link("Portfolio", "https://" + Value(p.website)) in r)
      && (Truthy(p.leetcode) ==> Link("LeetCode", "https://" + Value(p.leetcode)) in r)
      && (Truthy(p.twitter) ==> Link("Twitter", "https://" + Value(p.twitter)) in r)
      && (Truthy(p.customLink) ==> Link(LinkLabel(p.customLinkLabel), Value(p.customLink)) in r)
      && (Truthy(p.customLink) && !Truthy(p.customLinkLabel) ==> Link("Link", p.customLink.value) in r)
  {
  }

  /** The score beside a study: nothing without a score; the percentage of
      score over scale when it is shown as a percentage and has a scale;
      otherwise "type value", with "/scale" when there is a scale. */
  function Score(e: Education): (r: seq<Span>)
  {
    if !Truthy(e.scoreValue) then []
    else if e.showAs == Some("Percentage") && Truthy(e.scoreScale) then [Percent(e.scoreValue.value, e.scoreScale.value)]
    else [Text(Value(e.scoreType) + " " + e.scoreValue.value + if Truthy(e.scoreScale) then "/" + e.scoreScale.value else "")]
  }

  /** The score shows exactly when there is a score value; it is the
      percentage form exactly when shown as a percentage with a scale; the
      text form names the scale exactly when there is one. */
  lemma ScoreShown(e: Education)
    ensures |Score(e)| == if Truthy(e.scoreValue) then 1 else 0
    ensures |Score(e)| == 1 ==>
      (Score(e)[0].Percent? <==> e.showAs == Some("Percentage") && Truthy(e.scoreScale))
    ensures |Score(e)| == 1 && Score(e)[0].Text? ==>
      var t := Score(e)[0].text;
      && StartsWith(t, Value(e.scoreType) + " " + e.scoreValue.value)
      && (Truthy(e.scoreScale) <==> |t| > |Value(e.scoreType) + " " + e.scoreValue.value|)
  {
  }

  /** The studies, newest first. */
  function EducationEntries(es: seq<Education>): (r: seq<Entry>)
    ensures |r| == |es|
    ensures forall i :: 0 <= i < |es| ==> r[i] == EducationEntry(es[|es| - 1 - i])
  {
    Map(Reverse(es), EducationEntry)
  }

  function ExperienceSectionOf(d: ResumeData): Section
  {
    Section(ExperienceSection, "Experience", ExperienceEntries(Reverse(d.experience), Hyphen))
  }

  /** The name with its link, labelled "Link" unless it has a label, the
      description and a chip per technology. */
  function ProjectEntry(p: Project): Entry
  {
    Entry([Row([Text(p.name)] + Item(Truthy(p.link), Link(LinkLabel(p.linkLabel), Value(p.link)))),
           TextRow(p.description),
           Row(Map(p.technologies, ToText))])
  }

  function ToText(s: string): Span
  {
    Text(s)
  }

  /** The institution and the dates, then "degree in field" and the score. */
  function EducationEntry(e: Education): Entry
  {
    Entry([Row([Text(e.institution), Text(Period(e, Hyphen))]), Row([Text(Degree(e))] + Score(e))])
  }

  function SkillEntry(g: SkillGroup): Entry
  {
    Entry([Row([Text(g.category + ":"), Text(Join(g.items, ", "))])])
  }

  /** The separator before a certification's issuer: the bytes of an em
      dash read as Windows-1252, as the source file holds them. */
  const IssuerSeparator: string := " \U{00E2}\U{20AC}\U{201D} "

  /** The name, linked when there is a link, the issuer and the date. */
  function CertificationEntry(c: Certification): Entry
  {
    Entry([Row([if Truthy(c.link) then Link(c.name, c.link.value) else Text(c.name),
                Text(IssuerSeparator + c.issuer),
                Text(c.date)])])
  }

  /** Experience shows only when the list is non-empty and the owner is not
      a fresher. */
  predicate Wanted(d: ResumeData, k: Kind)
  {
    HasContent(d, k) && (k == ExperienceSection ==> !IsSet(d.personal.isFresher))
  }

  function WantedOf(d: ResumeData): Kind -> bool
  {
    k => Wanted(d, k)
  }

  /** The section of each kind; languages are not part of this template and
      are never selected. */
  function Build(d: ResumeData, k: Kind): (r: Section)
    ensures r.kind == k
  {
    match k
    case SummarySection => Section(k, "Summary", [Entry([TextRow(Value(d.summary))])])
    case ExperienceSection => ExperienceSectionOf(d)
    case ProjectsSection => Section(k, "Projects", Map(d.projects, ProjectEntry))
    case EducationSection => Section(k, "Education", EducationEntries(d.education))
    case SkillsSection => Section(k, "Skills", Map(d.skills, SkillEntry))
    case CertificationsSection => Section(k, "Certifications", Map(d.certifications, CertificationEntry))
    case LanguagesSection => Section(k, "", [])
  }

  function BuildOf(d: ResumeData): Kind -> Section
  {
    k => Build(d, k)
  }

  /** `MinimalTemplate({ data, font })`: the name as stored, with no
      fallback. */
  function Render(d: ResumeData, font: Option<string>): (r: Doc)
    ensures r.fontClass.Some?
    ensures r.fontClass.value == "font-serif" <==> font == Some("serif")
    ensures r.fontClass.value == "font-mono" <==> font == Some("mono")
    ensures r.fontClass.value != "font-serif" && r.fontClass.value != "font-mono" ==> r.fontClass.value == "font-sans"
    ensures r.name == d.personal.fullName
  {
    Doc(Some(FontClass(font)), d.personal.fullName, Contact(d.personal), Select(Order, WantedOf(d), BuildOf(d)))
  }

  lemma OrderDistinct()
    ensures Distinct(Order)
    ensures forall k :: k in Order <==> k != LanguagesSection
  {
    forall k
      ensures k in Order <==> k != LanguagesSection
    {
      match k
      case SummarySection => assert Order[0] == k;
      case ExperienceSection => assert Order[1] == k;
      case ProjectsSection => assert Order[2] == k;
      case EducationSection => assert Order[3] == k;
      case SkillsSection => assert Order[4] == k;
      case CertificationsSection => assert Order[5] == k;
      case LanguagesSection =>
    }
  }

  /** Summary, projects, education, skills and certifications show exactly
      when the resume has content for them; experience exactly when it has
      positions and the owner is not a fresher; languages never; and the
      sections follow the page order. */
  lemma SectionsShown(d: ResumeData, font: Option<string>)
    ensures var ks := Kinds(Render(d, font).sections);
      && (forall k :: k != ExperienceSection && k != LanguagesSection ==> (k in ks <==> HasContent(d, k)))
      && (ExperienceSection in ks <==> |d.experience| > 0 && !IsSet(d.personal.isFresher))
      && LanguagesSection !in ks
      && forall i, j :: 0 <= i < j < |ks| ==> IndexOf(Order, ks[i]) < IndexOf(Order, ks[j])
  {
    OrderDistinct();
    SelectKinds(Order, WantedOf(d), BuildOf(d));
  }

  /** Positions are listed newest first: entry i shows the i-th from the
      end of the stored list. */
  lemma ExperienceNewestFirst(d: ResumeData, font: Option<string>)
    ensures var f := Find(Render(d, font).sections, ExperienceSection);
      f.Some? ==>
        && |f.value.entries| == |d.experience|
        && forall i :: 0 <= i < |d.experience| ==>
             f.value.entries[i] == ExperienceEntry(d.experience[|d.experience| - 1 - i], Hyphen)
  {
    ExperienceListedIn(d, Render(d, font).sections);
  }

  lemma ExperienceListedIn(d: ResumeData, ss: seq<Section>)
    requires ss == Select(Order, WantedOf(d), BuildOf(d))
    ensures var f := Find(ss, ExperienceSection);
      f.Some? ==>
        && |f.value.entries| == |d.experience|
        && forall i :: 0 <= i < |d.experience| ==>
             f.value.entries[i] == ExperienceEntry(d.experience[|d.experience| - 1 - i], Hyphen)
  {
    ExperienceFound(d);
    var f := Find(ss, ExperienceSection);
    if f.Some? {
      NewestFirstPositions(f.value.entries, d.experience);
    }
  }

  lemma ExperienceFound(d: ResumeData)
    ensures var f := Find(Select(Order, WantedOf(d), BuildOf(d)), ExperienceSection);
      f.Some? ==> f.value.entries == ExperienceEntries(Reverse(d.experience), Hyphen)
  {
    OrderDistinct();
    SelectFinds(Order, WantedOf(d), BuildOf(d), ExperienceSection);
  }

  lemma NewestFirstPositions(entries: seq<Entry>, es: seq<Experience>)
    requires entries == ExperienceEntries(Reverse(es), Hyphen)
    ensures |entries| == |es|
    ensures forall i :: 0 <= i < |es| ==> entries[i] == ExperienceEntry(es[|es| - 1 - i], Hyphen)
  {
  }

  /** Studies are listed newest first too. */
  lemma EducationNewestFirst(d: ResumeData, font: Option<string>)
    ensures var f := Find(Render(d, font).sections, EducationSection);
      f.Some? ==>
        && |f.value.entries| == |d.education|
        && forall i :: 0 <= i < |d.education| ==>
             f.value.entries[i] == EducationEntry(d.education[|d.education| - 1 - i])
  {
    EducationListedIn(d, Render(d, font).sections);
  }

  lemma EducationListedIn(d: ResumeData, ss: seq<Section>)
    requires ss == Select(Order, WantedOf(d), BuildOf(d))
    ensures var f := Find(ss, EducationSection);
      f.Some? ==>
        && |f.value.entries| == |d.education|
        && forall i :: 0 <= i < |d.education| ==>
             f.value.entries[i] == EducationEntry(d.education[|d.education| - 1 - i])
  {
    EducationFound(d);
    var f := Find(ss, EducationSection);
    if f.Some? {
      NewestFirstEntries(f.value.entries, d.education);
    }
  }

  lemma NewestFirstEntries(entries: seq<Entry>, es: seq<Education>)
    requires entries == EducationEntries(es)
    ensures |entries| == |es|
    ensures forall i :: 0 <= i < |es| ==> entries[i] == EducationEntry(es[|es| - 1 - i])
  {
  }

  lemma EducationFound(d: ResumeData)
    ensures var f := Find(Select(Order, WantedOf(d), BuildOf(d)), EducationSection);
      f.Some? ==> f.value.entries == EducationEntries(d.education)
  {
    OrderDistinct();
    SelectFinds(Order, WantedOf(d), BuildOf(d), EducationSection);
  }

  /** The languages and the font never change the sections. */
  lemma LanguagesIgnored(d: ResumeData, ls: seq<Language>, font: Option<string>, font': Option<string>)
    ensures Render(d.(languages := ls), font).sections == Render(d, font').sections
    ensures Render(d.(languages := ls), font).contact == Render(d, font').contact
  {
    var d' := d.(languages := ls);
    OrderDistinct();
    forall k | k in Order
      ensures WantedOf(d')(k) == WantedOf(d)(k) && BuildOf(d')(k) == BuildOf(d)(k)
    {
      BuildIgnoresLanguages(d, ls, k);
    }
    SelectSame(Order, WantedOf(d'), BuildOf(d'), WantedOf(d), BuildOf(d));
  }

  lemma BuildIgnoresLanguages(d: ResumeData, ls: seq<Language>, k: Kind)
    requires k != LanguagesSection
    ensures Wanted(d.(languages := ls), k) == Wanted(d, k)
    ensures Build(d.(languages := ls), k) == Build(d, k)
  {
  }

  /** A certification is linked exactly when it has a link, and its issuer
      follows the separator; a skill group is its category with ":" then
      the items joined by ", ". */
  lemma CertificationAndSkillsShown(c: Certification, g: SkillGroup)
    ensures var spans := CertificationEntry(c).lines[0].spans;
      && |spans| == 3
      && (spans[0].Link? <==> Truthy(c.link))
      && (Truthy(c.link) ==> spans[0] == Link(c.name, c.link.value))
      && spans[1] == Text(" \U{00E2}\U{20AC}\U{201D} " + c.issuer)
      && spans[2] == Text(c.date)
    ensures SkillEntry(g).lines == [Row([Text(g.category + ":"), Text(Join(g.items, ", "))])]
  {
  }
}
