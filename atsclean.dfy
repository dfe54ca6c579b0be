// ATSCleanTemplate (client/src/components/templates/ATSCleanTemplate.tsx)
// as a function from the resume data to its text content.
module AtsClean {
  import opened Wrappers
  import opened Seqs
  import opened JsText
  import opened Schema
  import opened Document

  /** The page order of the sections; there is no certifications and no
      languages section. */
  const Order: seq<Kind> := [SummarySection, ExperienceSection, EducationSection, SkillsSection, ProjectsSection]

  /** Location, phone, email, LinkedIn and website, with no separators. */
  function ContactFields(p: Personal): seq<Field>
  {
    [Field("", p.location), Field("", p.phone), Field("", p.email),
     Field("", Value(p.linkedin)), Field("", Value(p.website))]
  }

  /** The contact row: every item is a non-empty value as it is stored; each
      non-empty value is shown, and a non-empty location leads. */
  function Contact(p: Personal): (r: seq<Span>)
    ensures forall x :: x in r ==> x.Text? && x.text != ""
    ensures p.location != "" ==> |r| > 0 && r[0] == Text(p.location)
    ensures p.phone != "" ==> Text(p.phone) in r
    ensures p.email != "" ==> Text(p.email) in r
    ensures Truthy(p.linkedin) ==> Text(p.linkedin.value) in r
    ensures Truthy(p.website) ==> Text(p.website.value) in r
  {
    var fs := ContactFields(p);
    ContactRow(fs, "");
    assert fs[0] == Field("", p.location) && fs[1] == Field("", p.phone) && fs[2] == Field("", p.email);
    assert fs[3] == Field("", Value(p.linkedin)) && fs[4] == Field("", Value(p.website));
    ContactLine(fs)
  }

  /** `(GPA: x)` after the degree when `gpa` is set. */
  function GpaNote(e: Education): seq<Span>
  {
    if Truthy(e.gpa) then [Text("(GPA: " + e.gpa.value + ")")] else []
  }

  /** The institution and the dates, then "degree in field" and the GPA note. */
  function EducationEntry(e: Education): Entry
  {
    Entry([Row([Text(e.institution), Text(Period(e, EnDash))]), Row([Text(Degree(e))] + GpaNote(e))])
  }

  /** The name with the link as plain text, the description, then "Tech:"
      and the technologies. */
  function ProjectEntry(p: Project): Entry
  {
    Entry([Row([Text(p.name)] + (if Truthy(p.link) then [Text(p.link.value)] else [])),
           TextRow(p.description),
           TextRow("Tech: " + Join(p.technologies, ", "))])
  }

  /** The section of each kind; certifications and languages are not part
      of this template and are never selected. */
  function Build(d: ResumeData, k: Kind): (r: Section)
    ensures r.kind == k
  {
    match k
    case SummarySection => Section(k, "Summary", [Entry([TextRow(Value(d.summary))])])
    case ExperienceSection => Section(k, "Experience", ExperienceEntries(d.experience, EnDash))
    case EducationSection => Section(k, "Education", Map(d.education, EducationEntry))
    case SkillsSection => Section(k, "Skills", SkillEntries(d.skills))
    case ProjectsSection => Section(k, "Projects", Map(d.projects, ProjectEntry))
    case CertificationsSection => Section(k, "", [])
    case LanguagesSection => Section(k, "", [])
  }

  function BuildOf(d: ResumeData): Kind -> Section
  {
    k => Build(d, k)
  }

  /** `ATSCleanTemplate({ data })`. */
  function Render(d: ResumeData): (r: Doc)
    ensures r.fontClass.None?
    ensures r.name != ""
    ensures d.personal.fullName != "" ==> r.name == d.personal.fullName
    ensures d.personal.fullName == "" ==> r.name == "Your Name"
  {
    Doc(None, DisplayName(d.personal.fullName), Contact(d.personal), Select(Order, ContentOf(d), BuildOf(d)))
  }

  lemma OrderDistinct()
    ensures Distinct(Order)
    ensures forall k :: k in Order <==> k != CertificationsSection && k != LanguagesSection
  {
    forall k
      ensures k in Order <==> k != CertificationsSection && k != LanguagesSection
    {
      match k
      case SummarySection => assert Order[0] == k;
      case ExperienceSection => assert Order[1] == k;
      case EducationSection => assert Order[2] == k;
      case SkillsSection => assert Order[3] == k;
      case ProjectsSection => assert Order[4] == k;
      case CertificationsSection =>
      case LanguagesSection =>
    }
  }

  /** Summary, experience, education, skills and projects each show exactly
      when the resume has content for them, in that order; certifications
      and languages never show. */
  lemma SectionsShown(d: ResumeData)
    ensures var ks := Kinds(Render(d).sections);
      && (forall k :: k in ks <==> k in Order && HasContent(d, k))
      && CertificationsSection !in ks && LanguagesSection !in ks
      && forall i, j :: 0 <= i < j < |ks| ==> IndexOf(Order, ks[i]) < IndexOf(Order, ks[j])
  {
    OrderDistinct();
    SelectKinds(Order, ContentOf(d), BuildOf(d));
  }

  /** The experience section lists the positions in stored order. */
  lemma ExperienceListed(d: ResumeData)
    ensures var f := Find(Render(d).sections, ExperienceSection);
      && (f.Some? <==> |d.experience| > 0)
      && (f.Some? ==> f.value.entries == ExperienceEntries(d.experience, EnDash))
  {
    OrderDistinct();
    SelectFinds(Order, ContentOf(d), BuildOf(d), ExperienceSection);
  }

  /** Neither the fresher flag nor the certifications nor the languages
      change the page. */
  lemma FresherAndExtrasIgnored(d: ResumeData, fresher: Option<bool>, cs: seq<Certification>, ls: seq<Language>)
    ensures Render(d.(personal := d.personal.(isFresher := fresher), certifications := cs, languages := ls)) == Render(d)
  {
    var d' := d.(personal := d.personal.(isFresher := fresher), certifications := cs, languages := ls);
    SelectSame(Order, ContentOf(d'), BuildOf(d'), ContentOf(d), BuildOf(d));
  }

  /** "(GPA: x)" follows the degree exactly when `gpa` is set. */
  lemma EducationShown(e: Education)
    ensures var degreeRow := EducationEntry(e).lines[1];
      && degreeRow.Row? && degreeRow.spans[0] == Text(Degree(e))
      && |degreeRow.spans| == (if Truthy(e.gpa) then 2 else 1)
      && (Truthy(e.gpa) ==> degreeRow.spans[1] == Text("(GPA: " + e.gpa.value + ")"))
  {
  }

  /** A project's link is plain text beside its name, never a link, and the
      technologies follow "Tech: " joined by ", ". */
  lemma ProjectShown(p: Project)
    ensures var lines := ProjectEntry(p).lines;
      && lines[0] == Row([Text(p.name)] + (if Truthy(p.link) then [Text(p.link.value)] else []))
      && lines[2] == TextRow("Tech: " + Join(p.technologies, ", "))
      && forall l, x :: l in lines && l.Row? && x in l.spans ==> x.Text?
  {
  }
}
