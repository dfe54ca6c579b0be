// ModernTemplate (client/src/components/templates/ModernTemplate.tsx) as a
// function from the resume data to its text content.
module Modern {
  import opened Wrappers
  import opened Seqs
  import opened JsText
  import opened Schema
  import opened Document

  /** The page order of the sections. */
  const Order: seq<Kind> := [SummarySection, ExperienceSection, EducationSection, ProjectsSection,
                             SkillsSection, CertificationsSection, LanguagesSection]

  /** Email, phone, location, LinkedIn and website, with no separators. */
  function ContactFields(p: Personal): seq<Field>
  {
    [Field("", p.email), Field("", p.phone), Field("", p.location),
     Field("", Value(p.linkedin)), Field("", Value(p.website))]
  }

  /** The contact row: every item is a non-empty value as it is stored,
      with no separator; each non-empty value is shown, and a non-empty
      email leads. */
  function Contact(p: Personal): (r: seq<Span>)
    ensures forall x :: x in r ==> x.Text? && x.text != ""
    ensures p.email != "" ==> |r| > 0 && r[0] == Text(p.email)
    ensures p.phone != "" ==> Text(p.phone) in r
    ensures p.location != "" ==> Text(p.location) in r
    ensures Truthy(p.linkedin) ==> Text(p.linkedin.value) in r
    ensures Truthy(p.website) ==> Text(p.website.value) in r
  {
    var fs := ContactFields(p);
    ContactRow(fs, "");
    assert fs[0] == Field("", p.email) && fs[1] == Field("", p.phone) && fs[2] == Field("", p.location);
    assert fs[3] == Field("", Value(p.linkedin)) && fs[4] == Field("", Value(p.website));
    ContactLine(fs)
  }

  /** "degree in field" and the dates, the institution below, and
      "GPA: x" when set. ModernTemplate renders studies, projects and
      certifications with the same text as ClassicTemplate; only the
      headings, the contact prefixes and the language line differ. */
  function EducationEntry(e: Education): Entry
  {
    Entry([Row([Text(Degree(e)), Text(Period(e, EnDash))]), TextRow(e.institution)]
          + OptionalRow(e.gpa, "GPA: "))
  }

  function ProjectEntry(p: Project): Entry
  {
    Entry([TextRow(p.name), TextRow(p.description), TextRow("Technologies: " + Join(p.technologies, ", "))]
          + OptionalRow(p.link, ""))
  }

  function CertificationEntry(c: Certification): Entry
  {
    Entry([Row([Text(c.name), Text(c.date)]), TextRow(c.issuer)])
  }

  /** "language - proficiency". */
  function LanguageEntry(l: Language): Entry
  {
    Entry([TextRow(l.language + " - " + l.proficiency)])
  }

  /** The section of each kind. */
  function Build(d: ResumeData, k: Kind): (r: Section)
    ensures r.kind == k
  {
    match k
    case SummarySection => Section(k, "PROFESSIONAL SUMMARY", [Entry([TextRow(Value(d.summary))])])
    case ExperienceSection => Section(k, "EXPERIENCE", ExperienceEntries(d.experience, EnDash))
    case EducationSection => Section(k, "EDUCATION", Map(d.education, EducationEntry))
    case ProjectsSection => Section(k, "PROJECTS", Map(d.projects, ProjectEntry))
    case SkillsSection => Section(k, "SKILLS", SkillEntries(d.skills))
    case CertificationsSection => Section(k, "CERTIFICATIONS", Map(d.certifications, CertificationEntry))
    case LanguagesSection => Section(k, "LANGUAGES", Map(d.languages, LanguageEntry))
  }

  function BuildOf(d: ResumeData): Kind -> Section
  {
    k => Build(d, k)
  }

  /** `ModernTemplate({ data })`. */
  function Render(d: ResumeData): (r: Doc)
    ensures r.fontClass.None?
    ensures r.name != ""
    ensures d.personal.fullName != "" ==> r.name == d.personal.fullName
    ensures d.personal.fullName == "" ==> r.name == "Your Name"
  {
    Doc(None, DisplayName(d.personal.fullName), Contact(d.personal), Select(Order, ContentOf(d), BuildOf(d)))
  }

  /** Every section shows exactly when the resume has content for it, and
      the sections follow the page order. */
  lemma SectionsShown(d: ResumeData)
    ensures var ks := Kinds(Render(d).sections);
      && (forall k :: k in ks <==> HasContent(d, k))
      && forall i, j :: 0 <= i < j < |ks| ==> IndexOf(Order, ks[i]) < IndexOf(Order, ks[j])
  {
    OrderDistinct();
    SelectKinds(Order, ContentOf(d), BuildOf(d));
  }

  lemma OrderDistinct()
    ensures Distinct(Order)
    ensures forall k :: k in Order
  {
    forall k
      ensures k in Order
    {
      match k
      case SummarySection => assert Order[0] == k;
      case ExperienceSection => assert Order[1] == k;
      case EducationSection => assert Order[2] == k;
      case ProjectsSection => assert Order[3] == k;
      case SkillsSection => assert Order[4] == k;
      case CertificationsSection => assert Order[5] == k;
      case LanguagesSection => assert Order[6] == k;
    }
  }

  /** The experience section lists the positions in stored order, with
      " – " between the dates. */
  lemma ExperienceListed(d: ResumeData)
    ensures var f := Find(Render(d).sections, ExperienceSection);
      && (f.Some? <==> |d.experience| > 0)
      && (f.Some? ==> f.value.entries == ExperienceEntries(d.experience, EnDash))
  {
    OrderDistinct();
    SelectFinds(Order, ContentOf(d), BuildOf(d), ExperienceSection);
  }

  /** The languages section lists every language in stored order, as
      "language - proficiency"; skill groups read "category: items" with the items
      joined by ", ". */
  lemma LanguagesListed(d: ResumeData)
    ensures var f := Find(Render(d).sections, LanguagesSection);
      && (f.Some? <==> |d.languages| > 0)
      && (f.Some? ==> |f.value.entries| == |d.languages|
                      && forall i :: 0 <= i < |d.languages| ==>
                           f.value.entries[i] == Entry([TextRow(d.languages[i].language + " - " + d.languages[i].proficiency)]))
    ensures var f := Find(Render(d).sections, SkillsSection);
      f.Some? ==> f.value.entries == SkillEntries(d.skills)
  {
    OrderDistinct();
    SelectFinds(Order, ContentOf(d), BuildOf(d), LanguagesSection);
    assert BuildOf(d)(LanguagesSection).entries == Map(d.languages, LanguageEntry);
    SelectFinds(Order, ContentOf(d), BuildOf(d), SkillsSection);
    assert BuildOf(d)(SkillsSection).entries == SkillEntries(d.skills);
  }

  /** The fresher flag is never consulted. */
  lemma FresherIgnored(d: ResumeData, fresher: Option<bool>)
    ensures Render(d.(personal := d.personal.(isFresher := fresher))) == Render(d)
  {
    var d' := d.(personal := d.personal.(isFresher := fresher));
    SelectSame(Order, ContentOf(d'), BuildOf(d'), ContentOf(d), BuildOf(d));
  }

  /** A study shows "GPA: x" only for a non-empty legacy `gpa`; the
      structured score fields are never displayed. */
  lemma EducationShown(e: Education, scoreType: Option<string>, scoreValue: Option<string>,
                       scoreScale: Option<string>, showAs: Option<string>)
    ensures var lines := EducationEntry(e).lines;
      && |lines| == (if Truthy(e.gpa) then 3 else 2)
      && (Truthy(e.gpa) ==> lines[2] == TextRow("GPA: " + e.gpa.value))
    ensures EducationEntry(e.(scoreType := scoreType, scoreValue := scoreValue,
                              scoreScale := scoreScale, showAs := showAs)) == EducationEntry(e)
  {
    var head := [Row([Text(Degree(e)), Text(Period(e, EnDash))]), TextRow(e.institution)];
    assert EducationEntry(e).lines == head + OptionalRow(e.gpa, "GPA: ");
  }
}
