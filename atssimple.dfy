// ATSSimpleTemplate (client/src/components/templates/ATSSimpleTemplate.tsx)
// as a function from the resume data to its text content.
module AtsSimple {
  import opened Wrappers
  import opened Seqs
  import opened JsText
  import opened Schema
  import opened Document

  /** The page order of the sections. */
  const Order: seq<Kind> := [SummarySection, ExperienceSection, EducationSection, SkillsSection,
                             ProjectsSection, CertificationsSection, LanguagesSection]

  /** Email bare, then phone, location, LinkedIn and website, each after
      "| " whether or not an email is shown. */
  function ContactFields(p: Personal): seq<Field>
  {
    [Field("", p.email), Field("| ", p.phone), Field("| ", p.location),
     Field("| ", Value(p.linkedin)), Field("| ", Value(p.website))]
  }

  /** The contact row: a non-empty email leads it bare; every other item,
      the first one too when there is no email, is "| " and a non-empty
      value; each non-empty value is shown. */
  function Contact(p: Personal): (r: seq<Span>)
    ensures p.email != "" ==> |r| > 0 && r[0] == Text(p.email)
    ensures forall i :: 0 <= i < |r| && (i > 0 || p.email == "") ==>
      r[i].Text? && StartsWith(r[i].text, "| ") && |r[i].text| > |"| "|
    ensures p.phone != "" ==> Text("| " + p.phone) in r
    ensures p.location != "" ==> Text("| " + p.location) in r
    ensures Truthy(p.linkedin) ==> Text("| " + p.linkedin.value) in r
    ensures Truthy(p.website) ==> Text("| " + p.website.value) in r
  {
    var fs := ContactFields(p);
    ContactRow(fs, "| ");
    assert fs[1] == Field("| ", p.phone) && fs[2] == Field("| ", p.location);
    assert fs[3] == Field("| ", Value(p.linkedin)) && fs[4] == Field("| ", Value(p.website));
    ContactLine(fs)
  }

  /** The institution and the dates, "degree in field", and "GPA: x" when
      set. */
  function EducationEntry(e: Education): Entry
  {
    Entry([Row([Text(e.institution), Text(Period(e, EnDash))]), TextRow(Degree(e))] + OptionalRow(e.gpa, "GPA: "))
  }

  /** The name with the link beside it, the description and the
      technologies. */
  function ProjectEntry(p: Project): Entry
  {
    Entry([Row([Text(p.name)] + (if Truthy(p.link) then [Text(p.link.value)] else [])),
           TextRow(p.description),
           TextRow("Technologies: " + Join(p.technologies, ", "))])
  }

  /** The name, " - " and the issuer, and the date at the end. */
  function CertificationEntry(c: Certification): Entry
  {
    Entry([Row([Text(c.name), Text(" - " + c.issuer), Text(c.date)])])
  }

  /** "language (proficiency)". */
  function LanguageLabel(l: Language): string
  {
    l.language + " (" + l.proficiency + ")"
  }

  /** The i-th language with ", " after it unless it is the last. */
  function LanguageSpan(ls: seq<Language>, i: nat): Span
    requires i < |ls|
  {
    Text(LanguageLabel(ls[i]) + if i < |ls| - 1 then ", " else "")
  }

  /** The spans of the first `n` languages. */
  function LanguageSpans(ls: seq<Language>, n: nat): (r: seq<Span>)
    requires n <= |ls|
    ensures |r| == n
  {
    if n == 0 then [] else LanguageSpans(ls, n - 1) + [LanguageSpan(ls, n - 1)]
  }

  /** The text a row reads as: its text spans one after another. */
  function RowText(spans: seq<Span>): string
    decreases |spans|
  {
    if spans == [] then ""
    else RowText(spans[..|spans| - 1]) + (if spans[|spans| - 1].Text? then spans[|spans| - 1].text else "")
  }

  /** The section of each kind. */
  function Build(d: ResumeData, k: Kind): (r: Section)
    ensures r.kind == k
  {
    match k
    case SummarySection => Section(k, "Professional Summary", [Entry([TextRow(Value(d.summary))])])
    case ExperienceSection => Section(k, "Work Experience", ExperienceEntries(d.experience, EnDash))
    case EducationSection => Section(k, "Education", Map(d.education, EducationEntry))
    case SkillsSection => Section(k, "Skills", SkillEntries(d.skills))
    case ProjectsSection => Section(k, "Projects", Map(d.projects, ProjectEntry))
    case CertificationsSection => Section(k, "Certifications", Map(d.certifications, CertificationEntry))
    case LanguagesSection => Section(k, "Languages", [Entry([Row(LanguageSpans(d.languages, |d.languages|))])])
  }

  function BuildOf(d: ResumeData): Kind -> Section
  {
    k => Build(d, k)
  }

  /** `ATSSimpleTemplate({ data })`. */
  function Render(d: ResumeData): (r: Doc)
    ensures r.fontClass.None?
    ensures r.name != ""
    ensures d.personal.fullName != "" ==> r.name == d.personal.fullName
    ensures d.personal.fullName == "" ==> r.name == "Your Name"
  {
    Doc(None, DisplayName(d.personal.fullName), Contact(d.personal), Select(Order, ContentOf(d), BuildOf(d)))
  }

  lemma OrderDistinct()
    ensures Distinct(Order)
    ensures forall k :: k in Order
  {
    forall k
      ensures k in Order
    {
      match k
      case SummarySection => assert Order[0] == k;
      case ExperienceSection => assert Order[1] == k;
      case EducationSection => assert Order[2] == k;
      case SkillsSection => assert Order[3] == k;
      case ProjectsSection => assert Order[4] == k;
      case CertificationsSection => assert Order[5] == k;
      case LanguagesSection => assert Order[6] == k;
    }
  }

  /** Every section shows exactly when the resume has content for it, and
      the sections follow the page order. */
  lemma SectionsShown(d: ResumeData)
    ensures var ks := Kinds(Render(d).sections);
      && (forall k :: k in ks <==> HasContent(d, k))
      && forall i, j :: 0 <= i < j < |ks| ==> IndexOf(Order, ks[i]) < IndexOf(Order, ks[j])
  {
    OrderDistinct();
    SelectKinds(Order, ContentOf(d), BuildOf(d));
  }

  /** The work experience section lists the positions in stored order. */
  lemma ExperienceListed(d: ResumeData)
    ensures var f := Find(Render(d).sections, ExperienceSection);
      && (f.Some? <==> |d.experience| > 0)
      && (f.Some? ==> f.value.heading == "Work Experience" && f.value.entries == ExperienceEntries(d.experience, EnDash))
  {
    OrderDistinct();
    SelectFinds(Order, ContentOf(d), BuildOf(d), ExperienceSection);
  }

  /** The fresher flag is never consulted. */
  lemma FresherIgnored(d: ResumeData, fresher: Option<bool>)
    ensures Render(d.(personal := d.personal.(isFresher := fresher))) == Render(d)
  {
    var d' := d.(personal := d.personal.(isFresher := fresher));
    SelectSame(Order, ContentOf(d'), BuildOf(d'), ContentOf(d), BuildOf(d));
  }

  /** The languages row reads as the labels joined by ", ": the separator
      the source adds after every language but the last is exactly a join. */
  lemma {:induction false} LanguagesJoined(ls: seq<Language>)
    ensures RowText(LanguageSpans(ls, |ls|)) == Join(Map(ls, LanguageLabel), ", ")
  {
    var labels := Map(ls, LanguageLabel);
    if |ls| == 1 {
      assert LanguageSpans(ls, 1) == [LanguageSpan(ls, 0)];
      assert LanguageSpans(ls, 1)[..0] == [];
    } else if |ls| > 1 {
      var n := |ls| - 1;
      JoinedPrefix(ls, n);
      var spans := LanguageSpans(ls, |ls|);
      assert spans[..|spans| - 1] == LanguageSpans(ls, n);
      assert labels[..n] + [labels[n]] == labels;
      JoinSnoc(labels[..n], labels[n], ", ");
    }
  }

  /** Each of the first `n` languages, short of the last, is followed by
      ", ". */
  lemma {:induction false} JoinedPrefix(ls: seq<Language>, n: nat)
    requires 1 <= n < |ls|
    ensures RowText(LanguageSpans(ls, n)) == Join(Map(ls, LanguageLabel)[..n], ", ") + ", "
  {
    var labels := Map(ls, LanguageLabel);
    var spans := LanguageSpans(ls, n);
    var l := labels[n - 1];
    assert spans[..|spans| - 1] == LanguageSpans(ls, n - 1);
    assert RowText(spans) == RowText(LanguageSpans(ls, n - 1)) + (l + ", ");
    if n == 1 {
      assert LanguageSpans(ls, 0) == [];
      assert labels[..1] == [l];
    } else {
      var j := Join(labels[..n - 1], ", ");
      assert RowText(LanguageSpans(ls, n - 1)) == j + ", " by {
        JoinedPrefix(ls, n - 1);
      }
      assert Join(labels[..n], ", ") == (j + ", ") + l by {
        assert labels[..n - 1] + [l] == labels[..n];
        JoinSnoc(labels[..n - 1], l, ", ");
      }
      Assoc(j + ", ", l, ", ");
    }
  }

  /** A certification reads as its name, " - " and the issuer, then its
      date. */
  lemma CertificationShown(c: Certification)
    ensures var row := CertificationEntry(c).lines[0];
      row.Row? && RowText(row.spans) == c.name + " - " + c.issuer + c.date
      && row.spans[|row.spans| - 1] == Text(c.date)
  {
    var spans := [Text(c.name), Text(" - " + c.issuer), Text(c.date)];
    var one, two := [Text(c.name)], [Text(c.name), Text(" - " + c.issuer)];
    assert one[..0] == [];
    assert RowText(one) == c.name;
    assert two[..1] == one;
    assert RowText(two) == c.name + " - " + c.issuer;
    assert spans[..2] == two;
    assert RowText(spans) == c.name + " - " + c.issuer + c.date;
  }

  /** "GPA: x" follows the degree exactly when `gpa` is set. */
  lemma EducationShown(e: Education)
    ensures var lines := EducationEntry(e).lines;
      && |lines| == (if Truthy(e.gpa) then 3 else 2)
      && (Truthy(e.gpa) ==> lines[2] == TextRow("GPA: " + e.gpa.value))
  {
    var head := [Row([Text(e.institution), Text(Period(e, EnDash))]), TextRow(Degree(e))];
    assert EducationEntry(e).lines == head + OptionalRow(e.gpa, "GPA: ");
  }
}
