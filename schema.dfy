// The resume document shared by client and server (shared/schema.ts), as
// the client holds it: the fields the server schema declares plus the
// client-only fields the form and the templates read (`isFresher`, the
// extra profile links, the education score fields, a project's link label).
module Schema {
  import opened Wrappers

  datatype Personal = Personal(
    fullName: string,
    email: string,
    phone: string,
    location: string,
    linkedin: Option<string>,
    website: Option<string>,
    // client-only fields
    isFresher: Option<bool>,
    github: Option<string>,
    leetcode: Option<string>,
    twitter: Option<string>,
    customLink: Option<string>,
    customLinkLabel: Option<string>)

  datatype Education = Education(
    id: string,
    institution: string,
    degree: string,
    field: string,
    startDate: string,
    endDate: string,
    gpa: Option<string>,
    // client-only fields
    scoreType: Option<string>,
    scoreValue: Option<string>,
    scoreScale: Option<string>,
    showAs: Option<string>)

  datatype Experience = Experience(
    id: string,
    company: string,
    position: string,
    startDate: string,
    endDate: string,
    current: Option<bool>,
    bullets: seq<string>)

  datatype Project = Project(
    id: string,
    name: string,
    description: string,
    technologies: seq<string>,
    link: Option<string>,
    // client-only field
    linkLabel: Option<string>)

  datatype SkillGroup = SkillGroup(id: string, category: string, items: seq<string>)

  datatype Certification = Certification(
    id: string,
    name: string,
    issuer: string,
    date: string,
    link: Option<string>)

  datatype Language = Language(id: string, language: string, proficiency: string)

  datatype ResumeData = ResumeData(
    personal: Personal,
    summary: Option<string>,
    education: seq<Education>,
    experience: seq<Experience>,
    projects: seq<Project>,
    skills: seq<SkillGroup>,
    certifications: seq<Certification>,
    languages: seq<Language>)

  /** A resume row as the server stores it. */
  datatype StoredResume = StoredResume(
    id: string,
    userId: string,
    title: string,
    data: ResumeData,
    template: string)

  /** The template column's default (and the client's fallback). */
  const DefaultTemplate: string := "classic"

  /** JavaScript truthiness of an optional string: present and non-empty. */
  predicate Truthy(o: Option<string>)
  {
    o.Some? && o.value != ""
  }

  /** JavaScript truthiness of an optional flag. */
  predicate IsSet(o: Option<bool>)
  {
    o == Some(true)
  }

  /** The text of an optional string, "" when it is missing. */
  function OrEmpty(o: Option<string>): string
  {
    o.GetOr("")
  }

  /** A segment of a validation issue's path: an object key or an index. */
  datatype PathSegment = Key(name: string) | Index(position: nat)

  /** What a schema check objected to. */
  datatype IssueCode =
    | InvalidEmail
    | TooShort(minimum: nat)
    | InvalidEnumValue(received: string)

  datatype Issue = Issue(path: seq<PathSegment>, code: IssueCode)

  /** The issue the email check reports. */
  const EmailIssue: Issue := Issue([Key("personal"), Key("email")], InvalidEmail)

  /** None of the client-only fields is present. */
  predicate DeclaredOnly(d: ResumeData)
  {
    && d.personal.isFresher.None? && d.personal.github.None?
    && d.personal.leetcode.None? && d.personal.twitter.None?
    && d.personal.customLink.None? && d.personal.customLinkLabel.None?
    && (forall i :: 0 <= i < |d.education| ==>
          d.education[i].scoreType.None? && d.education[i].scoreValue.None?
          && d.education[i].scoreScale.None? && d.education[i].showAs.None?)
    && (forall i :: 0 <= i < |d.projects| ==> d.projects[i].linkLabel.None?)
  }

  function StripPersonal(p: Personal): Personal
  {
    p.(isFresher := None, github := None, leetcode := None, twitter := None,
       customLink := None, customLinkLabel := None)
  }

  function StripEducation(e: Education): Education
  {
    e.(scoreType := None, scoreValue := None, scoreScale := None, showAs := None)
  }

  function StripProject(p: Project): Project
  {
    p.(linkLabel := None)
  }

  /** What a zod object schema keeps of `d`: keys it does not declare are
      dropped, everything it declares is kept as it is. */
  function Strip(d: ResumeData): (r: ResumeData)
    ensures DeclaredOnly(r)
    ensures DeclaredOnly(d) ==> r == d
    ensures r.summary == d.summary && r.experience == d.experience
    ensures r.skills == d.skills && r.certifications == d.certifications
    ensures r.languages == d.languages
    ensures |r.education| == |d.education| && |r.projects| == |d.projects|
  {
    var r := d.(
      personal := StripPersonal(d.personal),
      education := seq(|d.education|, i requires 0 <= i < |d.education| => StripEducation(d.education[i])),
      projects := seq(|d.projects|, i requires 0 <= i < |d.projects| => StripProject(d.projects[i])));
    assert DeclaredOnly(d) ==> r.education == d.education && r.projects == d.projects;
    r
  }

  /** `resumeDataSchema.parse` as written: a resume whose email fails the
      email check is refused; otherwise the undeclared keys are dropped. */
  function ParseResumeDataAsWritten(d: ResumeData, emailOk: string -> bool): (r: Result<ResumeData, seq<Issue>>)
    ensures r.Ok? <==> emailOk(d.personal.email)
    ensures r.Ok? ==> r.value == Strip(d)
    ensures r.Err? ==> r.error == [EmailIssue]
  {
    if emailOk(d.personal.email) then Ok(Strip(d)) else Err([EmailIssue])
  }

  /** Stored client data loses every client-only field: a fresher who
      saves reads back a resume that no longer says so. */
  lemma FresherFlagLostAsWritten(d: ResumeData, emailOk: string -> bool)
    requires emailOk(d.personal.email) && d.personal.isFresher == Some(true)
    ensures ParseResumeDataAsWritten(d, emailOk).Ok?
    ensures ParseResumeDataAsWritten(d, emailOk).value != d
    ensures ParseResumeDataAsWritten(d, emailOk).value.personal.isFresher == None
  {
  }

  /** The resume schema with the client-only fields declared: a resume
      passing the email check is kept whole. */
  function ParseResumeData(d: ResumeData, emailOk: string -> bool): (r: Result<ResumeData, seq<Issue>>)
    ensures r.Ok? <==> emailOk(d.personal.email)
    ensures r.Ok? ==> r.value == d
    ensures r.Err? ==> r.error == [EmailIssue]
  {
    if emailOk(d.personal.email) then Ok(d) else Err([EmailIssue])
  }

  /** Saving and reading back is the identity for every accepted resume. */
  lemma ParseRoundTrip(d: ResumeData, emailOk: string -> bool)
    requires ParseResumeData(d, emailOk).Ok?
    ensures ParseResumeData(ParseResumeData(d, emailOk).value, emailOk) == Ok(d)
  {
  }
}
