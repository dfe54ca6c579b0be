// The editing handlers of client/src/components/FormBuilder.tsx. Each one
// builds a new resume from the current one (spreads, `map`, `filter`) and
// hands it to `onChange`; here each is a function from the old resume to
// the new. `crypto.randomUUID()` is the `newId` parameter.
module FormBuilder {
  import opened Wrappers
  import opened Seqs
  import opened JsText
  import opened Schema

  // ---------------------------------------------------------------------
  // Collections keyed by id

  predicate UniqueIds<T>(s: seq<T>, idOf: T -> string)
  {
    forall i, j :: 0 <= i < j < |s| ==> idOf(s[i]) != idOf(s[j])
  }

  /** `s.map(x => x.id === id ? f(x) : x)`. */
  function UpdateById<T>(s: seq<T>, idOf: T -> string, id: string, f: T -> T): (r: seq<T>)
    ensures |r| == |s|
    ensures forall i :: 0 <= i < |s| ==> r[i] == if idOf(s[i]) == id then f(s[i]) else s[i]
  {
    MapWhere(s, x => idOf(x) == id, f)
  }

  /** `s.filter(x => x.id !== id)`. */
  function RemoveById<T(!new)>(s: seq<T>, idOf: T -> string, id: string): (r: seq<T>)
    ensures forall x :: x in r <==> x in s && idOf(x) != id
  {
    Filter(s, x => idOf(x) != id)
  }

  /** With unique ids, removing the id of position `k` deletes exactly
      that position and keeps the rest in order. */
  lemma RemoveUniqueId<T(!new)>(s: seq<T>, idOf: T -> string, k: nat)
    requires UniqueIds(s, idOf) && k < |s|
    ensures RemoveById(s, idOf, idOf(s[k])) == s[..k] + s[k + 1..]
  {
    var id := idOf(s[k]);
    FilterDropsOne(s, x => idOf(x) != id, k);
  }

  /** Removing an id nobody has changes nothing. */
  lemma RemoveAbsentId<T(!new)>(s: seq<T>, idOf: T -> string, id: string)
    requires forall i :: 0 <= i < |s| ==> idOf(s[i]) != id
    ensures RemoveById(s, idOf, id) == s
  {
    FilterAll(s, x => idOf(x) != id);
  }

  /** Appending a record with a fresh id keeps ids unique. */
  lemma AppendFreshId<T>(s: seq<T>, idOf: T -> string, x: T)
    requires UniqueIds(s, idOf)
    requires forall i :: 0 <= i < |s| ==> idOf(s[i]) != idOf(x)
    ensures UniqueIds(s + [x], idOf)
  {
  }

  /** An update that keeps ids keeps them unique. */
  lemma UpdateKeepsUniqueIds<T>(s: seq<T>, idOf: T -> string, id: string, f: T -> T)
    requires UniqueIds(s, idOf)
    requires forall x :: idOf(f(x)) == idOf(x)
    ensures UniqueIds(UpdateById(s, idOf, id, f), idOf)
  {
    var r := UpdateById(s, idOf, id, f);
    assert forall i :: 0 <= i < |s| ==> idOf(r[i]) == idOf(s[i]);
  }

  /** Removal keeps ids unique. */
  lemma RemoveKeepsUniqueIds<T(!new)>(s: seq<T>, idOf: T -> string, id: string)
    requires UniqueIds(s, idOf)
    ensures UniqueIds(RemoveById(s, idOf, id), idOf)
  {
    FilterPreservesDistinctBy(s, x => idOf(x) != id, idOf);
  }

  lemma {:induction false} FilterPreservesDistinctBy<T(!new)>(s: seq<T>, p: T -> bool, idOf: T -> string)
    requires UniqueIds(s, idOf)
    ensures UniqueIds(Filter(s, p), idOf)
    decreases |s|
  {
    if s != [] {
      var init := s[..|s| - 1];
      FilterPreservesDistinctBy(init, p, idOf);
      var fi := Filter(init, p);
      forall x | x in fi ensures idOf(x) != idOf(s[|s| - 1]) {
        var k :| 0 <= k < |init| && init[k] == x;
      }
    }
  }

  function EducationId(e: Education): string { e.id }
  function ExperienceId(e: Experience): string { e.id }
  function ProjectId(p: Project): string { p.id }
  function SkillGroupId(g: SkillGroup): string { g.id }
  function CertificationId(c: Certification): string { c.id }
  function LanguageId(l: Language): string { l.id }

  // ---------------------------------------------------------------------
  // Personal details and summary

  datatype PersonalField =
    | FullName | Email | Phone | Location | Linkedin | Website
    | Github | Leetcode | Twitter | CustomLink | CustomLinkLabel

  function GetPersonal(p: Personal, f: PersonalField): Option<string>
  {
    match f
    case FullName => Some(p.fullName)
    case Email => Some(p.email)
    case Phone => Some(p.phone)
    case Location => Some(p.location)
    case Linkedin => p.linkedin
    case Website => p.website
    case Github => p.github
    case Leetcode => p.leetcode
    case Twitter => p.twitter
    case CustomLink => p.customLink
    case CustomLinkLabel => p.customLinkLabel
  }

  function SetPersonal(p: Personal, f: PersonalField, v: string): (r: Personal)
    ensures GetPersonal(r, f) == Some(v)
    ensures forall g :: g != f ==> GetPersonal(r, g) == GetPersonal(p, g)
    ensures r.isFresher == p.isFresher
  {
    match f
    case FullName => p.(fullName := v)
    case Email => p.(email := v)
    case Phone => p.(phone := v)
    case Location => p.(location := v)
    case Linkedin => p.(linkedin := Some(v))
    case Website => p.(website := Some(v))
    case Github => p.(github := Some(v))
    case Leetcode => p.(leetcode := Some(v))
    case Twitter => p.(twitter := Some(v))
    case CustomLink => p.(customLink := Some(v))
    case CustomLinkLabel => p.(customLinkLabel := Some(v))
  }

  /** `updatePersonal(field, value)` for a text field: only that field of
      `personal` changes, and nothing outside `personal`. */
  function UpdatePersonal(d: ResumeData, f: PersonalField, v: string): (r: ResumeData)
    ensures GetPersonal(r.personal, f) == Some(v)
    ensures forall g :: g != f ==> GetPersonal(r.personal, g) == GetPersonal(d.personal, g)
    ensures r.personal.isFresher == d.personal.isFresher
    ensures r.(personal := d.personal) == d
  {
    d.(personal := SetPersonal(d.personal, f, v))
  }

  /** `updatePersonal("isFresher", checked)`. */
  function SetFresher(d: ResumeData, checked: bool): (r: ResumeData)
    ensures r.personal.isFresher == Some(checked)
    ensures forall g :: GetPersonal(r.personal, g) == GetPersonal(d.personal, g)
    ensures r.(personal := d.personal) == d
  {
    d.(personal := d.personal.(isFresher := Some(checked)))
  }

  /** The summary text area. */
  function SetSummary(d: ResumeData, v: string): (r: ResumeData)
    ensures r.summary == Some(v) && r.(summary := d.summary) == d
  {
    d.(summary := Some(v))
  }

  // ---------------------------------------------------------------------
  // Education

  datatype EducationField =
    | Institution | Degree | StudyField | EduStart | EduEnd | Gpa
    | ScoreType | ScoreValue | ScoreScale | ShowAs

  function GetEducation(e: Education, f: EducationField): Option<string>
  {
    match f
    case Institution => Some(e.institution)
    case Degree => Some(e.degree)
    case StudyField => Some(e.field)
    case EduStart => Some(e.startDate)
    case EduEnd => Some(e.endDate)
    case Gpa => e.gpa
    case ScoreType => e.scoreType
    case ScoreValue => e.scoreValue
    case ScoreScale => e.scoreScale
    case ShowAs => e.showAs
  }

  /** `{ ...edu, [field]: value }`. */
  function SetEducation(e: Education, f: EducationField, v: string): (r: Education)
    ensures r.id == e.id
    ensures GetEducation(r, f) == Some(v)
    ensures forall g :: g != f ==> GetEducation(r, g) == GetEducation(e, g)
  {
    match f
    case Institution => e.(institution := v)
    case Degree => e.(degree := v)
    case StudyField => e.(field := v)
    case EduStart => e.(startDate := v)
    case EduEnd => e.(endDate := v)
    case Gpa => e.(gpa := Some(v))
    case ScoreType => e.(scoreType := Some(v))
    case ScoreValue => e.(scoreValue := Some(v))
    case ScoreScale => e.(scoreScale := Some(v))
    case ShowAs => e.(showAs := Some(v))
  }

  /** `addEducation`: one blank entry appended. */
  function AddEducation(d: ResumeData, newId: string): (r: ResumeData)
    ensures |r.education| == |d.education| + 1 && r.education[..|d.education|] == d.education
    ensures var e := r.education[|d.education|];
      && e.id == newId
      && e.institution == "" && e.degree == "" && e.field == ""
      && e.startDate == "" && e.endDate == "" && e.gpa == Some("")
      && e.scoreType.None? && e.scoreValue.None? && e.scoreScale.None? && e.showAs.None?
    ensures r.(education := d.education) == d
  {
    d.(education := d.education + [Education(newId, "", "", "", "", "", Some(""), None, None, None, None)])
  }

  /** `updateEducation(id, field, value)`. */
  function UpdateEducation(d: ResumeData, id: string, f: EducationField, v: string): (r: ResumeData)
    ensures |r.education| == |d.education|
    ensures forall i :: 0 <= i < |d.education| ==>
              r.education[i] == if d.education[i].id == id then SetEducation(d.education[i], f, v) else d.education[i]
    ensures r.(education := d.education) == d
  {
    d.(education := UpdateById(d.education, EducationId, id, e => SetEducation(e, f, v)))
  }

  /** `removeEducation(id)`. */
  function RemoveEducation(d: ResumeData, id: string): (r: ResumeData)
    ensures forall e :: e in r.education <==> e in d.education && e.id != id
    ensures r.(education := d.education) == d
  {
    d.(education := RemoveById(d.education, EducationId, id))
  }

  // ---------------------------------------------------------------------
  // Experience and bullets

  datatype ExperienceField = Company | Position | JobStart | JobEnd

  function GetExperience(e: Experience, f: ExperienceField): string
  {
    match f
    case Company => e.company
    case Position => e.position
    case JobStart => e.startDate
    case JobEnd => e.endDate
  }

  function SetExperience(e: Experience, f: ExperienceField, v: string): (r: Experience)
    ensures r.id == e.id && r.current == e.current && r.bullets == e.bullets
    ensures GetExperience(r, f) == v
    ensures forall g :: g != f ==> GetExperience(r, g) == GetExperience(e, g)
  {
    match f
    case Company => e.(company := v)
    case Position => e.(position := v)
    case JobStart => e.(startDate := v)
    case JobEnd => e.(endDate := v)
  }

  /** `addExperience`: a blank entry, not current, with one empty bullet. */
  function AddExperience(d: ResumeData, newId: string): (r: ResumeData)
    ensures |r.experience| == |d.experience| + 1 && r.experience[..|d.experience|] == d.experience
    ensures var e := r.experience[|d.experience|];
      && e.id == newId && e.current == Some(false) && e.bullets == [""]
      && e.company == "" && e.position == "" && e.startDate == "" && e.endDate == ""
    ensures r.(experience := d.experience) == d
  {
    d.(experience := d.experience + [Experience(newId, "", "", "", "", Some(false), [""])])
  }

  function UpdateExperience(d: ResumeData, id: string, f: ExperienceField, v: string): (r: ResumeData)
    ensures |r.experience| == |d.experience|
    ensures forall i :: 0 <= i < |d.experience| ==>
              r.experience[i] == if d.experience[i].id == id then SetExperience(d.experience[i], f, v) else d.experience[i]
    ensures r.(experience := d.experience) == d
  {
    d.(experience := UpdateById(d.experience, ExperienceId, id, e => SetExperience(e, f, v)))
  }

  function RemoveExperience(d: ResumeData, id: string): (r: ResumeData)
    ensures forall e :: e in r.experience <==> e in d.experience && e.id != id
    ensures r.(experience := d.experience) == d
  {
    d.(experience := RemoveById(d.experience, ExperienceId, id))
  }

  /** `bullets.map((b, i) => i === index ? value : b)`. */
  function ReplaceAt(s: seq<string>, index: int, v: string): (r: seq<string>)
    ensures |r| == |s|
    ensures 0 <= index < |s| ==> r[index] == v
    ensures forall i :: 0 <= i < |s| && i != index ==> r[i] == s[i]
  {
    seq(|s|, i requires 0 <= i < |s| => if i == index then v else s[i])
  }

  /** `bullets.filter((_, i) => i !== index)`. */
  function RemoveAt(s: seq<string>, index: int): (r: seq<string>)
    ensures 0 <= index < |s| ==> |r| == |s| - 1
    ensures 0 <= index < |s| ==> forall i :: 0 <= i < |r| ==> r[i] == if i < index then s[i] else s[i + 1]
    ensures !(0 <= index < |s|) ==> r == s
  {
    if 0 <= index < |s| then s[..index] + s[index + 1..] else s
  }

  /** The experience entry with id `expId`, with `f` applied to its bullets;
      every other entry and every other field as they were. */
  predicate BulletsEdited(d: ResumeData, r: ResumeData, expId: string, f: seq<string> -> seq<string>)
  {
    && |r.experience| == |d.experience|
    && r.(experience := d.experience) == d
    && forall i :: 0 <= i < |d.experience| ==>
         r.experience[i] == if d.experience[i].id == expId
                            then d.experience[i].(bullets := f(d.experience[i].bullets))
                            else d.experience[i]
  }

  function AddBullet(d: ResumeData, expId: string): (r: ResumeData)
    ensures BulletsEdited(d, r, expId, b => b + [""])
  {
    d.(experience := UpdateById(d.experience, ExperienceId, expId, (e: Experience) => e.(bullets := e.bullets + [""])))
  }

  function UpdateBullet(d: ResumeData, expId: string, index: int, v: string): (r: ResumeData)
    ensures BulletsEdited(d, r, expId, b => ReplaceAt(b, index, v))
  {
    d.(experience := UpdateById(d.experience, ExperienceId, expId, (e: Experience) => e.(bullets := ReplaceAt(e.bullets, index, v))))
  }

  function RemoveBullet(d: ResumeData, expId: string, index: int): (r: ResumeData)
    ensures BulletsEdited(d, r, expId, b => RemoveAt(b, index))
  {
    d.(experience := UpdateById(d.experience, ExperienceId, expId, (e: Experience) => e.(bullets := RemoveAt(e.bullets, index))))
  }

  // ---------------------------------------------------------------------
  // Projects

  datatype ProjectField = ProjectName | ProjectDescription | ProjectLink | ProjectLinkLabel

  function GetProject(p: Project, f: ProjectField): Option<string>
  {
    match f
    case ProjectName => Some(p.name)
    case ProjectDescription => Some(p.description)
    case ProjectLink => p.link
    case ProjectLinkLabel => p.linkLabel
  }

  function SetProject(p: Project, f: ProjectField, v: string): (r: Project)
    ensures r.id == p.id && r.technologies == p.technologies
    ensures GetProject(r, f) == Some(v)
    ensures forall g :: g != f ==> GetProject(r, g) == GetProject(p, g)
  {
    match f
    case ProjectName => p.(name := v)
    case ProjectDescription => p.(description := v)
    case ProjectLink => p.(link := Some(v))
    case ProjectLinkLabel => p.(linkLabel := Some(v))
  }

  function AddProject(d: ResumeData, newId: string): (r: ResumeData)
    ensures |r.projects| == |d.projects| + 1 && r.projects[..|d.projects|] == d.projects
    ensures var p := r.projects[|d.projects|];
      p.id == newId && p.name == "" && p.description == "" && p.technologies == []
      && p.link == Some("") && p.linkLabel.None?
    ensures r.(projects := d.projects) == d
  {
    d.(projects := d.projects + [Project(newId, "", "", [], Some(""), None)])
  }

  function UpdateProject(d: ResumeData, id: string, f: ProjectField, v: string): (r: ResumeData)
    ensures |r.projects| == |d.projects|
    ensures forall i :: 0 <= i < |d.projects| ==>
              r.projects[i] == if d.projects[i].id == id then SetProject(d.projects[i], f, v) else d.projects[i]
    ensures r.(projects := d.projects) == d
  {
    d.(projects := UpdateById(d.projects, ProjectId, id, p => SetProject(p, f, v)))
  }

  /** The technologies input: split at commas and trimmed; empty entries
      are kept. */
  function ParseTechnologies(input: string): (r: seq<string>)
    ensures |r| == |Split(input, ',')|
    ensures forall i :: 0 <= i < |r| ==> r[i] == Trim(Split(input, ',')[i])
  {
    var parts := Split(input, ',');
    seq(|parts|, i requires 0 <= i < |parts| => Trim(parts[i]))
  }

  /** Empty entries survive: a leading comma gives an empty first
      technology. */
  lemma TechnologiesKeepEmptyEntries(rest: string)
    ensures |ParseTechnologies("," + rest)| == |Split(rest, ',')| + 1
    ensures ParseTechnologies("," + rest)[0] == ""
  {
    SplitPrefix("", rest, ',');
    assert "" + [','] + rest == "," + rest;
    assert Trim("") == "";
  }

  function SetTechnologies(d: ResumeData, id: string, input: string): (r: ResumeData)
    ensures |r.projects| == |d.projects|
    ensures forall i :: 0 <= i < |d.projects| ==>
              r.projects[i] == if d.projects[i].id == id
                               then d.projects[i].(technologies := ParseTechnologies(input))
                               else d.projects[i]
    ensures r.(projects := d.projects) == d
  {
    d.(projects := UpdateById(d.projects, ProjectId, id, (p: Project) => p.(technologies := ParseTechnologies(input))))
  }

  function RemoveProject(d: ResumeData, id: string): (r: ResumeData)
    ensures forall p :: p in r.projects <==> p in d.projects && p.id != id
    ensures r.(projects := d.projects) == d
  {
    d.(projects := RemoveById(d.projects, ProjectId, id))
  }

  // ---------------------------------------------------------------------
  // Skill groups

  function AddSkillGroup(d: ResumeData, newId: string): (r: ResumeData)
    ensures |r.skills| == |d.skills| + 1 && r.skills[..|d.skills|] == d.skills
    ensures r.skills[|d.skills|] == SkillGroup(newId, "", [])
    ensures r.(skills := d.skills) == d
  {
    d.(skills := d.skills + [SkillGroup(newId, "", [])])
  }

  function SetCategory(d: ResumeData, id: string, v: string): (r: ResumeData)
    ensures |r.skills| == |d.skills|
    ensures forall i :: 0 <= i < |d.skills| ==>
              r.skills[i] == if d.skills[i].id == id then d.skills[i].(category := v) else d.skills[i]
    ensures r.(skills := d.skills) == d
  {
    d.(skills := UpdateById(d.skills, SkillGroupId, id, (g: SkillGroup) => g.(category := v)))
  }

  function SetSkillItems(d: ResumeData, id: string, items: seq<string>): (r: ResumeData)
    ensures |r.skills| == |d.skills|
    ensures forall i :: 0 <= i < |d.skills| ==>
              r.skills[i] == if d.skills[i].id == id then d.skills[i].(items := items) else d.skills[i]
    ensures r.(skills := d.skills) == d
  {
    d.(skills := UpdateById(d.skills, SkillGroupId, id, (g: SkillGroup) => g.(items := items)))
  }

  /** Typing in a group's skills input: the text is split at commas and
      trimmed as the technologies input is, with empty entries kept until
      the input loses focus. */
  function SetSkillItemsTyped(d: ResumeData, id: string, input: string): (r: ResumeData)
    ensures |r.skills| == |d.skills|
    ensures forall i :: 0 <= i < |d.skills| ==>
              r.skills[i] == if d.skills[i].id == id
                             then d.skills[i].(items := ParseTechnologies(input))
                             else d.skills[i]
    ensures r.(skills := d.skills) == d
  {
    SetSkillItems(d, id, ParseTechnologies(input))
  }

  function RemoveSkillGroup(d: ResumeData, id: string): (r: ResumeData)
    ensures forall g :: g in r.skills <==> g in d.skills && g.id != id
    ensures r.(skills := d.skills) == d
  {
    d.(skills := RemoveById(d.skills, SkillGroupId, id))
  }

  predicate NonEmpty(x: string) { x != "" }

  function TrimAll(items: seq<string>): (r: seq<string>)
    ensures |r| == |items| && forall i :: 0 <= i < |items| ==> r[i] == Trim(items[i])
    ensures forall x :: x in r ==> Trim(x) == x
  {
    var r := seq(|items|, i requires 0 <= i < |items| => Trim(items[i]));
    forall x | x in r ensures Trim(x) == x {
      var i :| 0 <= i < |r| && r[i] == x;
      TrimIdempotent(items[i]);
    }
    r
  }

  /** The comma-separated skills input and the suggester both normalise the
      list this way: each item trimmed, then the index filter. The result is
      the trimmed non-empty items, each once, in first-occurrence order. */
  function NormaliseItems(items: seq<string>): (r: seq<string>)
    ensures r == Dedup(Filter(TrimAll(items), NonEmpty))
    ensures Distinct(r)
    ensures forall x :: x in r <==> x != "" && x in TrimAll(items)
    ensures forall x :: x in r ==> Trim(x) == x
  {
    var t := TrimAll(items);
    FirstOccurrencesIsDedup(t, NonEmpty, |t|);
    assert t[..|t|] == t;
    FirstOccurrences(t, NonEmpty, |t|)
  }

  /** The skills input on blur: split at commas, then normalised. */
  function CommitSkillsInput(input: string): (r: seq<string>)
    ensures r == NormaliseItems(Split(input, ','))
    ensures Distinct(r)
    ensures forall x :: x in r ==> x != "" && Trim(x) == x && ',' !in x
  {
    var parts := Split(input, ',');
    TrimmedWithout(parts, ',');
    NormaliseItems(parts)
  }

  /** Trimming keeps out a character that no item holds. */
  lemma TrimmedWithout(items: seq<string>, c: char)
    requires forall i :: 0 <= i < |items| ==> c !in items[i]
    ensures forall x :: x in TrimAll(items) ==> c !in x
  {
    var t := TrimAll(items);
    forall x | x in t ensures c !in x {
      var k :| 0 <= k < |t| && t[k] == x;
      TrimChars(items[k]);
    }
  }

  /** A suggested skill appended to the group's items, then normalised: the
      skill is there afterwards (trimmed) and nothing is listed twice. */
  function AddSuggestedSkill(items: seq<string>, skill: string): (r: seq<string>)
    ensures r == NormaliseItems(items + [skill])
    ensures Distinct(r)
    ensures Trim(skill) != "" ==> Trim(skill) in r
    ensures forall x :: x in r ==> Trim(x) == x && x != ""
  {
    var all := items + [skill];
    assert TrimAll(all)[|items|] == Trim(skill);
    NormaliseItems(all)
  }

  // ---------------------------------------------------------------------
  // Certifications

  datatype CertificationField = CertName | CertIssuer | CertDate | CertLink

  function GetCertification(c: Certification, f: CertificationField): Option<string>
  {
    match f
    case CertName => Some(c.name)
    case CertIssuer => Some(c.issuer)
    case CertDate => Some(c.date)
    case CertLink => c.link
  }

  function SetCertification(c: Certification, f: CertificationField, v: string): (r: Certification)
    ensures r.id == c.id
    ensures GetCertification(r, f) == Some(v)
    ensures forall g :: g != f ==> GetCertification(r, g) == GetCertification(c, g)
  {
    match f
    case CertName => c.(name := v)
    case CertIssuer => c.(issuer := v)
    case CertDate => c.(date := v)
    case CertLink => c.(link := Some(v))
  }

  function AddCertification(d: ResumeData, newId: string): (r: ResumeData)
    ensures |r.certifications| == |d.certifications| + 1
    ensures r.certifications[..|d.certifications|] == d.certifications
    ensures r.certifications[|d.certifications|] == Certification(newId, "", "", "", Some(""))
    ensures r.(certifications := d.certifications) == d
  {
    d.(certifications := d.certifications + [Certification(newId, "", "", "", Some(""))])
  }

  function UpdateCertification(d: ResumeData, id: string, f: CertificationField, v: string): (r: ResumeData)
    ensures |r.certifications| == |d.certifications|
    ensures forall i :: 0 <= i < |d.certifications| ==>
              r.certifications[i] == if d.certifications[i].id == id
                                     then SetCertification(d.certifications[i], f, v)
                                     else d.certifications[i]
    ensures r.(certifications := d.certifications) == d
  {
    d.(certifications := UpdateById(d.certifications, CertificationId, id, c => SetCertification(c, f, v)))
  }

  function RemoveCertification(d: ResumeData, id: string): (r: ResumeData)
    ensures forall c :: c in r.certifications <==> c in d.certifications && c.id != id
    ensures r.(certifications := d.certifications) == d
  {
    d.(certifications := RemoveById(d.certifications, CertificationId, id))
  }

  /** The red hint under a certification link: a non-empty link that does
      not start with "http". */
  predicate CertLinkWarning(c: Certification)
  {
    Truthy(c.link) && !StartsWith(c.link.value, "http")
  }

  lemma CertLinkWarningCases(c: Certification)
    ensures c.link.None? || c.link == Some("") ==> !CertLinkWarning(c)
    ensures c.link.Some? && StartsWith(c.link.value, "http") ==> !CertLinkWarning(c)
    ensures c.link.Some? && c.link.value != "" && c.link.value[0] != 'h' ==> CertLinkWarning(c)
  {
  }

  // ---------------------------------------------------------------------
  // Languages

  datatype LanguageField = LanguageName | Proficiency

  function SetLanguage(l: Language, f: LanguageField, v: string): (r: Language)
    ensures r.id == l.id
    ensures f == LanguageName ==> r.language == v && r.proficiency == l.proficiency
    ensures f == Proficiency ==> r.proficiency == v && r.language == l.language
  {
    match f
    case LanguageName => l.(language := v)
    case Proficiency => l.(proficiency := v)
  }

  function AddLanguage(d: ResumeData, newId: string): (r: ResumeData)
    ensures |r.languages| == |d.languages| + 1 && r.languages[..|d.languages|] == d.languages
    ensures r.languages[|d.languages|] == Language(newId, "", "")
    ensures r.(languages := d.languages) == d
  {
    d.(languages := d.languages + [Language(newId, "", "")])
  }

  function UpdateLanguage(d: ResumeData, id: string, f: LanguageField, v: string): (r: ResumeData)
    ensures |r.languages| == |d.languages|
    ensures forall i :: 0 <= i < |d.languages| ==>
              r.languages[i] == if d.languages[i].id == id then SetLanguage(d.languages[i], f, v) else d.languages[i]
    ensures r.(languages := d.languages) == d
  {
    d.(languages := UpdateById(d.languages, LanguageId, id, l => SetLanguage(l, f, v)))
  }

  function RemoveLanguage(d: ResumeData, id: string): (r: ResumeData)
    ensures forall l :: l in r.languages <==> l in d.languages && l.id != id
    ensures r.(languages := d.languages) == d
  {
    d.(languages := RemoveById(d.languages, LanguageId, id))
  }

  /** Removing an entry by its id, when ids are unique, deletes just that
      entry; the rest keep their order. */
  lemma RemoveEducationAt(d: ResumeData, k: nat)
    requires UniqueIds(d.education, EducationId) && k < |d.education|
    ensures RemoveEducation(d, d.education[k].id).education == d.education[..k] + d.education[k + 1..]
  {
    RemoveUniqueId(d.education, EducationId, k);
  }

  /** Entries added with fresh ids keep the ids of the list unique, and
      updates and removals never make them clash. */
  lemma EducationIdsStayUnique(d: ResumeData, newId: string, id: string, f: EducationField, v: string)
    requires UniqueIds(d.education, EducationId)
    requires forall i :: 0 <= i < |d.education| ==> d.education[i].id != newId
    ensures UniqueIds(AddEducation(d, newId).education, EducationId)
    ensures UniqueIds(UpdateEducation(d, id, f, v).education, EducationId)
    ensures UniqueIds(RemoveEducation(d, id).education, EducationId)
  {
    AppendFreshId(d.education, EducationId, AddEducation(d, newId).education[|d.education|]);
    assert AddEducation(d, newId).education == d.education + [AddEducation(d, newId).education[|d.education|]];
    UpdateKeepsUniqueIds(d.education, EducationId, id, e => SetEducation(e, f, v));
    RemoveKeepsUniqueIds(d.education, EducationId, id);
  }
}
