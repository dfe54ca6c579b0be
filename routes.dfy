// Request handling of server/routes.ts that decides something: the
// ownership check shared by the per-resume endpoints, body validation of
// create and update (title, resume data, template enum), the export
// placeholder and the assembly of the ATS analysis reply.
module Routes {
  import opened Wrappers
  import opened Seqs
  import opened Schema
  import opened JsNumbers
  import opened AtsScoring

  /** Why a request was refused: 404 "Resume not found", or 400 with the
      validation issues. */
  datatype Failure = NotFound | Invalid(issues: seq<Issue>)

  function Status(f: Failure): int
  {
    match f
    case NotFound => 404
    case Invalid(_) => 400
  }

  /** `!resume || resume.userId !== req.userId`: a resume is only ever
      served to its owner. */
  function OwnedResume(found: Option<StoredResume>, requester: string): (r: Result<StoredResume, Failure>)
    ensures r.Ok? <==> found.Some? && found.value.userId == requester
    ensures r.Ok? ==> r.value == found.value
    ensures r.Err? ==> r.error == NotFound
  {
    if found.None? || found.value.userId != requester then Err(NotFound) else Ok(found.value)
  }

  // ---------------------------------------------------------------------
  // The template enum

  /** The values `z.enum(["classic", "modern"])` admits. */
  const TemplatesAsWritten: set<string> := {"classic", "modern"}

  /** The values the client offers (`"classic" | "modern" | "minimal"`). */
  const ClientTemplates: set<string> := {"classic", "modern", "minimal"}

  /** The create schema's `template` field as written: defaults to
      "classic", otherwise must be "classic" or "modern". */
  function CreateTemplateAsWritten(t: Option<string>): (r: Result<string, Issue>)
    ensures r.Ok? <==> t.None? || t.value in TemplatesAsWritten
    ensures r.Ok? ==> r.value in TemplatesAsWritten
    ensures t.None? ==> r == Ok(DefaultTemplate)
  {
    match t
    case None => Ok(DefaultTemplate)
    case Some(v) =>
      if v in TemplatesAsWritten then Ok(v) else Err(Issue([Key("template")], InvalidEnumValue(v)))
  }

  /** The client's "minimal" choice is refused on create as written. */
  lemma MinimalRefusedAsWritten()
    ensures "minimal" in ClientTemplates
    ensures CreateTemplateAsWritten(Some("minimal")) == Err(Issue([Key("template")], InvalidEnumValue("minimal")))
  {
    assert "minimal" != "classic" && "minimal" != "modern";
  }

  /** The update schema's optional template as written: absent stays
      absent, otherwise it must be "classic" or "modern". */
  function UpdateTemplateAsWritten(t: Option<string>): (r: Result<Option<string>, Issue>)
    ensures r.Ok? <==> t.None? || t.value in TemplatesAsWritten
    ensures r.Ok? ==> r.value == t
    ensures r.Err? ==> r.error == Issue([Key("template")], InvalidEnumValue(t.value))
  {
    match t
    case None => Ok(None)
    case Some(v) =>
      if v in TemplatesAsWritten then Ok(Some(v)) else Err(Issue([Key("template")], InvalidEnumValue(v)))
  }

  /** The template field accepting every template the client offers. */
  function CreateTemplate(t: Option<string>): (r: Result<string, Issue>)
    ensures r.Ok? <==> t.None? || t.value in ClientTemplates
    ensures r.Ok? ==> r.value in ClientTemplates
    ensures t.None? ==> r == Ok(DefaultTemplate)
    ensures t.Some? && r.Ok? ==> r.value == t.value
  {
    match t
    case None => Ok(DefaultTemplate)
    case Some(v) =>
      if v in ClientTemplates then Ok(v) else Err(Issue([Key("template")], InvalidEnumValue(v)))
  }

  /** The update schema's optional template: absent stays absent. */
  function UpdateTemplate(t: Option<string>): (r: Result<Option<string>, Issue>)
    ensures r.Ok? <==> t.None? || t.value in ClientTemplates
    ensures r.Ok? ==> r.value == t
  {
    match t
    case None => Ok(None)
    case Some(v) =>
      if v in ClientTemplates then Ok(Some(v)) else Err(Issue([Key("template")], InvalidEnumValue(v)))
  }

  lemma ClientTemplatesAccepted(t: string)
    requires t in ClientTemplates
    ensures CreateTemplate(Some(t)) == Ok(t)
    ensures UpdateTemplate(Some(t)) == Ok(Some(t))
  {
  }

  // ---------------------------------------------------------------------
  // Create and update

  datatype CreateBody = CreateBody(title: string, data: ResumeData, template: Option<string>)

  datatype UpdateBody = UpdateBody(title: Option<string>, data: Option<ResumeData>, template: Option<string>)

  /** `z.string().min(1)` on the title. */
  function TitleIssues(title: string): (r: seq<Issue>)
    ensures r == [] <==> title != ""
  {
    if |title| >= 1 then [] else [Issue([Key("title")], TooShort(1))]
  }

  /** The issues of the resume data under the body's key `field` ("data"
      for create and update, "resumeData" for the analysis): the same under
      the schema as written and under the corrected one. */
  function DataIssues(field: string, d: ResumeData, emailOk: string -> bool): (r: seq<Issue>)
    ensures r == [] <==> ParseResumeData(d, emailOk).Ok?
    ensures r == [] <==> ParseResumeDataAsWritten(d, emailOk).Ok?
    ensures r != [] ==> r == [Issue([Key(field), Key("personal"), Key("email")], InvalidEmail)]
  {
    var p := ParseResumeData(d, emailOk);
    assert [Key(field)] + EmailIssue.path == [Key(field), Key("personal"), Key("email")];
    if p.Ok? then [] else [Issue([Key(field)] + EmailIssue.path, EmailIssue.code)]
  }

  /** The issues of the template field as written. */
  function TemplateIssuesAsWritten(t: Option<string>): (r: seq<Issue>)
    ensures r == [] <==> t.None? || t.value in TemplatesAsWritten
    ensures r != [] ==> r == [Issue([Key("template")], InvalidEnumValue(t.value))]
  {
    var p := CreateTemplateAsWritten(t);
    if p.Ok? then [] else [p.error]
  }

  /** The issues of the template field under the corrected enum. */
  function TemplateIssues(t: Option<string>): (r: seq<Issue>)
    ensures r == [] <==> CreateTemplate(t).Ok?
    ensures r == [] <==> t.None? || t.value in ClientTemplates
  {
    var p := CreateTemplate(t);
    if p.Ok? then [] else [p.error]
  }

  /** `createResumeSchema.parse` followed by `storage.createResume`, as
      written: the new row holds the parsed data, which has lost the
      client-only fields, and the client's "minimal" template is refused. */
  function CreateResumeAsWritten(requester: string, resumeId: string, body: CreateBody, emailOk: string -> bool)
    : (r: Result<StoredResume, Failure>)
    ensures r.Ok? <==> body.title != "" && emailOk(body.data.personal.email)
                       && (body.template.None? || body.template.value in TemplatesAsWritten)
    ensures r.Ok? ==> r.value == StoredResume(resumeId, requester, body.title, Strip(body.data),
                                              body.template.GetOr(DefaultTemplate))
    ensures r.Ok? ==> DeclaredOnly(r.value.data) && r.value.template in TemplatesAsWritten
    ensures r.Err? ==> r.error.Invalid? && r.error.issues != []
    ensures body.template == Some("minimal") ==>
              r.Err? && Issue([Key("template")], InvalidEnumValue("minimal")) in r.error.issues
  {
    var issues := TitleIssues(body.title) + DataIssues("data", body.data, emailOk) + TemplateIssuesAsWritten(body.template);
    if issues == [] then
      Ok(StoredResume(resumeId, requester, body.title, ParseResumeDataAsWritten(body.data, emailOk).value,
                      CreateTemplateAsWritten(body.template).value))
    else
      Err(Invalid(issues))
  }

  /** The create endpoint with the corrected schema: every template the
      client offers is accepted and the data is stored whole. */
  function CreateResume(requester: string, resumeId: string, body: CreateBody, emailOk: string -> bool)
    : (r: Result<StoredResume, Failure>)
    ensures r.Ok? <==> body.title != "" && emailOk(body.data.personal.email) && CreateTemplate(body.template).Ok?
    ensures r.Ok? ==> r.value == StoredResume(resumeId, requester, body.title, body.data, CreateTemplate(body.template).value)
    ensures r.Err? ==> r.error.Invalid? && r.error.issues != []
  {
    var issues := TitleIssues(body.title) + DataIssues("data", body.data, emailOk) + TemplateIssues(body.template);
    if issues == [] then
      Ok(StoredResume(resumeId, requester, body.title, body.data, CreateTemplate(body.template).value))
    else
      Err(Invalid(issues))
  }

  /** `storage.updateResume` with a validated patch: every provided field
      replaces the stored one, the rest stay. */
  function ApplyPatch(row: StoredResume, title: Option<string>, data: Option<ResumeData>, template: Option<string>)
    : (r: StoredResume)
    ensures r.id == row.id && r.userId == row.userId
    ensures r.title == title.GetOr(row.title)
    ensures r.data == data.GetOr(row.data)
    ensures r.template == template.GetOr(row.template)
  {
    row.(title := title.GetOr(row.title), data := data.GetOr(row.data), template := template.GetOr(row.template))
  }

  /** PATCH /api/resumes/:id as written: ownership first (404), then
      validation (400), then the patch, whose data has lost the client-only
      fields; a "minimal" template is refused. */
  function UpdateResumeAsWritten(found: Option<StoredResume>, requester: string, body: UpdateBody, emailOk: string -> bool)
    : (r: Result<StoredResume, Failure>)
    ensures OwnedResume(found, requester).Err? ==> r == Err(NotFound)
    ensures r.Ok? ==> found.Some? && found.value.userId == requester
    ensures r.Ok? ==> r.value == ApplyPatch(found.value, body.title,
                                            if body.data.Some? then Some(Strip(body.data.value)) else None,
                                            body.template)
    ensures r.Ok? && body.data.Some? ==> DeclaredOnly(r.value.data)
    ensures OwnedResume(found, requester).Ok? ==>
              (r.Ok? <==> (body.title.None? || body.title.value != "")
                          && (body.data.None? || emailOk(body.data.value.personal.email))
                          && (body.template.None? || body.template.value in TemplatesAsWritten))
    ensures OwnedResume(found, requester).Ok? && body.template == Some("minimal") ==> r.Err? && r.error.Invalid?
  {
    match OwnedResume(found, requester)
    case Err(e) => Err(e)
    case Ok(row) =>
      var issues :=
        (if body.title.Some? then TitleIssues(body.title.value) else [])
        + (if body.data.Some? then DataIssues("data", body.data.value, emailOk) else [])
        + TemplateIssuesAsWritten(body.template);
      if issues == [] then
        var data := if body.data.Some? then Some(ParseResumeDataAsWritten(body.data.value, emailOk).value) else None;
        Ok(ApplyPatch(row, body.title, data, UpdateTemplateAsWritten(body.template).value))
      else Err(Invalid(issues))
  }

  /** The update endpoint with the corrected schema: ownership first (404),
      then validation (400), then the patch with the data whole. */
  function UpdateResume(found: Option<StoredResume>, requester: string, body: UpdateBody, emailOk: string -> bool)
    : (r: Result<StoredResume, Failure>)
    ensures OwnedResume(found, requester).Err? ==> r == Err(NotFound)
    ensures r.Ok? ==> found.Some? && found.value.userId == requester
    ensures r.Ok? ==> r.value == ApplyPatch(found.value, body.title, body.data, body.template)
    ensures OwnedResume(found, requester).Ok? ==>
              (r.Ok? <==> (body.title.None? || body.title.value != "")
                          && (body.data.None? || emailOk(body.data.value.personal.email))
                          && UpdateTemplate(body.template).Ok?)
  {
    match OwnedResume(found, requester)
    case Err(e) => Err(e)
    case Ok(row) =>
      var issues :=
        (if body.title.Some? then TitleIssues(body.title.value) else [])
        + (if body.data.Some? then DataIssues("data", body.data.value, emailOk) else [])
        + (if body.template.Some? then TemplateIssues(body.template) else []);
      if issues == [] then Ok(ApplyPatch(row, body.title, body.data, body.template))
      else Err(Invalid(issues))
  }

  /** A patch never changes who owns a resume. */
  lemma UpdateKeepsOwner(found: Option<StoredResume>, requester: string, body: UpdateBody, emailOk: string -> bool)
    requires UpdateResume(found, requester, body, emailOk).Ok?
    ensures UpdateResume(found, requester, body, emailOk).value.userId == requester
    ensures UpdateResume(found, requester, body, emailOk).value.id == found.value.id
  {
  }

  // ---------------------------------------------------------------------
  // Export placeholder

  datatype ExportReply = ExportReply(message: string, resumeId: string, format: string)

  /** POST /api/resumes/:id/export: ownership, then the format enum, then
      a placeholder message; nothing is rendered. */
  function ExportResume(found: Option<StoredResume>, requester: string, format: string): (r: Result<ExportReply, Failure>)
    ensures OwnedResume(found, requester).Err? ==> r == Err(NotFound)
    ensures r.Ok? <==> OwnedResume(found, requester).Ok? && format in {"pdf", "docx"}
    ensures r.Ok? ==> r.value.resumeId == found.value.id && r.value.format == format
  {
    match OwnedResume(found, requester)
    case Err(e) => Err(e)
    case Ok(row) =>
      if format == "pdf" || format == "docx" then
        Ok(ExportReply("Export to " + format + " will be implemented with Puppeteer/DOCX libraries", row.id, format))
      else
        Err(Invalid([Issue([Key("format")], InvalidEnumValue(format))]))
  }

  // ---------------------------------------------------------------------
  // ATS analysis endpoint

  datatype AnalyzeBody = AnalyzeBody(jobTitle: string, jobDescription: string, resumeData: ResumeData)

  /** The reply as the endpoint builds it: the score is a JavaScript
      number, which is NaN when there are no keywords. */
  datatype AnalysisReplyAsWritten = AnalysisReplyAsWritten(
    score: JsNumber,
    matches: seq<string>,
    missing: seq<string>,
    suggestions: seq<string>)

  /** The reply lines 288-298 of the endpoint build for a resume, its
      serialised text and the keywords, as written; matches and missing
      keywords partition the keywords. */
  function ReplyForAsWritten(d: ResumeData, text: string, keywords: seq<string>): (reply: AnalysisReplyAsWritten)
    ensures reply.matches == MatchingKeywords(text, keywords)
    ensures reply.missing == MissingKeywords(keywords, reply.matches)
    ensures |reply.matches| + |reply.missing| == |keywords|
    ensures forall k :: k in keywords ==> (k in reply.matches <==> k !in reply.missing)
  {
    MatchesAndMissingPartition(text, keywords);
    var score := AtsScoreAsWritten(d, text, keywords);
    var matches := MatchingKeywords(text, keywords);
    var missing := MissingKeywords(keywords, matches);
    AnalysisReplyAsWritten(score, matches, missing, Suggestions(score, missing))
  }

  /** The reply as written: with no keywords, the score is NaN (serialised as `null`), and
      there are no matches, missing keywords or suggestions; otherwise the
      score is the whole number of the corrected scorer in 0..100, and
      there are at most three suggestions, none exactly for a score of 80
      or more with nothing missing. */
  lemma ReplyAsWrittenFacts(d: ResumeData, text: string, keywords: seq<string>)
    ensures var reply := ReplyForAsWritten(d, text, keywords);
      && |reply.suggestions| <= 3
      && (keywords == [] ==>
            && reply.score == NaN && ToJson(reply.score) == None
            && reply.matches == [] && reply.missing == [] && reply.suggestions == [])
      && (keywords != [] ==>
            && reply.score == Finite(AtsScore(d, text, keywords) as real)
            && 0.0 <= reply.score.value <= 100.0
            && (reply.suggestions == [] <==> reply.score.value >= 80.0 && reply.missing == []))
  {
  }

  /** With keywords, the score the endpoint gives to the parse of a resume
      lies between the resume's structure score and 50 above it. */
  lemma StrippedReplyAsWritten(d: ResumeData, text: string, keywords: seq<string>)
    requires keywords != []
    ensures var reply := ReplyForAsWritten(Strip(d), text, keywords);
      && reply.score.Finite?
      && StructureScore(d) as real <= reply.score.value <= (StructureScore(d) + 50) as real
      && reply.score.value <= 100.0
  {
    StrippedScoreAsWritten(d, text, keywords);
  }

  /** The reply for given keywords, as written. */
  method BuildReplyAsWritten(d: ResumeData, text: string, keywords: seq<string>) returns (reply: AnalysisReplyAsWritten)
    ensures reply == ReplyForAsWritten(d, text, keywords)
  {
    var score := CalculateAtsScoreAsWritten(d, text, keywords);
    var matches := MatchingKeywords(text, keywords);
    var missing := MissingKeywords(keywords, matches);
    var suggestions := GenerateSuggestions(score, missing);
    reply := AnalysisReplyAsWritten(score, matches, missing, suggestions);
  }

  /** POST /api/ats/analyze as written: validates the resume data, then
      scores what the parse kept, which has lost the client-only fields,
      against the keywords of the job description. `stringify` stands for
      `JSON.stringify`. The job title is read and not used. */
  method AnalyzeResumeAsWritten(body: AnalyzeBody, emailOk: string -> bool, stringify: ResumeData -> string)
    returns (r: Result<AnalysisReplyAsWritten, Failure>)
    ensures r == if emailOk(body.resumeData.personal.email)
                 then Ok(ReplyForAsWritten(Strip(body.resumeData), stringify(Strip(body.resumeData)), Keywords(body.jobDescription)))
                 else Err(Invalid(DataIssues("resumeData", body.resumeData, emailOk)))
  {
    var parsed := ParseResumeDataAsWritten(body.resumeData, emailOk);
    match parsed {
      case Err(_) =>
        r := Err(Invalid(DataIssues("resumeData", body.resumeData, emailOk)));
      case Ok(data) =>
        var keywords := ExtractKeywords(body.jobDescription);
        var reply := BuildReplyAsWritten(data, stringify(data), keywords);
        r := Ok(reply);
    }
  }

  /** The reply with the corrected score. */
  datatype AnalysisReply = AnalysisReply(
    score: int,
    matches: seq<string>,
    missing: seq<string>,
    suggestions: seq<string>)

  /** The reply for a resume, its serialised text and the keywords, with
      the corrected score; matches and missing keywords partition the
      keywords. */
  function ReplyFor(d: ResumeData, text: string, keywords: seq<string>): (reply: AnalysisReply)
    ensures reply.matches == MatchingKeywords(text, keywords)
    ensures reply.missing == MissingKeywords(keywords, reply.matches)
    ensures |reply.matches| + |reply.missing| == |keywords|
    ensures forall k :: k in keywords ==> (k in reply.matches <==> k !in reply.missing)
  {
    MatchesAndMissingPartition(text, keywords);
    var score := AtsScore(d, text, keywords);
    var matches := MatchingKeywords(text, keywords);
    var missing := MissingKeywords(keywords, matches);
    AnalysisReply(score, matches, missing, Suggestions(Finite(score as real), missing))
  }

  /** The corrected reply: the score is a whole number in 0..100 even when there are
      no keywords, and there are at most three suggestions, none exactly
      for a score of 80 or more with nothing missing. */
  lemma ReplyFacts(d: ResumeData, text: string, keywords: seq<string>)
    ensures var reply := ReplyFor(d, text, keywords);
      && 0 <= reply.score <= 100
      && |reply.suggestions| <= 3
      && (reply.suggestions == [] <==> reply.score >= 80 && reply.missing == [])
  {
  }

  /** The reply for given keywords, with the corrected score. */
  method BuildReply(d: ResumeData, text: string, keywords: seq<string>) returns (reply: AnalysisReply)
    ensures reply == ReplyFor(d, text, keywords)
  {
    var score := CalculateAtsScore(d, text, keywords);
    var matches := MatchingKeywords(text, keywords);
    var missing := MissingKeywords(keywords, matches);
    var suggestions := GenerateSuggestions(Finite(score as real), missing);
    reply := AnalysisReply(score, matches, missing, suggestions);
  }

  /** The analysis endpoint with the corrected schema and score: the
      whole resume is scored, and a job description without keywords
      gives the structure score. */
  method AnalyzeResume(body: AnalyzeBody, emailOk: string -> bool, stringify: ResumeData -> string)
    returns (r: Result<AnalysisReply, Failure>)
    ensures r == if emailOk(body.resumeData.personal.email)
                 then Ok(ReplyFor(body.resumeData, stringify(body.resumeData), Keywords(body.jobDescription)))
                 else Err(Invalid(DataIssues("resumeData", body.resumeData, emailOk)))
  {
    var parsed := ParseResumeData(body.resumeData, emailOk);
    match parsed {
      case Err(_) =>
        r := Err(Invalid(DataIssues("resumeData", body.resumeData, emailOk)));
      case Ok(data) =>
        var keywords := ExtractKeywords(body.jobDescription);
        var reply := BuildReply(data, stringify(data), keywords);
        r := Ok(reply);
    }
  }
}
