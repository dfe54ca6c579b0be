# Resume builder — a Dafny model of its core

This project models the deterministic core of a resume builder. The
builder is a React client with an Express server and a shared zod schema.
The model covers:

- **The server's keyword scorer** for a job description (`server/routes.ts`):
  - tokenising the text;
  - the top 20 keywords by frequency;
  - substring matching against the serialised resume;
  - the capped score;
  - the rule-ordered suggestions.
- **The resume routes' ownership and template checks.**
- **The Bearer-token middleware**, which reads the token after the exact,
  case-sensitive prefix `Bearer ` of the `Authorization` header.
- **The resume schema**, with the fields the client reads and the
  server's acceptance test.
- **The editing operations of the form**, which copy rather than change
  the resume.
- **The save-time validation and normalisation of the builder page.**
  This includes phone numbers, education scores, the payload, error
  messages, export and the file name.
- **The five templates.** Each is modelled as a function from the resume
  to a document of sections, entries and lines.
- **The skill suggester.**
- **The client's token cache**, including refresh and the single retry.
- **The header's initials and active links.**
- **The export dialog's progress machine.**
- **The keyword-analysis card's score bands.**

There is one Dafny module per source file, plus five helper modules:

- `Wrappers`: `Option`, `Result`.
- `Seqs`: filter, dedup, take, map and their lemmas.
- `JsText`: the ASCII case mapping, `trim`, `split`, `join` and `includes`
  of JavaScript.
- `JsNumbers`: `NaN`, rounding.
- `Document`: the section/entry/line vocabulary shared by the templates and
  its selection lemmas.

Code that changes state step by step is modelled as methods with loop
invariants or as classes with `modifies` clauses:

- `extractKeywords`, `calculateATSScore` and `generateSuggestions`;
- the suggester's `Set`;
- the save loop;
- the token cache;
- the export dialog;
- the analysis card.

Each such method is proved against a function. The properties are then
proved about that function.

Calls into code the model cannot see are parameters:

- `JSON.stringify` of the resume;
- zod's email test;
- `parseFloat`;
- the token verifier;
- `crypto.randomUUID`;
- `Math.random()`;
- the replies of the network.

`localStorage` is a `map<string, string>`. A network call the client makes is
returned as a value (`sent`), so the order and number of requests can be stated.

Where the code is wrong (see "## Findings"), the model keeps both versions.
A member named `…AsWritten` models the code. The plain-named member is the
corrected version, and its row in the table begins with "corrected:".

## Model

| member | source | states |
|---|---|---|
| Schema.Strip | shared/schema.ts:67-121 | zod's object parsing drops every field the schema does not declare; the result carries only declared fields, leaves declared-only data unchanged, and keeps the collections' lengths |
| Schema.ParseResumeDataAsWritten | shared/schema.ts:67-121 | the server accepts exactly when the email passes the email check (so "" is refused), and an accepted value is the stripped input |
| Schema.FresherFlagLostAsWritten | shared/schema.ts:68-75 | a resume whose fresher flag is set comes back from parsing without it, so the saved value differs from what was sent |
| Schema.ParseResumeData | shared/schema.ts:67-121 | the corrected parse: accepts exactly when the email passes, keeps every field the client sends, and reports an email issue otherwise |
| Schema.ParseRoundTrip | shared/schema.ts:67-121 | parsing an accepted value again gives it back unchanged |
| Middleware.BearerToken | server/middleware.ts:9-15 | a token is found exactly when the header is present and starts with exactly "Bearer "; the header is that prefix followed by the token |
| Middleware.BearerRoundTrip | server/middleware.ts:9-15 | the token written after "Bearer " is read back unchanged |
| Middleware.LowerCaseSchemeRejected | server/middleware.ts:9-13 | the prefix match is case-sensitive: "bearer " yields no token |
| Middleware.Authorize | server/middleware.ts:9-23 | a missing or mis-prefixed header gives 401 "No token provided"; a token the verifier refuses gives 401 "Invalid or expired token"; the request proceeds exactly when the verifier accepts, with the payload's user id |
| Middleware.AuthRequest.constructor | server/middleware.ts:9-23 | a fresh request carries only its header: no user id, no response, `next` not called |
| Middleware.AuthMiddleware | server/middleware.ts:9-23 | on rejection the response is set and neither `next` nor `req.userId` changes; on success `req.userId` is set and `next` is called exactly once |
| Routes.OwnedResume | server/routes.ts:174-180 | a resume is served exactly when it exists and belongs to the requester; otherwise 404 |
| Routes.CreateTemplateAsWritten | server/routes.ts:193 | the create schema accepts a template exactly when absent (defaulting to "classic") or one of "classic" and "modern" |
| Routes.MinimalRefusedAsWritten | server/routes.ts:193 | the client offers "minimal", and the create schema refuses it with an enum issue on `template` |
| Routes.CreateTemplate | server/routes.ts:193 | corrected: every template the client offers is accepted and kept, absence defaults to "classic" |
| Routes.UpdateTemplateAsWritten | server/routes.ts:225 | the update schema accepts an optional template exactly when absent or one of "classic" and "modern", and keeps it as given |
| Routes.UpdateTemplate | server/routes.ts:225 | corrected: the optional template of an update is accepted exactly when absent or offered by the client, and kept as given |
| Routes.ClientTemplatesAccepted | server/routes.ts:193-225 | corrected: each of "classic", "modern" and "minimal" passes both the create and the update check |
| Routes.TitleIssues | server/routes.ts:191 | a title is refused exactly when empty |
| Routes.DataIssues | server/routes.ts:192 | the data is refused exactly when the resume schema refuses it, under the code's parse and the corrected one alike, and the one issue then sits at `<field>.personal.email` under the body's key ("data" for create and update, "resumeData" for the analysis) |
| Routes.TemplateIssuesAsWritten | server/routes.ts:193 | the template is refused exactly when given and neither "classic" nor "modern", with the single enum issue on `template` |
| Routes.TemplateIssues | server/routes.ts:193 | corrected: the template is refused exactly when given and not one of the client's three, with the enum issue |
| Routes.CreateResumeAsWritten | server/routes.ts:188-212 | a resume is created exactly when the title is non-empty, the email passes and the template is absent, "classic" or "modern"; it belongs to the requester and stores the stripped data, which carries only declared fields; "minimal" is refused with the enum issue; a refusal carries at least one issue |
| Routes.CreateResume | server/routes.ts:188-212 | corrected: a resume is created exactly when title, data and template all pass; it belongs to the requester with the parsed template, and a refusal carries at least one issue |
| Routes.ApplyPatch | server/routes.ts:228-229 | an update replaces each given field and keeps the rest, id and owner included |
| Routes.UpdateResumeAsWritten | server/routes.ts:214-238 | a resume that is missing or not owned gives 404 before any validation; otherwise the update succeeds exactly when every given field passes the code's checks, patches in the stripped data, and refuses "minimal" |
| Routes.UpdateResume | server/routes.ts:214-238 | corrected: a resume that is missing or not owned gives 404 before any validation; otherwise the update succeeds exactly when every given field passes, and yields the patched resume |
| Routes.UpdateKeepsOwner | server/routes.ts:214-238 | an update never changes a resume's id or owner |
| Routes.ExportResume | server/routes.ts:255-276 | a resume that is missing or not owned gives 404; otherwise the stub reply comes back exactly for "pdf" and "docx" and names the resume and the format |
| Routes.ReplyForAsWritten | server/routes.ts:288-298 | the reply as written carries the code's score, the matching keywords and the keywords not matched, which partition the keywords |
| Routes.ReplyAsWrittenFacts | server/routes.ts:288-298 | with no keywords the score is NaN, serialised as null, with no matches, no missing keywords and no suggestions; otherwise the score is the corrected whole number in 0..100; at most three suggestions, and with keywords none exactly when the score is at least 80 and nothing is missing |
| Routes.StrippedReplyAsWritten | server/routes.ts:286-298 | with keywords, the score given to the parse of a resume is finite, at most 100, and between the resume's structure score and 50 above it |
| Routes.BuildReplyAsWritten | server/routes.ts:288-298 | the method that calls the scorer, the matcher and the suggester computes exactly the reply as written |
| Routes.AnalyzeResumeAsWritten | server/routes.ts:278-303 | a resume whose email the schema refuses gives the email issue at `resumeData.personal.email`; otherwise the reply as written, for the stripped resume, its serialisation and the keywords of the job description |
| Routes.ReplyFor | server/routes.ts:288-298 | corrected: the reply carries the corrected score, the matching keywords and the keywords not matched, which partition the keywords |
| Routes.ReplyFacts | server/routes.ts:288-298 | corrected: the score is a whole number in 0..100 even with no keywords; at most three suggestions, and none exactly when the score is at least 80 and nothing is missing |
| Routes.BuildReply | server/routes.ts:288-298 | corrected: the method computes exactly the corrected reply |
| Routes.AnalyzeResume | server/routes.ts:278-303 | corrected: a resume whose email the schema refuses gives the email issue at `resumeData.personal.email`; otherwise the corrected reply for the whole resume as sent |
| AtsScoring.Clean | server/routes.ts:314-316 | every non-word, non-space character becomes a space; word characters and whitespace are kept in place |
| AtsScoring.WordsAreTokens | server/routes.ts:312-318 | every token is lowercase, made only of word characters, longer than 2, and not a stop word |
| AtsScoring.Tally | server/routes.ts:320-323 | one entry per distinct word in first-occurrence order, carrying that word's count |
| AtsScoring.Insert | server/routes.ts:325 | inserting keeps every entry and adds one |
| AtsScoring.SortByCount | server/routes.ts:325 | sorting keeps the length and exactly the same entries |
| AtsScoring.InsertRanked | server/routes.ts:325 | inserting an entry that came first keeps the list ranked, so the sort is stable |
| AtsScoring.SortRanked | server/routes.ts:321-326 | sorting entries that are in first-occurrence order gives non-increasing counts, with ties in first-occurrence order |
| AtsScoring.Firsts | server/routes.ts:328 | it keeps the words of the entries in their order |
| AtsScoring.Keywords | server/routes.ts:311-329 | at most 20 keywords; `KeywordsWellFormed`, `KeywordsRanked` and `KeywordsAreTopTwenty` state that they are distinct tokens of the text, ranked, and the twenty most frequent |
| AtsScoring.SortedTally | server/routes.ts:320-326 | the sorted tally is ranked, has one entry per distinct word, and each word's entry carries its count |
| AtsScoring.KeywordsWellFormed | server/routes.ts:312-328 | the keywords are at most 20, distinct, and are tokens of the text |
| AtsScoring.KeywordsRanked | server/routes.ts:321-326 | keywords are in non-increasing frequency order, and ties keep first-occurrence order |
| AtsScoring.KeywordsAreTopTwenty | server/routes.ts:325-328 | a token left out of the keywords implies twenty keywords, each at least as frequent as that token |
| AtsScoring.CrowdedOut | server/routes.ts:325-328 | the same over any word list: a word that misses the top twenty is outranked by twenty at least as frequent |
| AtsScoring.ExtractKeywords | server/routes.ts:311-329 | the loop that fills the frequency map and then sorts and cuts computes exactly the keyword function |
| AtsScoring.CountWords | server/routes.ts:320-323 | the counting loop leaves the map keys in first-occurrence order, each mapped to the number of times its word occurs |
| AtsScoring.TalliedStep | server/routes.ts:321-323 | one more word adds one to a known word's count, or appends a new word with count 1, and the tally stays exact |
| AtsScoring.MatchingKeywords | server/routes.ts:331-334 | a keyword matches exactly when it occurs, ignoring case, in the serialised resume |
| AtsScoring.MissingKeywords | server/routes.ts:291 | the missing keywords are exactly the keywords not among the matches, at most as many as the keywords |
| AtsScoring.MatchesAndMissingPartition | server/routes.ts:291-334 | matches and missing partition the keywords; missing is exactly the keywords not found |
| AtsScoring.StructureScore | server/routes.ts:340-345 | at most 50; exactly 50 when summary, experience, education, skills and projects are all present, 0 when none is |
| AtsScoring.StructureScoreDependsOnPresence | server/routes.ts:340-345 | only the presence of those five parts matters; certifications, languages and the fresher flag do not |
| AtsScoring.KeywordPoints | server/routes.ts:338 | the keyword share lies in 0..50: 50 when all match, 0 when none do |
| AtsScoring.Combined | server/routes.ts:337-347 | when there are keywords, the rounded and capped sum lies between the structure score and 50 above it, is at most 100, and is exactly 50 above the structure score when every keyword matches |
| AtsScoring.AtsScoreAsWritten | server/routes.ts:336-348 | as written, the score is NaN exactly when there are no keywords; otherwise a whole number in 0..100 |
| AtsScoring.AtsScore | server/routes.ts:336-348 | corrected: a whole number in 0..100, between the structure score and 50 above it; it agrees with the code whenever there are keywords, and is the structure score when there are none |
| AtsScoring.CalculateAtsScoreAsWritten | server/routes.ts:336-348 | the method computes the code's score: NaN with no keywords, otherwise the rounded and capped sum |
| AtsScoring.StripKeepsStructureScore | server/routes.ts:340-345 | stripping undeclared fields does not change the structure score |
| AtsScoring.StrippedScoreAsWritten | server/routes.ts:336-348 | with keywords, the code's score of the stripped resume is finite, at most 100, and between the unstripped resume's structure score and 50 above it |
| AtsScoring.CalculateAtsScore | server/routes.ts:336-348 | corrected: the method that accumulates the structure score computes the corrected score |
| AtsScoring.StructurePoints | server/routes.ts:340-345 | the five increments add up to the structure score |
| AtsScoring.NoKeywordsFromEmptyText | server/routes.ts:311-329 | an empty job description gives no keywords |
| AtsScoring.ZeroKeywordScore | server/routes.ts:338 | for an empty job description the code computes NaN, and the corrected score is the structure score |
| AtsScoring.Suggestions | server/routes.ts:350-366 | at most three tips, band by band for a finite score: at least 80 gives only the missing-keywords tip when something is missing, otherwise none; 60 to 80 gives that tip when something is missing, then the sections tip; below 60 gives the generic tip, that tip when something is missing, then the sections tip; a NaN score is below neither bound, so it earns only the missing-keywords tip |
| AtsScoring.GenerateSuggestions | server/routes.ts:350-366 | the method that pushes the tips in order computes exactly `Suggestions` |
| FormBuilder.UpdateById | client/src/components/FormBuilder.tsx:58-65 | same length; a record changes exactly when its id matches, and the others stay in place |
| FormBuilder.RemoveById | client/src/components/FormBuilder.tsx:67-72 | a record is kept exactly when its id differs |
| FormBuilder.RemoveUniqueId | client/src/components/FormBuilder.tsx:67-72 | with unique ids, removing a record's id deletes exactly that position and keeps the order |
| FormBuilder.RemoveAbsentId | client/src/components/FormBuilder.tsx:67-72 | removing an id no record has changes nothing |
| FormBuilder.AppendFreshId | client/src/components/FormBuilder.tsx:40-56 | appending a record with a fresh id keeps ids unique |
| FormBuilder.UpdateKeepsUniqueIds | client/src/components/FormBuilder.tsx:58-65 | an update that keeps ids keeps them unique |
| FormBuilder.RemoveKeepsUniqueIds | client/src/components/FormBuilder.tsx:67-72 | removal keeps ids unique |
| FormBuilder.FilterPreservesDistinctBy | client/src/components/FormBuilder.tsx:67-72 | filtering keeps ids unique |
| FormBuilder.SetPersonal | client/src/components/FormBuilder.tsx:33-38 | the named personal field takes the value; every other field is unchanged |
| FormBuilder.UpdatePersonal | client/src/components/FormBuilder.tsx:33-38 | only the named personal field changes; the rest of the resume is unchanged |
| FormBuilder.SetFresher | client/src/components/FormBuilder.tsx:325-328 | the checkbox sets the fresher flag and nothing else |
| FormBuilder.SetSummary | client/src/components/FormBuilder.tsx:420 | the summary is set and nothing else changes |
| FormBuilder.SetEducation | client/src/components/FormBuilder.tsx:58-65 | the named education field takes the value; the id and the other fields are kept |
| FormBuilder.AddEducation | client/src/components/FormBuilder.tsx:40-56 | one record appended, old list a prefix, with the fresh id and empty fields; nothing else changes |
| FormBuilder.UpdateEducation | client/src/components/FormBuilder.tsx:58-65 | only studies with the id change, in that field; length and order kept; nothing else changes |
| FormBuilder.RemoveEducation | client/src/components/FormBuilder.tsx:67-72 | exactly the studies with other ids remain; nothing else changes |
| FormBuilder.SetExperience | client/src/components/FormBuilder.tsx:92-99 | the named text field changes; id, `current`, bullets and the other fields are kept |
| FormBuilder.AddExperience | client/src/components/FormBuilder.tsx:74-90 | one position appended, old list a prefix, with `current` false and exactly one empty bullet |
| FormBuilder.UpdateExperience | client/src/components/FormBuilder.tsx:92-99 | only positions with the id change; length and order kept |
| FormBuilder.RemoveExperience | client/src/components/FormBuilder.tsx:101-106 | exactly the positions with other ids remain |
| FormBuilder.ReplaceAt | client/src/components/FormBuilder.tsx:117-129 | only index i is replaced; other indices and the length are kept; an index out of range changes nothing |
| FormBuilder.RemoveAt | client/src/components/FormBuilder.tsx:131-140 | only index i is deleted and the rest shift down in order; an index out of range changes nothing |
| FormBuilder.AddBullet | client/src/components/FormBuilder.tsx:108-115 | only the matching position gains an empty bullet at the end; every other part of the resume is unchanged |
| FormBuilder.UpdateBullet | client/src/components/FormBuilder.tsx:117-129 | only bullet i of the matching position is replaced |
| FormBuilder.RemoveBullet | client/src/components/FormBuilder.tsx:131-140 | only bullet i of the matching position is deleted |
| FormBuilder.SetProject | client/src/components/FormBuilder.tsx:158-165 | the named project field changes; id, technologies and the other fields are kept |
| FormBuilder.AddProject | client/src/components/FormBuilder.tsx:142-156 | one project appended, old list a prefix, with empty fields and no technologies |
| FormBuilder.UpdateProject | client/src/components/FormBuilder.tsx:158-165 | only projects with the id change; length and order kept |
| FormBuilder.ParseTechnologies | client/src/components/FormBuilder.tsx:790 | one entry per comma-separated field, each trimmed; empty entries are kept |
| FormBuilder.TechnologiesKeepEmptyEntries | client/src/components/FormBuilder.tsx:790 | a leading comma yields a leading empty technology |
| FormBuilder.SetTechnologies | client/src/components/FormBuilder.tsx:790 | only the matching project's technologies become the parsed list |
| FormBuilder.RemoveProject | client/src/components/FormBuilder.tsx:167-172 | exactly the projects with other ids remain |
| FormBuilder.AddSkillGroup | client/src/components/FormBuilder.tsx:174-186 | one empty group appended with the fresh id, old list a prefix |
| FormBuilder.SetCategory | client/src/components/FormBuilder.tsx:188-195 | only groups with the id change their category |
| FormBuilder.SetSkillItems | client/src/components/FormBuilder.tsx:188-195 | only groups with the id change their items |
| FormBuilder.SetSkillItemsTyped | client/src/components/FormBuilder.tsx:869-875 | typing in a group's skills input gives only the groups with the id the comma-split, trimmed items, empty entries kept, and changes nothing else |
| FormBuilder.RemoveSkillGroup | client/src/components/FormBuilder.tsx:197-202 | exactly the groups with other ids remain |
| FormBuilder.TrimAll | client/src/components/FormBuilder.tsx:880 | each item is trimmed, in place |
| FormBuilder.NormaliseItems | client/src/components/FormBuilder.tsx:880-894 | the first occurrences of the trimmed, non-empty items, in order: distinct, every one non-empty and trimmed, and every such item present |
| FormBuilder.CommitSkillsInput | client/src/components/FormBuilder.tsx:877-882 | the blur normaliser: distinct, trimmed, non-empty items without commas |
| FormBuilder.AddSuggestedSkill | client/src/components/FormBuilder.tsx:889-895 | the suggester's add: the normalised list of old items plus the skill, which is then present if it has any non-space text |
| FormBuilder.SetCertification | client/src/components/FormBuilder.tsx:220-227 | the named certification field changes; id and other fields kept |
| FormBuilder.AddCertification | client/src/components/FormBuilder.tsx:204-218 | one empty certification appended with the fresh id, old list a prefix |
| FormBuilder.UpdateCertification | client/src/components/FormBuilder.tsx:220-227 | only certifications with the id change |
| FormBuilder.RemoveCertification | client/src/components/FormBuilder.tsx:229-234 | exactly the certifications with other ids remain |
| FormBuilder.CertLinkWarningCases | client/src/components/FormBuilder.tsx:978-982 | no warning for a missing, empty or "http"-prefixed link; a warning for a non-empty link that does not start with 'h' |
| FormBuilder.SetLanguage | client/src/components/FormBuilder.tsx:250-257 | the named language field changes and the other is kept |
| FormBuilder.AddLanguage | client/src/components/FormBuilder.tsx:236-248 | one empty language appended with the fresh id, old list a prefix |
| FormBuilder.UpdateLanguage | client/src/components/FormBuilder.tsx:250-257 | only languages with the id change |
| FormBuilder.RemoveLanguage | client/src/components/FormBuilder.tsx:259-264 | exactly the languages with other ids remain |
| FormBuilder.RemoveEducationAt | client/src/components/FormBuilder.tsx:67-72 | with unique ids, removing a study deletes exactly its position |
| FormBuilder.EducationIdsStayUnique | client/src/components/FormBuilder.tsx:40-72 | add with a fresh id, update and remove all keep education ids unique |
| ResumeBuilder.RemoveWhitespace | client/src/pages/ResumeBuilder.tsx:87 | no whitespace is left |
| ResumeBuilder.RemoveDashesAndWhitespace | client/src/pages/ResumeBuilder.tsx:139 | no dash and no whitespace is left |
| ResumeBuilder.PrefixCountryCode | client/src/pages/ResumeBuilder.tsx:139 | the result starts with "+91"; a leading "+91" is kept, a leading "0" is replaced, and anything else is prefixed |
| ResumeBuilder.StripConcat | client/src/pages/ResumeBuilder.tsx:87-139 | both strippers distribute over concatenation |
| ResumeBuilder.CountryCodeKept | client/src/pages/ResumeBuilder.tsx:139 | stripping leaves a leading "+91" in place |
| ResumeBuilder.NormalisePhoneAsWritten | client/src/pages/ResumeBuilder.tsx:139 | as written, the normalised phone always starts with "+91" and has no dash or whitespace, even for an empty phone |
| ResumeBuilder.EmptyPhoneAsWritten | client/src/pages/ResumeBuilder.tsx:86-139 | the empty phone passes the check but is saved as "+91", which the check then refuses |
| ResumeBuilder.DoubledCodeRefused | client/src/pages/ResumeBuilder.tsx:86-87 | "+91+91" followed by a mobile number is refused |
| ResumeBuilder.LeadingSpaceAsWritten | client/src/pages/ResumeBuilder.tsx:86-139 | " +91" plus a mobile number passes the check but is saved as "+91+91…", which the check then refuses |
| ResumeBuilder.PatternShape | client/src/pages/ResumeBuilder.tsx:86 | a whitespace-free accepted phone is an optional "+91", "+91-" or "0" followed by a ten-digit mobile number starting 6–9 |
| ResumeBuilder.ShapeNormalised | client/src/pages/ResumeBuilder.tsx:86-139 | each accepted prefix followed by a mobile number normalises to "+91" and the number, under both normalisers |
| ResumeBuilder.NormalisePhone | client/src/pages/ResumeBuilder.tsx:139 | corrected: the empty phone stays empty, and the result has no dash or whitespace |
| ResumeBuilder.NormalisePhoneAccepted | client/src/pages/ResumeBuilder.tsx:86-139 | a non-empty accepted phone normalises to "+91" and its last ten digits, which the check accepts again |
| ResumeBuilder.PlusNinetyOneAccepted | client/src/pages/ResumeBuilder.tsx:86 | "+91" and a mobile number passes the check |
| ResumeBuilder.NormalisePhoneIdempotent | client/src/pages/ResumeBuilder.tsx:86-139 | normalising an accepted phone again changes nothing, and the result is accepted |
| ResumeBuilder.NormalisersAgreeWithoutWhitespace | client/src/pages/ResumeBuilder.tsx:139 | for a non-empty accepted phone without whitespace, the corrected normaliser agrees with the code |
| ResumeBuilder.ValueOr | client/src/pages/ResumeBuilder.tsx:100-101 | `value \|\| fallback`: the value when truthy, the fallback otherwise |
| ResumeBuilder.ScoreCheck | client/src/pages/ResumeBuilder.tsx:99-122 | only CGPA and Percentage are checked; CGPA must lie in 0..scale (missing value 0, missing scale 10), Percentage in 0..100; a NaN value passes, since both comparisons are false |
| ResumeBuilder.ValidateScores | client/src/pages/ResumeBuilder.tsx:98-123 | no problem exactly when every study passes; a problem is that of the first failing study |
| ResumeBuilder.PayloadDataAsWritten | client/src/pages/ResumeBuilder.tsx:130-144 | the phone is normalised by the code's normaliser, so it starts with "+91" and has no dash or whitespace (an empty phone becomes "+91"); experience is emptied exactly when the fresher flag is set; nothing else changes |
| ResumeBuilder.NormaliseAsWrittenFixed | client/src/pages/ResumeBuilder.tsx:139 | the code's normaliser leaves a stripped phone starting with "+91" unchanged |
| ResumeBuilder.PayloadIdempotentAsWritten | client/src/pages/ResumeBuilder.tsx:130-144 | building the code's payload from its own payload changes nothing, for every resume |
| ResumeBuilder.PayloadsAgree | client/src/pages/ResumeBuilder.tsx:130-144 | for a non-empty accepted phone without whitespace, the code's payload and the corrected one coincide |
| ResumeBuilder.PayloadData | client/src/pages/ResumeBuilder.tsx:130-144 | corrected: the phone is normalised, experience is emptied exactly when the fresher flag is set, and nothing else changes |
| ResumeBuilder.PayloadIdempotent | client/src/pages/ResumeBuilder.tsx:130-144 | corrected: for an accepted phone, building the payload from a payload changes nothing |
| ResumeBuilder.HandleSaveAsWritten | client/src/pages/ResumeBuilder.tsx:82-149 | a refused phone stops the save; else the first failing study stops it; else the code's payload is sent by POST to "/api/resumes" for a new resume and by PATCH to its own URL otherwise |
| ResumeBuilder.HandleSave | client/src/pages/ResumeBuilder.tsx:82-149 | corrected: the same decisions, with the corrected payload, whose phone the check accepts again; a refused phone stops the save; else the first failing study stops it; else the payload is sent by POST to "/api/resumes" for a new resume and by PATCH to its own URL otherwise |
| ResumeBuilder.SegmentText | client/src/pages/ResumeBuilder.tsx:174 | a key is written as itself and an index as its decimal digits |
| ResumeBuilder.FieldErrorLines | client/src/pages/ResumeBuilder.tsx:174 | one "path: message" line per error, in order |
| ResumeBuilder.FieldErrorsOnePerLine | client/src/pages/ResumeBuilder.tsx:174 | splitting the message at newlines gives back exactly the lines, one per error |
| ResumeBuilder.SaveErrorMessage | client/src/pages/ResumeBuilder.tsx:168-185 | an issue array is formatted line by line; a message that is not JSON is shown unless it is empty or the bare "Failed to save resume"; a parsed object with a non-empty `message` shows that message, and one with an empty or missing `message` the generic text; a parsed JSON string is shown as it is, even when empty; any other JSON gives the generic message |
| ResumeBuilder.HandleExport | client/src/pages/ResumeBuilder.tsx:197-211 | an unsaved ("new") resume is refused before any request; otherwise the request goes to the resume's export URL with the format, template and font |
| ResumeBuilder.DownloadStem | client/src/pages/ResumeBuilder.tsx:220 | never empty and free of whitespace; "Untitled" for an empty name, otherwise whitespace runs replaced by "_" |
| ResumeBuilder.DownloadName | client/src/pages/ResumeBuilder.tsx:220 | the name starts with "Resume_" and ends with "_", the id, "." and the format; between them lies a non-empty, whitespace-free stem, "Untitled" for an empty name |
| ResumeBuilder.DownloadNameCases | client/src/pages/ResumeBuilder.tsx:220 | an empty name gives "Resume_Untitled" and the suffix; a non-empty name without whitespace appears unchanged |
| ResumeBuilder.LoadedTemplate | client/src/pages/ResumeBuilder.tsx:63 | a stored template is used as is; an empty one falls back to "classic"; the result is never empty |
| ResumeBuilder.LoadedFont | client/src/pages/ResumeBuilder.tsx:64 | a truthy stored font is used as is; a missing or empty one falls back to "sans"; the result is never empty |
| ResumeBuilder.Preview | client/src/pages/ResumeBuilder.tsx:317-319 | at most one template is shown, exactly for "classic", "modern" and "minimal"; it receives the unsaved data, and only Minimal receives the font |
| ResumeBuilder.PreviewShowsUnsavedExperience | client/src/pages/ResumeBuilder.tsx:142-318 | for a fresher with experience, Classic and Modern previews show it, although the payload the code sends has none |
| Document.DisplayName | client/src/components/templates/ClassicTemplate.tsx:12 | an empty name shows as "Your Name", any other as itself |
| Document.ContactLineShown | client/src/components/templates/ClassicTemplate.tsx:14-18 | the contact line shows the non-empty fields, in order, each with its prefix |
| Document.ContactRow | client/src/components/templates/ClassicTemplate.tsx:14-18 | every item is non-empty text; a first field with a value leads; every other item starts with the shared prefix and has more after it; every field with a value is shown |
| Document.ContactLead | client/src/components/templates/ClassicTemplate.tsx:14-18 | the first field leads the line when it has a value |
| Document.ContactShows | client/src/components/templates/ClassicTemplate.tsx:14-18 | every field with a value is shown |
| Document.ContactPrefixed | client/src/components/templates/ClassicTemplate.tsx:15-18 | every item of fields sharing a prefix starts with it |
| Document.SelectKinds | client/src/components/templates/ClassicTemplate.tsx:22-134 | the sections shown are exactly the wanted kinds, in page order |
| Document.SelectFinds | client/src/components/templates/ClassicTemplate.tsx:22-134 | a kind's section is found exactly when it is wanted, and is the one built for it |
| Document.DateRange | client/src/components/templates/ClassicTemplate.tsx:39 | the range starts with the start date and the separator |
| Document.DateRangePresent | client/src/components/templates/ClassicTemplate.tsx:39 | a current position ends in "Present", whatever its end date; others end in the end date |
| Document.Bullets | client/src/components/templates/ClassicTemplate.tsx:44-48 | one bullet per item, in order |
| Document.OptionalRow | client/src/components/templates/ClassicTemplate.tsx:68 | a row only for a truthy value |
| Document.ExperienceEntry | client/src/components/templates/ClassicTemplate.tsx:34-50 | position and date range, then company, then the bullets in order |
| Document.ExperienceEntries | client/src/components/templates/ClassicTemplate.tsx:34 | one entry per position, in stored order |
| Document.SkillEntries | client/src/components/templates/ClassicTemplate.tsx:96-100 | one "category: items" row per group, items joined by ", " |
| Classic.Contact | client/src/components/templates/ClassicTemplate.tsx:14-18 | email unprefixed and first, the others prefixed "• ", each shown only when non-empty |
| Classic.Render | client/src/components/templates/ClassicTemplate.tsx:7-137 | the page has no font class and a non-empty name line, the name or "Your Name"; its sections are stated by `Classic.SectionsShown`, its contact line by `Classic.Contact` |
| Classic.SectionsShown | client/src/components/templates/ClassicTemplate.tsx:22-134 | a section is present exactly when it has content, and sections follow Summary, Experience, Education, Projects, Skills, Certifications, Languages |
| Classic.OrderDistinct | client/src/components/templates/ClassicTemplate.tsx:22-134 | the page order names each kind once |
| Classic.ExperienceListed | client/src/components/templates/ClassicTemplate.tsx:31-52 | experience shows exactly when the list is non-empty, in stored order with " – " |
| Classic.FresherIgnored | client/src/components/templates/ClassicTemplate.tsx:31 | the fresher flag does not change the page |
| Classic.EducationShown | client/src/components/templates/ClassicTemplate.tsx:64-68 | "GPA: x" only for a non-empty gpa; the structured score fields never change a study's entry |
| Classic.LanguagesListed | client/src/components/templates/ClassicTemplate.tsx:99-134 | languages listed in order as "language (proficiency)"; skills as "category: items" |
| Modern.Contact | client/src/components/templates/ModernTemplate.tsx:12-19 | email first, then the other non-empty items, with no separators |
| Modern.Render | client/src/components/templates/ModernTemplate.tsx:7-151 | the page has no font class and a non-empty name line, the name or "Your Name"; its sections are stated by `Modern.SectionsShown`, its contact line by `Modern.Contact` |
| Modern.SectionsShown | client/src/components/templates/ModernTemplate.tsx:22-148 | a section is present exactly when it has content, in the page order |
| Modern.OrderDistinct | client/src/components/templates/ModernTemplate.tsx:22-148 | the page order names each kind once |
| Modern.ExperienceListed | client/src/components/templates/ModernTemplate.tsx:33-43 | experience shows exactly when non-empty, in stored order, with "Present" for current positions |
| Modern.FresherIgnored | client/src/components/templates/ModernTemplate.tsx:33 | the fresher flag does not change the page |
| Modern.EducationShown | client/src/components/templates/ModernTemplate.tsx:68-74 | "GPA: x" only when set; the structured score fields are never shown |
| Modern.LanguagesListed | client/src/components/templates/ModernTemplate.tsx:143 | languages listed in order as "language - proficiency"; skills as "category: items" |
| Minimal.FontClass | client/src/components/templates/MinimalTemplate.tsx:12-16 | serif and mono map to their classes, every other value to font-sans |
| Minimal.Item | client/src/components/templates/MinimalTemplate.tsx:45-75 | an item appears only when its condition holds |
| Minimal.LinkLabel | client/src/components/templates/MinimalTemplate.tsx:75-130 | a given label is used, otherwise a non-empty default |
| Minimal.Contact | client/src/components/templates/MinimalTemplate.tsx:45-75 | at most nine items; email, phone and location are shown as text when non-empty, the email first and otherwise the phone; the links are stated by `Minimal.ContactLinks` |
| Minimal.ContactLinks | client/src/components/templates/MinimalTemplate.tsx:45-75 | the GitHub, website, LeetCode and Twitter links are "https://" plus the value; LinkedIn and the custom link are used as stored; the custom label defaults to "Link" |
| Minimal.ScoreShown | client/src/components/templates/MinimalTemplate.tsx:165-171 | a score shows only for a non-empty value; it is a percentage exactly when shown as "Percentage" with a scale; otherwise "type value", with "/scale" exactly when a scale exists |
| Minimal.OrderDistinct | client/src/components/templates/MinimalTemplate.tsx:81-218 | the page order has every kind but Languages, once each |
| Minimal.Render | client/src/components/templates/MinimalTemplate.tsx:9-218 | the page always has a font class: font-serif exactly for "serif", font-mono exactly for "mono", otherwise font-sans; the name is shown as stored, with no fallback; its sections are stated by `Minimal.SectionsShown` |
| Minimal.SectionsShown | client/src/components/templates/MinimalTemplate.tsx:10-218 | experience shows exactly when non-empty and not a fresher; there is never a Languages section; the others show exactly when they have content, in the page order |
| Minimal.ExperienceNewestFirst | client/src/components/templates/MinimalTemplate.tsx:94-99 | experience entries are the stored positions in reverse, with " - " and "Present" |
| Minimal.EducationNewestFirst | client/src/components/templates/MinimalTemplate.tsx:153 | education entries are the stored studies in reverse |
| Minimal.EducationEntries | client/src/components/templates/MinimalTemplate.tsx:153 | one entry per study, the i-th showing the i-th from the end of the stored list |
| Minimal.LanguagesIgnored | client/src/components/templates/MinimalTemplate.tsx:81-218 | languages do not change the sections or the contact line |
| Minimal.CertificationAndSkillsShown | client/src/components/templates/MinimalTemplate.tsx:188-213 | a certification is its name as a link exactly when there is a link, then " â€” " and the issuer, then its date; a skill group is "category:" and its items joined by ", " |
| AtsClean.Contact | client/src/components/templates/ATSCleanTemplate.tsx:12-18 | location first, then phone, email, linkedin and website, each only when non-empty |
| AtsClean.OrderDistinct | client/src/components/templates/ATSCleanTemplate.tsx:22-115 | the page order has no Certifications or Languages |
| AtsClean.Render | client/src/components/templates/ATSCleanTemplate.tsx:7-117 | the page has no font class and a non-empty name line, the name or "Your Name"; its sections are stated by `AtsClean.SectionsShown` |
| AtsClean.SectionsShown | client/src/components/templates/ATSCleanTemplate.tsx:22-115 | only Summary, Experience, Education, Skills and Projects, each exactly when it has content, in that order |
| AtsClean.ExperienceListed | client/src/components/templates/ATSCleanTemplate.tsx:31-40 | experience shows exactly when non-empty, in stored order, with "Present" |
| AtsClean.FresherAndExtrasIgnored | client/src/components/templates/ATSCleanTemplate.tsx:22-115 | the fresher flag, certifications and languages never change the page |
| AtsClean.EducationShown | client/src/components/templates/ATSCleanTemplate.tsx:71-72 | "degree in field", then "(GPA: x)" only when set |
| AtsClean.ProjectShown | client/src/components/templates/ATSCleanTemplate.tsx:104-108 | the link as plain text when present; "Tech:" and the technologies joined by ", " |
| AtsSimple.Contact | client/src/components/templates/ATSSimpleTemplate.tsx:12-18 | email unprefixed and first; every other item prefixed "| ", even without an email |
| AtsSimple.LanguageSpans | client/src/components/templates/ATSSimpleTemplate.tsx:131-135 | one span per language shown |
| AtsSimple.OrderDistinct | client/src/components/templates/ATSSimpleTemplate.tsx:24-138 | the page order names each kind once |
| AtsSimple.Render | client/src/components/templates/ATSSimpleTemplate.tsx:7-141 | the page has no font class and a non-empty name line, the name or "Your Name"; its sections are stated by `AtsSimple.SectionsShown` |
| AtsSimple.SectionsShown | client/src/components/templates/ATSSimpleTemplate.tsx:24-138 | each section exactly when it has content, in the order Summary, Work Experience, Education, Skills, Projects, Certifications, Languages |
| AtsSimple.ExperienceListed | client/src/components/templates/ATSSimpleTemplate.tsx:33-41 | "Work Experience" shows exactly when non-empty, in stored order |
| AtsSimple.FresherIgnored | client/src/components/templates/ATSSimpleTemplate.tsx:33 | the fresher flag does not change the page |
| AtsSimple.LanguagesJoined | client/src/components/templates/ATSSimpleTemplate.tsx:131-135 | the languages row reads as the labels joined by ", ", with no separator after the last |
| AtsSimple.JoinedPrefix | client/src/components/templates/ATSSimpleTemplate.tsx:131-135 | every language but the last is followed by ", " |
| AtsSimple.CertificationShown | client/src/components/templates/ATSSimpleTemplate.tsx:117-120 | name, " - ", issuer, with the date last |
| AtsSimple.EducationShown | client/src/components/templates/ATSSimpleTemplate.tsx:70 | "GPA: x" only when set |
| SkillsSuggester.Lookup | client/src/components/SkillsSuggester.tsx:42-43 | a direct match is the list of an entry with exactly that key |
| SkillsSuggester.ClaimedIff | client/src/components/SkillsSuggester.tsx:54-56 | a suggestion is claimed exactly when some current skill equals it, ignoring case |
| SkillsSuggester.Suggestions | client/src/components/SkillsSuggester.tsx:30-58 | at most 10 suggestions |
| SkillsSuggester.AddEach | client/src/components/SkillsSuggester.tsx:36-48 | adding each item to the insertion-ordered set gives the first occurrences of everything added so far |
| SkillsSuggester.AddMatches | client/src/components/SkillsSuggester.tsx:46-50 | the partial-match loop adds every key's list whose key contains, or is contained in, the skill, in map order |
| SkillsSuggester.AddSkill | client/src/components/SkillsSuggester.tsx:40-50 | one current skill adds its direct match, then its partial matches |
| SkillsSuggester.Start | client/src/components/SkillsSuggester.tsx:32-37 | the set starts with the six defaults exactly when there are no current skills |
| SkillsSuggester.Collect | client/src/components/SkillsSuggester.tsx:32-51 | the nested loops build the first occurrences of all added skills |
| SkillsSuggester.Step | client/src/components/SkillsSuggester.tsx:39-51 | one pass of the outer loop extends the set by that skill's additions |
| SkillsSuggester.ContributionsSnoc | client/src/components/SkillsSuggester.tsx:39-51 | the additions of the first i+1 skills are those of the first i, then skill i's |
| SkillsSuggester.Unclaimed | client/src/components/SkillsSuggester.tsx:54-56 | the filter loop keeps exactly the unclaimed suggestions, in order |
| SkillsSuggester.Suggest | client/src/components/SkillsSuggester.tsx:30-58 | the effect computes exactly the suggestion function |
| SkillsSuggester.DefaultsWhenEmpty | client/src/components/SkillsSuggester.tsx:35-58 | with no current skills the result is exactly JavaScript, Python, React, Node.js, SQL and Git |
| SkillsSuggester.SuggestionsAreNew | client/src/components/SkillsSuggester.tsx:32-56 | suggestions are distinct, and none equals a current skill when case is ignored |
| SkillsSuggester.SuggestionsInInsertionOrder | client/src/components/SkillsSuggester.tsx:39-58 | suggestions keep the order in which they were first added |
| SkillsSuggester.SuggestionsFromMap | client/src/components/SkillsSuggester.tsx:35-51 | every suggestion is a default (only with no current skills) or comes from the list of a key that equals, contains or is contained in some normalised current skill |
| SkillsSuggester.ContributionsFrom | client/src/components/SkillsSuggester.tsx:39-51 | every added skill comes from some current skill's matching key |
| SkillsSuggester.ContributionFrom | client/src/components/SkillsSuggester.tsx:40-50 | what one skill adds comes from a matching key |
| SkillsSuggester.PartialFrom | client/src/components/SkillsSuggester.tsx:46-50 | every partial-match addition belongs to a matching key |
| SkillsSuggester.EmptySkillMatchesAll | client/src/components/SkillsSuggester.tsx:47 | a blank skill is contained in every key, so it matches them all |
| Api.Stored | client/src/lib/api.ts:36-43 | `localStorage.getItem`: a value exactly when the key is present |
| Api.Cleared | client/src/lib/api.ts:51-53 | exactly the three keys "accessToken", "refreshToken" and "user" are removed; the rest is unchanged |
| Api.Bearer | client/src/lib/api.ts:154-163 | the client's header carries the token that the middleware reads back |
| Api.CurrentUser | client/src/lib/api.ts:56-59 | a user exactly when "user" is stored and non-empty |
| Api.Cached | client/src/lib/api.ts:34-46 | a truthy cached token is returned; otherwise the stored one |
| Api.CachedTwice | client/src/lib/api.ts:34-46 | reading through the cache a second time gives the same token |
| Api.AuthClient.SetTokens | client/src/lib/api.ts:27-32 | both tokens are cached and both storage keys written, nothing else |
| Api.AuthClient.GetAccessToken | client/src/lib/api.ts:34-39 | the cached token, or the stored one, which is then cached |
| Api.AuthClient.GetRefreshToken | client/src/lib/api.ts:41-46 | the same for the refresh token |
| Api.AuthClient.ClearTokens | client/src/lib/api.ts:48-54 | both tokens cleared and exactly the three keys removed; no user remains |
| Api.AuthClient.SetCurrentUser | client/src/lib/api.ts:61-63 | "user" is written, and `getCurrentUser` gives it back |
| Api.AuthClient.Authenticate | client/src/lib/api.ts:65-99 | a refusal throws the server's error or the fallback and changes nothing; success stores both tokens and the user, and returns the user |
| Api.AuthClient.Login | client/src/lib/api.ts:65-81 | a refusal without an error message throws "Login failed"; success stores tokens and user |
| Api.AuthClient.Register | client/src/lib/api.ts:83-99 | a refusal without an error message throws "Registration failed"; success stores tokens and user |
| Api.AuthClient.RefreshAccessToken | client/src/lib/api.ts:101-126 | no refresh token throws without a request; a refusal clears the tokens and throws; success stores both new tokens and returns the access token |
| Api.AuthClient.Logout | client/src/lib/api.ts:128-143 | the logout request is sent only with an access token, and the tokens are cleared whatever happens |
| Api.AuthClient.AuthenticatedFetch | client/src/lib/api.ts:145-173 | no access token throws "Not authenticated" with no request; a non-401 reply is returned as is; a 401 sends the one refresh request with the stored refresh token, and on success both new tokens are cached and written to storage, then the request is retried once with the new token; a failed refresh clears the tokens and redirects; at most three requests |
| Api.ClientHeaderAccepted | client/src/lib/api.ts:154 | the header the client sends passes the middleware when the token verifies |
| Header.FirstChar | client/src/components/Header.tsx:29 | the first character, or nothing for an empty part |
| Header.Initials | client/src/components/Header.tsx:27-32 | at most two characters |
| Header.WordStarts | client/src/components/Header.tsx:27-31 | the reference definition: characters of the name that are not spaces and begin a space-separated word |
| Header.HeadsOfSplit | client/src/components/Header.tsx:28-30 | the first characters of the split parts are exactly the word starts; empty parts add nothing |
| Header.InitialsAreWordStarts | client/src/components/Header.tsx:27-32 | the initials are the first two word starts, uppercased |
| Header.InitialsFromName | client/src/components/Header.tsx:27-32 | every initial is the uppercase of a non-space character of the name |
| Header.Render | client/src/components/Header.tsx:23-88 | nothing without a user; otherwise the initials, name and email; "Dashboard" active exactly on "/dashboard", "New Resume" exactly under "/builder" |
| Header.BuilderHighlightsNewResume | client/src/components/Header.tsx:49-60 | on "/builder/…" only "New Resume" is active |
| ExportModal.PanelOf | client/src/components/ExportModal.tsx:76-132 | in every state exactly one panel shows: selection, progress or complete |
| ExportModal.TicksFromZero | client/src/components/ExportModal.tsx:34-42 | from 0, n ticks give 10·n below nine ticks and 90 afterwards |
| ExportModal.TicksStayInRange | client/src/components/ExportModal.tsx:34-42 | ticking keeps the progress a multiple of ten in 0..90 and never lowers it |
| ExportModal.Dialog.constructor | client/src/components/ExportModal.tsx:23-26 | PDF chosen, not exporting, progress 0, not complete: the selection panel |
| ExportModal.Dialog.ChooseFormat | client/src/components/ExportModal.tsx:23 | the format is set |
| ExportModal.Dialog.Start | client/src/components/ExportModal.tsx:29-45 | exporting, progress 0, not complete, timer running; the chosen format is handed on |
| ExportModal.Dialog.Tick | client/src/components/ExportModal.tsx:34-42 | a tick adds 10 below 90, and at 90 holds the value and stops the timer; the panel does not change |
| ExportModal.Dialog.Succeed | client/src/components/ExportModal.tsx:45-49 | the timer stops, progress 100, complete, close scheduled: the complete panel |
| ExportModal.Dialog.CloseTimeout | client/src/components/ExportModal.tsx:50-55 | the dialog closes and all three fields reset |
| ExportModal.Dialog.Fail | client/src/components/ExportModal.tsx:56-60 | not exporting, progress 0, `isComplete` still false: the selection panel |
| ExportModal.RunTicks | client/src/components/ExportModal.tsx:34-42 | a run of n ticks from the start keeps the progress panel and reaches the progress of `TicksFromZero` |
| AtsAnalysis.ScoreColor | client/src/components/ATSAnalysis.tsx:69-73 | green exactly from 80, yellow exactly from 60 to 79, destructive exactly below 60 |
| AtsAnalysis.ScoreLabel | client/src/components/ATSAnalysis.tsx:75-79 | Excellent, Good and Needs Improvement on the same bands |
| AtsAnalysis.Adverb | client/src/components/ATSAnalysis.tsx:126 | highly, moderately and poorly on the same bands |
| AtsAnalysis.BandsAgree | client/src/components/ATSAnalysis.tsx:69-126 | label, colour and adverb always name the same band |
| AtsAnalysis.MockScore | client/src/components/ATSAnalysis.tsx:60 | `floor(r·30) + 70` for r in [0, 1) lies in 70..99 |
| AtsAnalysis.MockScoreReachable | client/src/components/ATSAnalysis.tsx:60 | each score from 70 to 99 is produced by some r, so 99 and not 100 is the top |
| AtsAnalysis.MockNeverPoor | client/src/components/ATSAnalysis.tsx:60-79 | a simulated score is never in the lowest band |
| AtsAnalysis.BlankIff | client/src/components/ATSAnalysis.tsx:25 | a description is blank exactly when every character is whitespace |
| AtsAnalysis.Card.constructor | client/src/components/ATSAnalysis.tsx:14-21 | empty description, not analysing, no results |
| AtsAnalysis.Card.SetJobDescription | client/src/components/ATSAnalysis.tsx:97 | the description is set |
| AtsAnalysis.Card.Analyze | client/src/components/ATSAnalysis.tsx:24-37 | a blank description raises the toast and changes nothing; otherwise analysis starts and a result is scheduled |
| AtsAnalysis.Card.Finish | client/src/components/ATSAnalysis.tsx:37-66 | the result is the mock score with the fixed 10 keywords and 5 recommendations, and analysis ends |
| AtsAnalysis.Click | client/src/components/ATSAnalysis.tsx:25-106 | through the enabled button the toast never shows and analysis starts |

## Left out

- **Floating-point arithmetic.**
  - `parseFloat` is a parameter returning NaN, an infinity or a real.
  - The percentage display (`toFixed(2)`) is kept as a symbolic span.
  - The keyword score is an exact rational, rounded half up as `Math.round` does for non-negative values.
- **Library internals are parameters or left out.**
  - The output of `JSON.stringify`, parsing of server replies (`response.json()`, `JSON.parse`), zod's email regex, `crypto.randomUUID` and `Math.random` are parameters.
  - The failures of `response.json()` and the `finally` blocks are not modelled.
- **Text is ASCII only.** Case mapping is done on ASCII letters, with no Unicode case folding. Strings are sequences of characters, not UTF-16 code units.
- **Prototype keys of `SKILL_MAP` and of the font map** are not modelled: a skill named "constructor" would match the object's prototype in JavaScript. The suggester is stated for any list of map entries; `SkillMap` is the source's table.
- **Timers, asynchrony and concurrency.**
  - `setTimeout` and `setInterval` are methods the environment calls in some order.
  - Several intervals or timeouts running at once in the export dialog, or overlapping analyses on the card, are not modelled beyond a count of pending results.
- **The browser.** `window.location` is the `redirected` flag of `AuthenticatedFetch`. Downloads through a Blob and anchor, and the draft autosave to `localStorage` in the builder page, are left out.
- **Server plumbing.** Express wiring, the rate limiters, Prisma storage (`server/storage.ts`, `server/db.ts`) and bcrypt/JWT (`server/auth.ts`) are left out. Token verification is a function parameter of the middleware. The list, get and delete routes share `Routes.OwnedResume`; their storage calls are not modelled.
- **Presentation.** CSS classes, icons, layout and font faces are left out; only text content and structure are kept. The landing pages, dashboard, resume card and register stub are static UI or network glue.
- **ATS templates in the preview.** The ATS-Clean and ATS-Simple templates are modelled, but the builder's preview never selects them.
- Minimal.ContactLinks: states each link that is present, not the order or the absence of the others.
- Modern.Contact: states the first item and the presence of each item, not the full order; the full order follows from `Document.ContactLineShown` applied to the template's field list.
- AtsClean.Contact: states the first item and the presence of each item, not the full order; the full order follows from `Document.ContactLineShown` applied to the template's field list.
- AtsSimple.LanguageSpans: its contract states only the span count; the text is stated by `AtsSimple.LanguagesJoined`.
- SkillsSuggester.Suggestions: its own contract states only the cap of 10; the other properties are the lemmas beside it.
- **Corrected members.** Members named `…AsWritten` model the code; the plain-named partners below are corrected versions that the code does not implement. Each differs from the code as its line says.
- Routes.CreateTemplate, Routes.UpdateTemplate, Routes.TemplateIssues, Routes.ClientTemplatesAccepted: corrected to accept "minimal"; the code refuses it (see `Routes.CreateTemplateAsWritten`, `Routes.UpdateTemplateAsWritten`, `Routes.TemplateIssuesAsWritten`).
- Routes.CreateResume, Routes.UpdateResume: corrected to accept "minimal" and to store the data through the corrected parse, which keeps the client's fields; the code stores zod's stripped data (see `Routes.CreateResumeAsWritten`, `Routes.UpdateResumeAsWritten`).
- Routes.ReplyFor, Routes.ReplyFacts, Routes.BuildReply, Routes.AnalyzeResume: corrected to score zero keywords with the structure score and to serialise the unstripped resume; the code replies with a NaN score (sent as `null`) and no suggestions for zero keywords, and serialises the parse result (see `Routes.ReplyForAsWritten`, `Routes.BuildReplyAsWritten`, `Routes.AnalyzeResumeAsWritten`).
- AtsScoring.CalculateAtsScore: corrected score; the code's is `AtsScoring.CalculateAtsScoreAsWritten`, which gives NaN by a branch on zero keywords rather than by floating-point division.
- ResumeBuilder.PayloadData, ResumeBuilder.PayloadIdempotent, ResumeBuilder.HandleSave: built on the corrected phone normaliser, which keeps an empty phone empty and strips whitespace before matching the prefix; the code's path is `ResumeBuilder.PayloadDataAsWritten` and `ResumeBuilder.HandleSaveAsWritten`, and `ResumeBuilder.PayloadsAgree` says where the two agree.
- **RFC 6750.** The middleware does not follow section 2.1 of RFC 6750 in full: the scheme is matched case-sensitively, exactly one space must follow it, and the token is not checked against the b64token syntax. The model states what the code does.
- **Request bodies are well typed.** The create, update and analysis bodies and `ResumeData` are typed records. So zod's `invalid_type` issues are not modelled: a missing `title`, a non-string `template`, an absent `certifications` array or a non-boolean `current` cannot be sent. Issue messages are codes (`InvalidEmail`, `TooShort`, `InvalidEnumValue`), not zod's message texts, which the client prints as `path: message`.
- Schema.ParseResumeDataAsWritten, Schema.ParseResumeData: "accepts exactly when the email passes" holds for well-typed input only; a body of the wrong shape, which zod also refuses, is outside the model.
- **The suggester's empty render** (`if (suggestions.length === 0) return null`) is the predicate `SkillsSuggester.Shown`, with no separate lemma.

## Findings

| source | as written | input that shows it | evidently intended | confidence | as-written member | corrected member |
|---|---|---|---|---|---|---|
| server/routes.ts:338 | the keyword share is `matched / keywords.length * 50` with no guard | a job description with no token longer than two characters, e.g. "" | a score for zero keywords; here, the structure score alone | not executed | AtsScoring.AtsScoreAsWritten, AtsScoring.ZeroKeywordScore, AtsScoring.CalculateAtsScoreAsWritten, Routes.ReplyAsWrittenFacts, Routes.AnalyzeResumeAsWritten | AtsScoring.AtsScore, AtsScoring.CalculateAtsScore, Routes.ReplyFor, Routes.AnalyzeResume |
| client/src/pages/ResumeBuilder.tsx:139 | the normaliser prefixes "+91" even to an empty phone, and strips whitespace only after matching the prefix | "" becomes "+91"; " +91" plus a mobile number becomes "+91+91…"; both are refused by the check at line 86 on the next save | an accepted phone normalises to an accepted "+91" number, and an empty phone stays empty | not executed | ResumeBuilder.NormalisePhoneAsWritten, ResumeBuilder.EmptyPhoneAsWritten, ResumeBuilder.LeadingSpaceAsWritten, ResumeBuilder.PayloadDataAsWritten, ResumeBuilder.HandleSaveAsWritten | ResumeBuilder.NormalisePhone, ResumeBuilder.NormalisePhoneAccepted, ResumeBuilder.NormalisePhoneIdempotent, ResumeBuilder.PayloadData, ResumeBuilder.HandleSave |
| server/routes.ts:193, 225 | the template enum is "classic" and "modern" only | saving with the "minimal" template the builder offers | every template the client offers is accepted | not executed | Routes.CreateTemplateAsWritten, Routes.UpdateTemplateAsWritten, Routes.MinimalRefusedAsWritten, Routes.CreateResumeAsWritten, Routes.UpdateResumeAsWritten | Routes.CreateTemplate, Routes.UpdateTemplate, Routes.ClientTemplatesAccepted, Routes.CreateResume, Routes.UpdateResume |
| shared/schema.ts:67-121 | the schema declares fewer fields than the client sends, and zod strips the rest | a resume with `personal.isFresher` set comes back without it | the saved resume keeps the fields the client edits | not executed | Schema.ParseResumeDataAsWritten, Schema.FresherFlagLostAsWritten, Routes.CreateResumeAsWritten | Schema.ParseResumeData, Schema.ParseRoundTrip, Routes.CreateResume |
