// The keyword-analysis card of client/src/components/ATSAnalysis.tsx: the
// guard on the job description, the simulated analysis with its random
// score, and the three score bands that choose the label, the colour and
// the adverb. `Math.random()` is a parameter, a real in [0, 1).
module AtsAnalysis {
  import opened Wrappers
  import opened JsText

  /** The keywords every simulated analysis recommends. */
  const MockKeywords: seq<string> :=
    ["JavaScript", "React", "TypeScript", "Node.js", "API", "Cloud", "Database", "Agile", "Testing", "Git"]

  /** The recommendations every simulated analysis gives. */
  const MockRecommendations: seq<string> := [
    "Add more quantifiable achievements",
    "Include specific technologies mentioned in the job description",
    "Highlight leadership experience",
    "Add relevant certifications",
    "Optimize formatting for ATS readability"
  ]

  datatype Results = Results(score: int, keywords: seq<string>, recommendations: seq<string>)

  /** `getScoreColor(score)`. */
  function ScoreColor(score: int): (r: string)
    ensures r == "text-green-600" <==> score >= 80
    ensures r == "text-yellow-600" <==> 60 <= score < 80
    ensures r == "text-destructive" <==> score < 60
  {
    if score >= 80 then "text-green-600"
    else if score >= 60 then "text-yellow-600"
    else "text-destructive"
  }

  /** `getScoreLabel(score)`. */
  function ScoreLabel(score: int): (r: string)
    ensures r == "Excellent" <==> score >= 80
    ensures r == "Good" <==> 60 <= score < 80
    ensures r == "Needs Improvement" <==> score < 60
  {
    if score >= 80 then "Excellent"
    else if score >= 60 then "Good"
    else "Needs Improvement"
  }

  /** How well the resume is said to be optimised. */
  function Adverb(score: int): (r: string)
    ensures r == "highly" <==> score >= 80
    ensures r == "moderately" <==> 60 <= score < 80
    ensures r == "poorly" <==> score < 60
  {
    if score >= 80 then "highly" else if score >= 60 then "moderately" else "poorly"
  }

  /** The sentence under the score. */
  function Description(score: int): string
  {
    ScoreLabel(score) + " - Your resume is " + Adverb(score) + " optimized for this position"
  }

  /** The label, the colour and the adverb always name the same band. */
  lemma BandsAgree(score: int)
    ensures ScoreLabel(score) == "Excellent" <==> ScoreColor(score) == "text-green-600"
    ensures ScoreColor(score) == "text-green-600" <==> Adverb(score) == "highly"
    ensures ScoreLabel(score) == "Good" <==> ScoreColor(score) == "text-yellow-600"
    ensures ScoreColor(score) == "text-yellow-600" <==> Adverb(score) == "moderately"
    ensures ScoreLabel(score) == "Needs Improvement" <==> ScoreColor(score) == "text-destructive"
    ensures ScoreColor(score) == "text-destructive" <==> Adverb(score) == "poorly"
  {
  }

  /** `Math.floor(random * 30) + 70`. */
  function MockScore(random: real): (r: int)
    requires 0.0 <= random < 1.0
    ensures 70 <= r <= 99
  {
    (random * 30.0).Floor + 70
  }

  /** Every score from 70 to 99 can come out; with the bound of
      `MockScore`, these are exactly the simulated scores, and 100 is not
      one of them. */
  lemma MockScoreReachable(k: int)
    requires 70 <= k <= 99
    ensures var random := (k - 70) as real / 30.0;
      0.0 <= random < 1.0 && MockScore(random) == k
  {
    var random := (k - 70) as real / 30.0;
    assert random * 30.0 == (k - 70) as real;
  }

  /** A simulated analysis is never in the lowest band. */
  lemma MockNeverPoor(random: real)
    requires 0.0 <= random < 1.0
    ensures ScoreLabel(MockScore(random)) != "Needs Improvement"
    ensures ScoreColor(MockScore(random)) != "text-destructive"
  {
  }

  /** `!jobDescription.trim()`: nothing but whitespace was entered. */
  predicate Blank(jobDescription: string)
  {
    Trim(jobDescription) == ""
  }

  /** Blank means every character is whitespace. */
  lemma BlankIff(jobDescription: string)
    ensures Blank(jobDescription) <==> forall i :: 0 <= i < |jobDescription| ==> IsWhitespace(jobDescription[i])
  {
  }

  class Card {
    var jobDescription: string
    var isAnalyzing: bool
    var results: Option<Results>
    /** Analysis timeouts scheduled and not yet fired. */
    var pending: nat

    /** Every result shown is a simulated one: a score from 70 to 99 with
        the fixed keywords and recommendations; the card is analysing only
        while a timeout is pending. */
    ghost predicate Valid()
      reads this
    {
      && (results.Some? ==> && 70 <= results.value.score <= 99
                            && results.value.keywords == MockKeywords
                            && results.value.recommendations == MockRecommendations)
      && (isAnalyzing ==> pending > 0)
    }

    constructor ()
      ensures Valid() && jobDescription == "" && !isAnalyzing && results == None && pending == 0
    {
      jobDescription := "";
      isAnalyzing := false;
      results := None;
      pending := 0;
    }

    /** The analyze button is enabled. */
    predicate ButtonEnabled()
      reads this
    {
      !isAnalyzing && !Blank(jobDescription)
    }

    method SetJobDescription(text: string)
      modifies this`jobDescription
      ensures jobDescription == text
    {
      jobDescription := text;
    }

    /** `analyzeResume()`: a blank description raises the toast and
        changes nothing; otherwise the card starts analysing and schedules
        the result. */
    method Analyze() returns (toast: bool)
      requires Valid()
      modifies this`isAnalyzing, this`pending
      ensures Valid()
      ensures toast <==> Blank(jobDescription)
      ensures toast ==> isAnalyzing == old(isAnalyzing) && pending == old(pending)
      ensures !toast ==> isAnalyzing && pending == old(pending) + 1
    {
      if Blank(jobDescription) {
        return true;
      }
      isAnalyzing := true;
      pending := pending + 1;
      toast := false;
    }

    /** The timeout of a simulated analysis, `random` being what
        `Math.random()` returned. */
    method Finish(random: real)
      requires Valid() && pending > 0 && 0.0 <= random < 1.0
      modifies this`results, this`isAnalyzing, this`pending
      ensures Valid()
      ensures results == Some(Results(MockScore(random), MockKeywords, MockRecommendations))
      ensures !isAnalyzing && pending == old(pending) - 1
    {
      results := Some(Results(MockScore(random), MockKeywords, MockRecommendations));
      isAnalyzing := false;
      pending := pending - 1;
    }
  }

  /** Through the button the toast never shows: the button is disabled
      exactly when the guard would raise it, or while analysing. */
  method Click(c: Card) returns (toast: bool)
    requires c.Valid() && c.ButtonEnabled()
    modifies c
    ensures c.Valid() && !toast && c.isAnalyzing
  {
    toast := c.Analyze();
  }
}
