// The ATS scorer of server/routes.ts: keyword extraction from a job
// description, keyword matching against the serialised resume, the score
// and the suggestions.
module AtsScoring {
  import opened Seqs
  import opened JsText
  import opened JsNumbers
  import opened Schema

  // ---------------------------------------------------------------------
  // Keyword extraction

  const StopWords: set<string> := {
    "the", "a", "an", "and", "or", "but", "in", "on", "at", "to", "for", "of",
    "with", "by", "from", "as", "is", "was", "are", "be", "been", "being"
  }

  /** `replace(/[^\w\s]/g, ' ')`: every character that is neither a word
      character nor whitespace becomes a space. */
  function Clean(s: string): (r: string)
    ensures |r| == |s|
    ensures forall i :: 0 <= i < |r| ==> IsWordChar(r[i]) || IsWhitespace(r[i])
    ensures forall i :: 0 <= i < |s| && (IsWordChar(s[i]) || IsWhitespace(s[i])) ==> r[i] == s[i]
  {
    seq(|s|, i requires 0 <= i < |s| =>
      if IsWordChar(s[i]) || IsWhitespace(s[i]) then s[i] else ' ')
  }

  predicate IsCandidate(w: string)
  {
    |w| > 2 && w !in StopWords
  }

  /** The words of the job description that are counted: lower-cased,
      punctuation blanked out, split at whitespace, longer than two
      characters and not stop words. */
  function Words(text: string): seq<string>
  {
    Filter(SplitWhitespace(Clean(Lower(text))), w => IsCandidate(w))
  }

  /** What a keyword looks like: lower-case word characters only, longer
      than two characters, not a stop word. */
  predicate IsKeywordToken(w: string)
  {
    && |w| > 2 && w !in StopWords
    && forall i :: 0 <= i < |w| ==> IsWordChar(w[i]) && !IsAsciiUpper(w[i])
  }

  lemma WordsAreTokens(text: string)
    ensures forall w :: w in Words(text) ==> IsKeywordToken(w)
  {
    var low := Lower(text);
    var clean := Clean(low);
    forall w | w in Words(text)
      ensures IsKeywordToken(w)
    {
      var fields := SplitWhitespace(clean);
      assert w in fields;
      forall i | 0 <= i < |w|
        ensures IsWordChar(w[i]) && !IsAsciiUpper(w[i])
      {
        var c := w[i];
        assert c in clean && !IsWhitespace(c);
        var k :| 0 <= k < |clean| && clean[k] == c;
        assert k < |low|;
      }
    }
  }

  /** A word with how often it occurs. */
  type Entry = (string, nat)

  /** The entries of the frequency map, in insertion order. */
  function Tally(ws: seq<string>): (t: seq<Entry>)
    ensures |t| == |Dedup(ws)|
    ensures forall j :: 0 <= j < |t| ==> t[j] == (Dedup(ws)[j], Count(ws, Dedup(ws)[j]))
  {
    var d := Dedup(ws);
    seq(|d|, j requires 0 <= j < |d| => (d[j], Count(ws, d[j])))
  }

  /** `a` comes before `b` in a stable sort by descending count of entries
      listed in order of first occurrence in `ws`. */
  predicate Before(a: Entry, b: Entry, ws: seq<string>)
  {
    a.1 > b.1 || (a.1 == b.1 && IndexOf(ws, a.0) < IndexOf(ws, b.0))
  }

  predicate Ranked(t: seq<Entry>, ws: seq<string>)
  {
    forall i, j :: 0 <= i < j < |t| ==> Before(t[i], t[j], ws)
  }

  /** One step of the stable sort: `e` goes in front of the first entry
      whose count it is at least. */
  function Insert(e: Entry, t: seq<Entry>): (r: seq<Entry>)
    ensures |r| == |t| + 1
    ensures forall x :: x in r <==> x == e || x in t
    decreases |t|
  {
    if t == [] || e.1 >= t[0].1 then [e] + t else [t[0]] + Insert(e, t[1..])
  }

  /** `sort((a, b) => b[1] - a[1])` with the stable sort of ES2019. */
  function SortByCount(s: seq<Entry>): (r: seq<Entry>)
    ensures |r| == |s|
    ensures forall x :: x in r <==> x in s
    decreases |s|
  {
    if s == [] then [] else Insert(s[0], SortByCount(s[1..]))
  }

  lemma {:induction false} InsertRanked(e: Entry, t: seq<Entry>, ws: seq<string>)
    requires Ranked(t, ws)
    requires forall x :: x in t ==> IndexOf(ws, e.0) < IndexOf(ws, x.0)
    ensures Ranked(Insert(e, t), ws)
    decreases |t|
  {
    if t == [] || e.1 >= t[0].1 {
      var r := [e] + t;
      forall j | 0 < j < |r|
        ensures Before(e, r[j], ws)
      {
        assert r[j] == t[j - 1];
        if j > 1 { assert Before(t[0], t[j - 1], ws); }
      }
    } else {
      InsertRanked(e, t[1..], ws);
      var rest := Insert(e, t[1..]);
      forall x | x in rest
        ensures Before(t[0], x, ws)
      {
        if x != e {
          var k :| 0 <= k < |t[1..]| && t[1..][k] == x;
          assert x == t[k + 1];
        }
      }
    }
  }

  /** The stable sort ranks entries that arrive in increasing position. */
  lemma {:induction false} SortRanked(s: seq<Entry>, ws: seq<string>)
    requires forall i, j :: 0 <= i < j < |s| ==> IndexOf(ws, s[i].0) < IndexOf(ws, s[j].0)
    ensures Ranked(SortByCount(s), ws)
    decreases |s|
  {
    if s != [] {
      SortRanked(s[1..], ws);
      forall x | x in SortByCount(s[1..])
        ensures IndexOf(ws, s[0].0) < IndexOf(ws, x.0)
      {
        var k :| 0 <= k < |s[1..]| && s[1..][k] == x;
        assert x == s[k + 1];
      }
      InsertRanked(s[0], SortByCount(s[1..]), ws);
    }
  }

  function Firsts(t: seq<Entry>): (r: seq<string>)
    ensures |r| == |t|
    ensures forall i :: 0 <= i < |t| ==> r[i] == t[i].0
  {
    seq(|t|, i requires 0 <= i < |t| => t[i].0)
  }

  /** The at most twenty keywords, most frequent first. */
  function Keywords(text: string): (r: seq<string>)
    ensures |r| <= 20
  {
    Firsts(Take(SortByCount(Tally(Words(text))), 20))
  }

  /** The sorted frequency table of a job description, with what is known
      about it. */
  lemma SortedTally(ws: seq<string>)
    ensures var sorted := SortByCount(Tally(ws));
      && Ranked(sorted, ws)
      && |sorted| == |Dedup(ws)|
      && (forall x :: x in sorted ==> x.0 in ws && x.1 == Count(ws, x.0))
      && (forall w :: w in ws ==> (w, Count(ws, w)) in sorted)
  {
    var t := Tally(ws);
    DedupOrder(ws);
    SortRanked(t, ws);
    forall w | w in ws
      ensures (w, Count(ws, w)) in t
    {
      var d := Dedup(ws);
      var j :| 0 <= j < |d| && d[j] == w;
      assert t[j] == (w, Count(ws, w));
    }
  }

  /** Every keyword is a word of the job description, a lower-case token,
      and no keyword is listed twice; there are at most twenty. */
  lemma KeywordsWellFormed(text: string)
    ensures var kw := Keywords(text);
      && |kw| <= 20
      && Distinct(kw)
      && forall k :: k in kw ==> k in Words(text) && IsKeywordToken(k)
  {
    var ws := Words(text);
    var sorted := SortByCount(Tally(ws));
    var kw := Keywords(text);
    SortedTally(ws);
    WordsAreTokens(text);
    forall i, j | 0 <= i < j < |kw|
      ensures kw[i] != kw[j]
    {
      assert sorted[i] in sorted && sorted[j] in sorted;
      assert Before(sorted[i], sorted[j], ws);
    }
    forall k | k in kw
      ensures k in ws
    {
      var i :| 0 <= i < |kw| && kw[i] == k;
      assert sorted[i] in sorted;
    }
  }

  /** Keywords are ordered by descending frequency, ties by first
      occurrence in the job description. */
  lemma KeywordsRanked(text: string)
    ensures var ws := Words(text);
      var kw := Keywords(text);
      forall i, j :: 0 <= i < j < |kw| ==>
        Count(ws, kw[i]) > Count(ws, kw[j])
        || (Count(ws, kw[i]) == Count(ws, kw[j]) && IndexOf(ws, kw[i]) < IndexOf(ws, kw[j]))
  {
    var ws := Words(text);
    var sorted := SortByCount(Tally(ws));
    var kw := Keywords(text);
    SortedTally(ws);
    forall i, j | 0 <= i < j < |kw|
      ensures Count(ws, kw[i]) > Count(ws, kw[j])
        || (Count(ws, kw[i]) == Count(ws, kw[j]) && IndexOf(ws, kw[i]) < IndexOf(ws, kw[j]))
    {
      assert sorted[i] in sorted && sorted[j] in sorted;
      assert Before(sorted[i], sorted[j], ws);
    }
  }

  /** A counted word that is not a keyword was crowded out: there are
      twenty keywords, each at least as frequent as it. */
  lemma KeywordsAreTopTwenty(text: string, w: string)
    requires w in Words(text) && w !in Keywords(text)
    ensures var ws := Words(text);
      var kw := Keywords(text);
      |kw| == 20 && forall k :: k in kw ==> Count(ws, k) >= Count(ws, w)
  {
    CrowdedOut(Words(text), w);
  }

  lemma CrowdedOut(ws: seq<string>, w: string)
    requires w in ws && w !in Firsts(Take(SortByCount(Tally(ws)), 20))
    ensures var kw := Firsts(Take(SortByCount(Tally(ws)), 20));
      |kw| == 20 && forall k :: k in kw ==> Count(ws, k) >= Count(ws, w)
  {
    var sorted := SortByCount(Tally(ws));
    var kw := Firsts(Take(sorted, 20));
    SortedTally(ws);
    var p := Position(sorted, (w, Count(ws, w)));
    assert forall i :: 0 <= i < |kw| ==> kw[i] == sorted[i].0 != w;
    assert p >= 20;
    forall i | 0 <= i < 20
      ensures kw[i] == sorted[i].0 && sorted[i].1 >= Count(ws, w)
    {
      assert Before(sorted[i], sorted[p], ws);
    }
    forall k | k in kw
      ensures Count(ws, k) >= Count(ws, w)
    {
      var i := Position(kw, k);
      assert sorted[i] in sorted;
    }
  }

  /** `extractKeywords`: counts the words in a map filled in insertion
      order, then ranks the entries and keeps the first twenty. */
  method ExtractKeywords(text: string) returns (keywords: seq<string>)
    ensures keywords == Keywords(text)
  {
    var words := Words(text);
    var order, freq := CountWords(words);
    var entries := seq(|order|, j requires 0 <= j < |order| => (order[j], freq[order[j]]));
    assert entries == Tally(words);
    keywords := Firsts(Take(SortByCount(entries), 20));
  }

  /** `order` lists the distinct words of `words` in order of first
      occurrence, and `freq` maps exactly those to their counts. */
  ghost predicate Tallied(words: seq<string>, order: seq<string>, freq: map<string, nat>)
  {
    && order == Dedup(words)
    && (forall w :: w in freq <==> w in order)
    && (forall w :: w in freq ==> freq[w] == Count(words, w))
  }

  /** One word more: a known word's count goes up, a new word is appended. */
  lemma TalliedStep(pre: seq<string>, w: string, order: seq<string>, freq: map<string, nat>)
    requires Tallied(pre, order, freq)
    ensures w in freq ==> Tallied(pre + [w], order, freq[w := freq[w] + 1])
    ensures w !in freq ==> Tallied(pre + [w], order + [w], freq[w := 1])
  {
    DedupSnoc(pre, w);
    CountSnocAll(pre, w);
  }

  /** The frequency map of `extractKeywords`, with its keys in insertion
      order. */
  method CountWords(words: seq<string>) returns (order: seq<string>, freq: map<string, nat>)
    ensures Tallied(words, order, freq)
  {
    order, freq := [], map[];
    var i := 0;
    while i < |words|
      invariant 0 <= i <= |words|
      invariant Tallied(words[..i], order, freq)
    {
      var w := words[i];
      assert words[..i + 1] == words[..i] + [w];
      TalliedStep(words[..i], w, order, freq);
      if w in freq {
        freq := freq[w := freq[w] + 1];
      } else {
        order := order + [w];
        freq := freq[w := 1];
      }
      i := i + 1;
    }
    assert words[..i] == words;
  }

  // ---------------------------------------------------------------------
  // Matching and scoring

  /** `findMatchingKeywords`: the keywords occurring in the lower-cased
      serialisation of the resume, in keyword order. */
  function MatchingKeywords(serialized: string, keywords: seq<string>): (r: seq<string>)
    ensures forall k :: k in r <==> k in keywords && Contains(Lower(serialized), Lower(k))
    ensures |r| <= |keywords|
  {
    Filter(keywords, k => Contains(Lower(serialized), Lower(k)))
  }

  /** `keywords.filter(k => !matches.includes(k))`. */
  function MissingKeywords(keywords: seq<string>, matches: seq<string>): (r: seq<string>)
    ensures |r| <= |keywords|
    ensures forall k :: k in r <==> k in keywords && k !in matches
  {
    Filter(keywords, k => k !in matches)
  }

  /** Matches and missing keywords split the keywords between them. */
  lemma MatchesAndMissingPartition(serialized: string, keywords: seq<string>)
    ensures var m := MatchingKeywords(serialized, keywords);
      var x := MissingKeywords(keywords, m);
      && |m| + |x| == |keywords|
      && (forall k :: k in keywords ==> (k in m <==> k !in x))
      && (forall k :: k in x <==> k in keywords && !Contains(Lower(serialized), Lower(k)))
  {
    var p := k => Contains(Lower(serialized), Lower(k));
    var m := MatchingKeywords(serialized, keywords);
    FilterComplementLength(keywords, p, k => k !in m);
  }

  /** The points for the sections present: summary 10, experience 15,
      education 10, skills 10, projects 5. */
  function StructureScore(d: ResumeData): (s: nat)
    ensures s <= 50
    ensures s == 50 <==> Truthy(d.summary) && |d.experience| > 0 && |d.education| > 0
                          && |d.skills| > 0 && |d.projects| > 0
    ensures s == 0 <==> !Truthy(d.summary) && d.experience == [] && d.education == []
                         && d.skills == [] && d.projects == []
  {
    (if Truthy(d.summary) then 10 else 0)
    + (if |d.experience| > 0 then 15 else 0)
    + (if |d.education| > 0 then 10 else 0)
    + (if |d.skills| > 0 then 10 else 0)
    + (if |d.projects| > 0 then 5 else 0)
  }

  /** Certifications, languages and the entry contents do not affect the
      structure score; only which sections are non-empty does. */
  lemma StructureScoreDependsOnPresence(d: ResumeData, e: ResumeData)
    requires Truthy(d.summary) == Truthy(e.summary)
    requires (d.experience == []) == (e.experience == [])
    requires (d.education == []) == (e.education == [])
    requires (d.skills == []) == (e.skills == [])
    requires (d.projects == []) == (e.projects == [])
    ensures StructureScore(d) == StructureScore(e)
  {
  }

  /** `(matches / total) * 50`: at most 50 points for the keywords. */
  function KeywordPoints(matched: nat, total: nat): (p: real)
    requires 0 < total && matched <= total
    ensures 0.0 <= p <= 50.0
    ensures matched == total ==> p == 50.0
    ensures matched == 0 ==> p == 0.0
  {
    var q := matched as real / total as real;
    RatioAtMostOne(matched, total);
    q * 50.0
  }

  lemma RatioAtMostOne(matched: nat, total: nat)
    requires 0 < total && matched <= total
    ensures 0.0 <= matched as real / total as real <= 1.0
  {
    var q := matched as real / total as real;
    assert q * total as real == matched as real;
    assert (1.0 - q) * total as real == (total - matched) as real;
  }

  /** The keyword points plus the structure points, rounded and capped at
      100, when there are keywords to divide by. */
  function Combined(d: ResumeData, serialized: string, keywords: seq<string>): (r: int)
    requires keywords != []
    ensures StructureScore(d) <= r <= StructureScore(d) + 50 && r <= 100
    ensures |MatchingKeywords(serialized, keywords)| == |keywords| ==> r == StructureScore(d) + 50
  {
    var raw := Round(KeywordPoints(|MatchingKeywords(serialized, keywords)|, |keywords|) + StructureScore(d) as real);
    if raw < 100 then raw else 100
  }

  /** `calculateATSScore` as written: `matches / keywords.length` is 0 / 0
      when the job description yields no keyword, and NaN survives the
      rounding and `Math.min`. */
  function AtsScoreAsWritten(d: ResumeData, serialized: string, keywords: seq<string>): (r: JsNumber)
    ensures r.NaN? <==> keywords == []
    ensures r.Finite? ==> 0.0 <= r.value <= 100.0 && r.value == r.value.Floor as real
  {
    if keywords == [] then NaN else Finite(Combined(d, serialized, keywords) as real)
  }

  /** The score with no keyword points when there are no keywords. */
  function AtsScore(d: ResumeData, serialized: string, keywords: seq<string>): (r: int)
    ensures StructureScore(d) <= r <= StructureScore(d) + 50
    ensures 0 <= r <= 100
    ensures keywords == [] ==> r == StructureScore(d)
    ensures keywords != [] ==> AtsScoreAsWritten(d, serialized, keywords) == Finite(r as real)
    ensures keywords != [] && |MatchingKeywords(serialized, keywords)| == |keywords| ==> r == StructureScore(d) + 50
  {
    if keywords == [] then StructureScore(d) else Combined(d, serialized, keywords)
  }

  /** `calculateATSScore`, guarded: sums the structure points one section
      at a time and adds the keyword points when there are keywords. */
  method CalculateAtsScore(d: ResumeData, serialized: string, keywords: seq<string>) returns (score: int)
    ensures score == AtsScore(d, serialized, keywords)
  {
    var matches := MatchingKeywords(serialized, keywords);
    var keywordScore := 0.0;
    if |keywords| > 0 {
      keywordScore := KeywordPoints(|matches|, |keywords|);
    }
    var structureScore := StructurePoints(d);
    var raw := Round(keywordScore + structureScore as real);
    score := if raw < 100 then raw else 100;
    if |keywords| == 0 {
      assert raw == structureScore;
    }
  }

  /** `calculateATSScore` as written: with no keyword, `0 / 0 * 50` is
      NaN, and NaN passes through the addition, `Math.round` and
      `Math.min`. */
  method CalculateAtsScoreAsWritten(d: ResumeData, serialized: string, keywords: seq<string>) returns (score: JsNumber)
    ensures score == AtsScoreAsWritten(d, serialized, keywords)
  {
    var matches := MatchingKeywords(serialized, keywords);
    var structureScore := StructurePoints(d);
    if |keywords| == 0 {
      score := NaN;
    } else {
      var raw := Round(KeywordPoints(|matches|, |keywords|) + structureScore as real);
      var capped := if raw < 100 then raw else 100;
      assert capped == Combined(d, serialized, keywords);
      score := Finite(capped as real);
    }
  }

  /** Dropping the client-only fields leaves the structure score alone. */
  lemma StripKeepsStructureScore(d: ResumeData)
    ensures StructureScore(Strip(d)) == StructureScore(d)
  {
    StructureScoreDependsOnPresence(d, Strip(d));
  }

  /** Scoring the parsed resume as written: with keywords, a whole number
      between the structure score of what the client sent and 50 above
      it, at most 100. */
  lemma StrippedScoreAsWritten(d: ResumeData, serialized: string, keywords: seq<string>)
    requires keywords != []
    ensures var s := AtsScoreAsWritten(Strip(d), serialized, keywords);
      && s.Finite?
      && StructureScore(d) as real <= s.value <= (StructureScore(d) + 50) as real
      && s.value <= 100.0
  {
    StripKeepsStructureScore(d);
  }

  /** The structure points, added up one section at a time. */
  method StructurePoints(d: ResumeData) returns (structureScore: int)
    ensures structureScore == StructureScore(d)
  {
    structureScore := 0;
    if Truthy(d.summary) { structureScore := structureScore + 10; }
    if |d.experience| > 0 { structureScore := structureScore + 15; }
    if |d.education| > 0 { structureScore := structureScore + 10; }
    if |d.skills| > 0 { structureScore := structureScore + 10; }
    if |d.projects| > 0 { structureScore := structureScore + 5; }
  }

  /** An empty job description yields no keyword. */
  lemma NoKeywordsFromEmptyText()
    ensures Keywords("") == []
  {
    assert Lower("") == "";
    assert Clean("") == "";
    assert SplitWhitespace("") == [""];
    assert Words("") == [];
  }

  /** On such a description the score as written is NaN; the corrected
      score is the structure score. */
  lemma ZeroKeywordScore(d: ResumeData, serialized: string)
    ensures AtsScoreAsWritten(d, serialized, Keywords("")) == NaN
    ensures AtsScore(d, serialized, Keywords("")) == StructureScore(d)
  {
    NoKeywordsFromEmptyText();
  }

  // ---------------------------------------------------------------------
  // Suggestions

  const KeywordTip: string := "Add more relevant keywords from the job description"
  const SectionsTip: string := "Ensure all sections (summary, experience, education, skills) are filled out"

  function MissingTip(missing: seq<string>): string
  {
    "Consider adding these keywords: " + Join(Take(missing, 5), ", ")
  }

  /** The tips of `generateSuggestions` for a score and the missing
      keywords: the generic tip below 60, the missing-keywords tip when
      some are missing, the sections tip below 80, in that order. The score
      is a JavaScript number: NaN fails both comparisons, so it earns only
      the missing-keywords tip. */
  function Suggestions(score: JsNumber, missing: seq<string>): (s: seq<string>)
    ensures |s| <= 3
    ensures score.Finite? ==> (s == [] <==> score.value >= 80.0 && missing == [])
    ensures score.NaN? ==> s == (if |missing| > 0 then [MissingTip(missing)] else [])
    ensures Lt(score, Finite(60.0)) ==> |s| >= 2 && s[0] == KeywordTip && s[|s| - 1] == SectionsTip
    ensures score.Finite? && score.value >= 80.0 ==>
              s == (if |missing| > 0 then [MissingTip(missing)] else [])
    ensures score.Finite? && 60.0 <= score.value < 80.0 ==>
              s == (if |missing| > 0 then [MissingTip(missing)] else []) + [SectionsTip]
    ensures score.Finite? && score.value < 60.0 ==>
              s == [KeywordTip] + (if |missing| > 0 then [MissingTip(missing)] else []) + [SectionsTip]
  {
    (if Lt(score, Finite(60.0)) then [KeywordTip] else [])
    + (if |missing| > 0 then [MissingTip(missing)] else [])
    + (if Lt(score, Finite(80.0)) then [SectionsTip] else [])
  }

  /** `generateSuggestions`: up to three tips, pushed in a fixed order. */
  method GenerateSuggestions(score: JsNumber, missing: seq<string>) returns (suggestions: seq<string>)
    ensures suggestions == Suggestions(score, missing)
  {
    suggestions := [];
    if Lt(score, Finite(60.0)) {
      suggestions := suggestions + [KeywordTip];
    }
    if |missing| > 0 {
      suggestions := suggestions + [MissingTip(missing)];
    }
    if Lt(score, Finite(80.0)) {
      suggestions := suggestions + [SectionsTip];
    }
  }
}
