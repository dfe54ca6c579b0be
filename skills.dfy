// The skill suggester of client/src/components/SkillsSuggester.tsx: the
// fixed map of related skills, the insertion-ordered set filled from it by
// direct and partial key matches, and the filter and cap applied before the
// suggestions are shown.
module SkillsSuggester {
  import opened Wrappers
  import opened Seqs
  import opened JsText

  /** `SKILL_MAP`, as its entries in declaration order. */
  const SkillMap: seq<(string, seq<string>)> := [
    ("react", ["Redux", "Next.js", "TypeScript", "Tailwind CSS", "Vite", "React Query"]),
    ("javascript", ["TypeScript", "Node.js", "React", "Vue.js", "ES6+"]),
    ("typescript", ["React", "Angular", "Node.js", "NestJS"]),
    ("node", ["Express", "MongoDB", "PostgreSQL", "NestJS", "Docker"]),
    ("python", ["Django", "Flask", "FastAPI", "Pandas", "NumPy", "Machine Learning"]),
    ("java", ["Spring Boot", "Hibernate", "Microservices", "Kotlin"]),
    ("html", ["CSS", "JavaScript", "Responsive Design", "Accessibility"]),
    ("css", ["Sass", "Tailwind CSS", "Bootstrap", "Flexbox", "Grid"]),
    ("sql", ["PostgreSQL", "MySQL", "Database Design", "ORM"]),
    ("git", ["GitHub", "GitLab", "CI/CD", "Version Control"]),
    ("aws", ["Docker", "Kubernetes", "Cloud Computing", "Serverless"]),
    ("docker", ["Kubernetes", "CI/CD", "DevOps", "AWS"])
  ]

  /** The popular skills offered when no skill has been entered. */
  const Defaults: seq<string> := ["JavaScript", "Python", "React", "Node.js", "SQL", "Git"]

  /** The most suggestions shown. */
  const Limit: nat := 10

  /** `SKILL_MAP[key]`. */
  function Lookup(key: string, entries: seq<(string, seq<string>)>): (r: Option<seq<string>>)
    ensures r.Some? ==> exists k :: 0 <= k < |entries| && entries[k].0 == key && entries[k].1 == r.value
    decreases |entries|
  {
    if entries == [] then None
    else if entries[0].0 == key then Some(entries[0].1)
    else
      var r := Lookup(key, entries[1..]);
      if r.Some? then
        var k :| 0 <= k < |entries[1..]| && entries[1..][k].0 == key && entries[1..][k].1 == r.value;
        assert entries[k + 1] == entries[1..][k];
        r
      else r
  }

  /** `skill.toLowerCase().trim()`. */
  function Normalised(skill: string): string
  {
    Trim(Lower(skill))
  }

  /** `key.includes(normalized) || normalized.includes(key)`. */
  predicate Matches(normalized: string, key: string)
  {
    Contains(key, normalized) || Contains(normalized, key)
  }

  /** The lists of the keys among `entries` that match, in declaration
      order. */
  function Partial(normalized: string, entries: seq<(string, seq<string>)>): seq<string>
    decreases |entries|
  {
    if entries == [] then []
    else
      var e := entries[|entries| - 1];
      Partial(normalized, entries[..|entries| - 1]) + if Matches(normalized, e.0) then e.1 else []
  }

  /** What one current skill adds: its direct list, then the partial
      matches. */
  function Contribution(entries: seq<(string, seq<string>)>, skill: string): seq<string>
  {
    Gains(entries, Normalised(skill))
  }

  /** The direct list of a normalised skill, then its partial matches. */
  function Gains(entries: seq<(string, seq<string>)>, normalized: string): seq<string>
  {
    Lookup(normalized, entries).GetOr([]) + Partial(normalized, entries)
  }

  /** The defaults when there are no skills, nothing otherwise. */
  function Base(skills: seq<string>): seq<string>
  {
    if |skills| == 0 then Defaults else []
  }

  /** What the skills add, skill by skill. */
  function Contributions(entries: seq<(string, seq<string>)>, skills: seq<string>): seq<string>
    decreases |skills|
  {
    if skills == [] then []
    else Contributions(entries, skills[..|skills| - 1]) + Contribution(entries, skills[|skills| - 1])
  }

  /** Every `add` call, in order, before the set drops repeats. */
  function Added(entries: seq<(string, seq<string>)>, skills: seq<string>): seq<string>
  {
    Base(skills) + Contributions(entries, skills)
  }

  /** `currentSkills.some(cs => cs.toLowerCase() === s.toLowerCase())`. */
  predicate Claimed(s: string, skills: seq<string>)
    decreases |skills|
  {
    if skills == [] then false
    else Lower(skills[0]) == Lower(s) || Claimed(s, skills[1..])
  }

  lemma {:induction false} ClaimedIff(s: string, skills: seq<string>)
    ensures Claimed(s, skills) <==> exists i :: 0 <= i < |skills| && Lower(skills[i]) == Lower(s)
    decreases |skills|
  {
    if skills != [] {
      ClaimedIff(s, skills[1..]);
      if exists i :: 0 <= i < |skills| && Lower(skills[i]) == Lower(s) {
        var i :| 0 <= i < |skills| && Lower(skills[i]) == Lower(s);
        if i > 0 {
          assert skills[1..][i - 1] == skills[i];
        }
      }
      if Claimed(s, skills[1..]) {
        var i :| 0 <= i < |skills[1..]| && Lower(skills[1..][i]) == Lower(s);
        assert skills[i + 1] == skills[1..][i];
      }
    }
  }

  function UnclaimedBy(skills: seq<string>): string -> bool
  {
    s => !Claimed(s, skills)
  }

  /** The suggestions for the current skills from a map of related skills:
      the set in insertion order, less what is already claimed, cut to ten.
      The map is a parameter so that the proofs hold for any map;
      `SKILL_MAP` itself is `SkillMap`. */
  function Suggestions(entries: seq<(string, seq<string>)>, skills: seq<string>): (r: seq<string>)
    ensures |r| <= Limit
  {
    Take(Filter(Dedup(Added(entries, skills)), UnclaimedBy(skills)), Limit)
  }

  /** The suggester renders nothing when there is nothing to suggest. */
  predicate Shown(suggestions: seq<string>)
  {
    |suggestions| > 0
  }

  /** `xs.forEach(s => set.add(s))` on the set `collected`. */
  method AddEach(ghost added: seq<string>, collected: seq<string>, xs: seq<string>) returns (r: seq<string>)
    requires collected == Dedup(added)
    ensures r == Dedup(added + xs)
  {
    r := collected;
    assert added + xs[..0] == added;
    for j := 0 to |xs|
      invariant r == Dedup(added + xs[..j])
    {
      assert added + xs[..j + 1] == (added + xs[..j]) + [xs[j]];
      DedupSnoc(added + xs[..j], xs[j]);
      r := Add(r, xs[j]);
    }
    assert xs[..|xs|] == xs;
  }

  /** The partial-match pass over `SKILL_MAP` for one normalised skill. */
  method AddMatches(entries: seq<(string, seq<string>)>, ghost added: seq<string>, collected: seq<string>,
                    normalized: string) returns (r: seq<string>)
    requires collected == Dedup(added)
    ensures r == Dedup(added + Partial(normalized, entries))
  {
    r := collected;
    ghost var sofar := added;
    assert entries[..0] == [];
    for k := 0 to |entries|
      invariant r == Dedup(sofar)
      invariant sofar == added + Partial(normalized, entries[..k])
    {
      PartialSnoc(normalized, entries, k);
      if Matches(normalized, entries[k].0) {
        r := AddEach(sofar, r, entries[k].1);
        Assoc(added, Partial(normalized, entries[..k]), entries[k].1);
        sofar := sofar + entries[k].1;
      } else {
        assert Partial(normalized, entries[..k + 1]) == Partial(normalized, entries[..k]) + [];
      }
    }
    assert entries[..|entries|] == entries;
  }

  lemma PartialSnoc(normalized: string, entries: seq<(string, seq<string>)>, k: int)
    requires 0 <= k < |entries|
    ensures Partial(normalized, entries[..k + 1])
         == Partial(normalized, entries[..k]) + if Matches(normalized, entries[k].0) then entries[k].1 else []
  {
    assert entries[..k + 1][..k] == entries[..k];
  }

  /** What one normalised skill adds to the set: its direct list, then the
      partial matches. */
  method AddSkill(entries: seq<(string, seq<string>)>, ghost added: seq<string>, collected: seq<string>,
                  normalized: string) returns (r: seq<string>)
    requires collected == Dedup(added)
    ensures r == Dedup(added + Gains(entries, normalized))
  {
    var direct := Lookup(normalized, entries).GetOr([]);
    r := AddEach(added, collected, direct);
    r := AddMatches(entries, added + direct, r, normalized);
    ghost var partial := Partial(normalized, entries);
    assert (added + direct) + partial == added + (direct + partial);
  }

  /** The set before any skill is processed: the defaults when no skill
      has been entered, empty otherwise. */
  method Start(currentSkills: seq<string>) returns (collected: seq<string>)
    ensures collected == Dedup(Base(currentSkills))
  {
    collected := [];
    if |currentSkills| == 0 {
      collected := AddEach([], collected, Defaults);
      assert [] + Defaults == Defaults;
    }
  }

  /** The set after every current skill has been processed. */
  method Collect(entries: seq<(string, seq<string>)>, currentSkills: seq<string>) returns (collected: seq<string>)
    ensures collected == Dedup(Added(entries, currentSkills))
  {
    collected := Start(currentSkills);
    ghost var base := Base(currentSkills);
    assert base + Contributions(entries, currentSkills[..0]) == base;
    for i := 0 to |currentSkills|
      invariant collected == Dedup(base + Contributions(entries, currentSkills[..i]))
    {
      collected := Step(entries, base, collected, currentSkills, i);
    }
    assert currentSkills[..|currentSkills|] == currentSkills;
  }

  /** One turn of the loop over the current skills. */
  method Step(entries: seq<(string, seq<string>)>, ghost base: seq<string>, collected: seq<string>,
              currentSkills: seq<string>, i: int) returns (r: seq<string>)
    requires 0 <= i < |currentSkills|
    requires collected == Dedup(base + Contributions(entries, currentSkills[..i]))
    ensures r == Dedup(base + Contributions(entries, currentSkills[..i + 1]))
  {
    ghost var done := Contributions(entries, currentSkills[..i]);
    var normalized := Normalised(currentSkills[i]);
    r := AddSkill(entries, base + done, collected, normalized);
    ContributionsSnoc(entries, currentSkills, i);
    Assoc(base, done, Gains(entries, normalized));
  }

  lemma ContributionsSnoc(entries: seq<(string, seq<string>)>, skills: seq<string>, i: int)
    requires 0 <= i < |skills|
    ensures Contributions(entries, skills[..i + 1])
         == Contributions(entries, skills[..i]) + Gains(entries, Normalised(skills[i]))
  {
    assert skills[..i + 1][..i] == skills[..i];
  }

  /** The effect that computes the suggestions. */
  method Suggest(entries: seq<(string, seq<string>)>, currentSkills: seq<string>) returns (suggestions: seq<string>)
    ensures suggestions == Suggestions(entries, currentSkills)
  {
    var collected := Collect(entries, currentSkills);
    var filtered := Unclaimed(collected, currentSkills);
    suggestions := Take(filtered, Limit);
  }

  /** `Array.from(collected).filter(...)`: the collected skills no current
      skill claims, in order. */
  method Unclaimed(collected: seq<string>, currentSkills: seq<string>) returns (filtered: seq<string>)
    ensures filtered == Filter(collected, UnclaimedBy(currentSkills))
  {
    filtered := [];
    for j := 0 to |collected|
      invariant filtered == Filter(collected[..j], UnclaimedBy(currentSkills))
    {
      assert collected[..j + 1] == collected[..j] + [collected[j]];
      FilterSnoc(collected[..j], collected[j], UnclaimedBy(currentSkills));
      if !Claimed(collected[j], currentSkills) {
        filtered := filtered + [collected[j]];
      }
    }
    assert collected[..|collected|] == collected;
  }

  /** With no skills entered the defaults are offered, all six in order. */
  lemma DefaultsWhenEmpty(entries: seq<(string, seq<string>)>)
    ensures Suggestions(entries, []) == Defaults
  {
    assert Added(entries, []) == Defaults;
    DedupDistinct(Defaults);
    FilterAll(Defaults, UnclaimedBy([]));
  }

  /** No suggestion equals a current skill, case ignored, and none is
      listed twice. */
  lemma SuggestionsAreNew(entries: seq<(string, seq<string>)>, skills: seq<string>)
    ensures var r := Suggestions(entries, skills);
      && Distinct(r)
      && forall s, i :: s in r && 0 <= i < |skills| ==> Lower(skills[i]) != Lower(s)
  {
    var f := Filter(Dedup(Added(entries, skills)), UnclaimedBy(skills));
    FilterPreservesDistinct(Dedup(Added(entries, skills)), UnclaimedBy(skills));
    forall s | s in Suggestions(entries, skills)
      ensures !Claimed(s, skills)
    {
      assert s in f;
    }
    forall s | s in Suggestions(entries, skills)
      ensures forall i :: 0 <= i < |skills| ==> Lower(skills[i]) != Lower(s)
    {
      ClaimedIff(s, skills);
    }
  }

  /** Suggestions keep the order in which they were first added. */
  lemma SuggestionsInInsertionOrder(entries: seq<(string, seq<string>)>, skills: seq<string>)
    ensures var r := Suggestions(entries, skills);
      forall i, j :: 0 <= i < j < |r| ==>
        IndexOf(Added(entries, skills), r[i]) < IndexOf(Added(entries, skills), r[j])
  {
    var raw := Added(entries, skills);
    var f := Filter(Dedup(raw), UnclaimedBy(skills));
    var r := Suggestions(entries, skills);
    assert r == Take(f, Limit);
    forall i, j | 0 <= i < j < |r|
      ensures IndexOf(raw, r[i]) < IndexOf(raw, r[j])
    {
      assert r[i] == f[i] && r[j] == f[j];
      FilterDedupInOrder(raw, UnclaimedBy(skills), i, j);
    }
  }

  /** The key of `entries` at `k` gives `s` to the skill `skill`. */
  predicate GivenBy(entries: seq<(string, seq<string>)>, k: int, skill: string, s: string)
  {
    && 0 <= k < |entries|
    && (entries[k].0 == Normalised(skill) || Matches(Normalised(skill), entries[k].0))
    && s in entries[k].1
  }

  /** Every suggestion is a default, offered only when no skill has been
      entered, or belongs to the list of a key that matches some current
      skill, lowercased and trimmed. */
  lemma SuggestionsFromMap(entries: seq<(string, seq<string>)>, skills: seq<string>, s: string)
    requires s in Suggestions(entries, skills)
    ensures (|skills| == 0 && s in Defaults)
      || exists i, k :: 0 <= i < |skills| && GivenBy(entries, k, skills[i], s)
  {
    assert s in Dedup(Added(entries, skills));
    if s !in Base(skills) {
      assert s in Contributions(entries, skills);
      ContributionsFrom(entries, skills, s);
    }
  }

  lemma {:induction false} ContributionsFrom(entries: seq<(string, seq<string>)>, skills: seq<string>, s: string)
    requires s in Contributions(entries, skills)
    ensures exists i, k :: 0 <= i < |skills| && GivenBy(entries, k, skills[i], s)
    decreases |skills|
  {
    var init, last := skills[..|skills| - 1], skills[|skills| - 1];
    if s in Contributions(entries, init) {
      ContributionsFrom(entries, init, s);
      var i, k :| 0 <= i < |init| && GivenBy(entries, k, init[i], s);
      assert init[i] == skills[i];
    } else {
      ContributionFrom(entries, last, s);
      var k :| GivenBy(entries, k, last, s);
      assert GivenBy(entries, k, skills[|skills| - 1], s);
    }
  }

  lemma ContributionFrom(entries: seq<(string, seq<string>)>, skill: string, s: string)
    requires s in Contribution(entries, skill)
    ensures exists k :: GivenBy(entries, k, skill, s)
  {
    var n := Normalised(skill);
    var direct := Lookup(n, entries);
    if s in direct.GetOr([]) {
      var k :| 0 <= k < |entries| && entries[k].0 == n && entries[k].1 == direct.value;
      assert GivenBy(entries, k, skill, s);
    } else {
      PartialFrom(n, entries, s);
      var k :| 0 <= k < |entries| && Matches(n, entries[k].0) && s in entries[k].1;
      assert GivenBy(entries, k, skill, s);
    }
  }

  lemma {:induction false} PartialFrom(n: string, entries: seq<(string, seq<string>)>, s: string)
    requires s in Partial(n, entries)
    ensures exists k :: 0 <= k < |entries| && Matches(n, entries[k].0) && s in entries[k].1
    decreases |entries|
  {
    var init := entries[..|entries| - 1];
    if s in Partial(n, init) {
      PartialFrom(n, init, s);
      var k :| 0 <= k < |init| && Matches(n, init[k].0) && s in init[k].1;
      assert entries[k] == init[k];
    } else {
      assert Matches(n, entries[|entries| - 1].0) && s in entries[|entries| - 1].1;
    }
  }

  /** An empty skill matches every key, since every key includes "". */
  lemma EmptySkillMatchesAll(key: string)
    ensures Matches(Normalised(""), key)
  {
    assert Normalised("") == "";
    assert key[..0] == "";
  }
}
