// The application header of client/src/components/Header.tsx: the avatar
// initials, the absent-user case and the two active-link tests.
module Header {
  import opened Wrappers
  import opened Seqs
  import opened JsText

  datatype User = User(name: string, email: string)

  /** What the header shows: the avatar initials, the name and email of
      the menu, and which navigation links are highlighted. */
  datatype HeaderView = HeaderView(initials: string, name: string, email: string,
                                   dashboardActive: bool, newResumeActive: bool)

  /** `n[0]`, which `join("")` writes as nothing for an empty part. */
  function FirstChar(part: string): (r: string)
    ensures |r| <= 1
    ensures part != "" ==> r == [part[0]]
  {
    if part == "" then "" else [part[0]]
  }

  /** `.map((n) => n[0]).join("")`. */
  function Heads(parts: seq<string>): string
    decreases |parts|
  {
    if parts == [] then "" else FirstChar(parts[0]) + Heads(parts[1..])
  }

  /** `name.split(" ").map((n) => n[0]).join("").toUpperCase().slice(0, 2)`. */
  function Initials(name: string): (r: string)
    ensures |r| <= 2
  {
    Take(Upper(Heads(Split(name, ' '))), 2)
  }

  /** The characters of `s` that begin a space-separated word: those that
      are not a space and come first or right after a space. `afterSpace`
      says whether the character before `s` was a space (or `s` is the start
      of the name). */
  function WordStarts(s: string, afterSpace: bool): (r: string)
    ensures forall ch :: ch in r ==> ch in s && ch != ' '
    decreases |s|
  {
    if s == [] then ""
    else (if afterSpace && s[0] != ' ' then [s[0]] else "") + WordStarts(s[1..], s[0] == ' ')
  }

  /** The initials are the first two word starts of the name, uppercased;
      the empty parts that repeated spaces leave contribute nothing. */
  lemma InitialsAreWordStarts(name: string)
    ensures Initials(name) == Take(Upper(WordStarts(name, true)), 2)
  {
    HeadsOfSplit(name);
  }

  lemma {:induction false} HeadsOfSplit(s: string)
    ensures Heads(Split(s, ' ')) == WordStarts(s, true)
    ensures Heads(Split(s, ' ')[1..]) == WordStarts(s, false)
    decreases |s|
  {
    if s != [] {
      var rest := Split(s[1..], ' ');
      HeadsOfSplit(s[1..]);
      if s[0] == ' ' {
        assert Split(s, ' ') == [""] + rest;
        assert Split(s, ' ')[1..] == rest;
      } else {
        var parts := Split(s, ' ');
        assert parts == [[s[0]] + rest[0]] + rest[1..];
        assert parts[1..] == rest[1..];
        assert FirstChar(parts[0]) == [s[0]];
      }
    }
  }

  /** An initial is the uppercase of a character of the name. */
  lemma InitialsFromName(name: string)
    ensures forall ch :: ch in Initials(name) ==> exists c :: c in name && c != ' ' && UpperChar(c) == ch
  {
    InitialsAreWordStarts(name);
    var w := WordStarts(name, true);
    forall ch | ch in Initials(name)
      ensures exists c :: c in name && c != ' ' && UpperChar(c) == ch
    {
      var i :| 0 <= i < |Initials(name)| && Initials(name)[i] == ch;
      assert Upper(w)[i] == ch;
      assert w[i] in w;
    }
  }

  /** "Dashboard" is highlighted on exactly "/dashboard". */
  predicate DashboardActive(location: string)
  {
    location == "/dashboard"
  }

  /** "New Resume" is highlighted on every location under "/builder". */
  predicate NewResumeActive(location: string)
  {
    StartsWith(location, "/builder")
  }

  /** `Header({ user })` at `location`: nothing without a user. */
  function Render(user: Option<User>, location: string): (r: Option<HeaderView>)
    ensures r.None? <==> user.None?
    ensures r.Some? ==>
      && r.value.initials == Initials(user.value.name)
      && r.value.name == user.value.name && r.value.email == user.value.email
      && (r.value.dashboardActive <==> location == "/dashboard")
      && (r.value.newResumeActive <==> |location| >= 8 && location[..8] == "/builder")
  {
    match user
    case None => None
    case Some(u) =>
      Some(HeaderView(Initials(u.name), u.name, u.email, DashboardActive(location), NewResumeActive(location)))
  }

  /** On the builder of an existing resume only "New Resume" is highlighted. */
  lemma BuilderHighlightsNewResume(user: User, id: string)
    ensures var v := Render(Some(user), "/builder/" + id).value;
      v.newResumeActive && !v.dashboardActive
  {
    var loc := "/builder/" + id;
    assert loc[..8] == "/builder";
    assert loc[1] == 'b';
  }
}
