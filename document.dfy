// The text content of a rendered resume, shared by the five templates
// (client/src/components/templates/*.tsx). A template is modelled as a
// function from the resume data to a `Doc`: the name line, the contact
// line and the sections in page order, each section a run of entries made
// of lines of text. CSS classes, icons and layout are not represented.
module Document {
  import opened Wrappers
  import opened Seqs
  import opened JsText
  import opened Schema

  /** The sections a template can show. */
  datatype Kind =
    | SummarySection
    | ExperienceSection
    | EducationSection
    | ProjectsSection
    | SkillsSection
    | CertificationsSection
    | LanguagesSection

  /** A run of text on the page. `Percent` is the percentage Minimal derives
      from a score and its scale with `parseFloat` and `toFixed(2)`, which
      the model keeps symbolic. */
  datatype Span =
    | Text(text: string)
    | Link(caption: string, href: string)
    | Percent(value: string, scale: string)

  /** A line of an entry: a row of spans, or one item of a bulleted list. */
  datatype Line = Row(spans: seq<Span>) | Bullet(item: string)

  datatype Entry = Entry(lines: seq<Line>)

  datatype Section = Section(kind: Kind, heading: string, entries: seq<Entry>)

  /** A rendered resume. `fontClass` is `None` for the templates whose font
      is fixed. */
  datatype Doc = Doc(fontClass: Option<string>, name: string, contact: seq<Span>, sections: seq<Section>)

  /** The kinds of the sections, in page order. */
  function Kinds(ss: seq<Section>): (r: seq<Kind>)
    ensures |r| == |ss|
    ensures forall i :: 0 <= i < |ss| ==> r[i] == ss[i].kind
  {
    Map(ss, SectionKind)
  }

  function SectionKind(s: Section): Kind
  {
    s.kind
  }

  /** The sections of the kinds in `order` that `wanted` accepts, built by
      `build`: a template's sequence of `cond && <section>` blocks. */
  function Select(order: seq<Kind>, wanted: Kind -> bool, build: Kind -> Section): (r: seq<Section>)
    decreases |order|
  {
    if order == [] then []
    else
      var k := order[|order| - 1];
      Select(order[..|order| - 1], wanted, build) + if wanted(k) then [build(k)] else []
  }

  /** The selected sections are exactly the wanted kinds, in template order;
      so a kind shows exactly when it is wanted, at most once, and the
      sections keep the order of `order`. */
  lemma {:induction false} SelectKinds(order: seq<Kind>, wanted: Kind -> bool, build: Kind -> Section)
    requires Distinct(order)
    requires forall k :: build(k).kind == k
    ensures var ks := Kinds(Select(order, wanted, build));
      && ks == Filter(order, wanted)
      && (forall k :: k in ks <==> k in order && wanted(k))
      && forall i, j :: 0 <= i < j < |ks| ==> IndexOf(order, ks[i]) < IndexOf(order, ks[j])
  {
    SelectFilter(order, wanted, build);
    FilterKeepsOrder(order, wanted);
  }

  lemma {:induction false} SelectFilter(order: seq<Kind>, wanted: Kind -> bool, build: Kind -> Section)
    requires forall k :: build(k).kind == k
    ensures Kinds(Select(order, wanted, build)) == Filter(order, wanted)
    decreases |order|
  {
    if order != [] {
      var init, k := order[..|order| - 1], order[|order| - 1];
      assert order == init + [k];
      SelectFilter(init, wanted, build);
      FilterSnoc(init, k, wanted);
      var a := Select(init, wanted, build);
      var b := if wanted(k) then [build(k)] else [];
      assert Kinds(a + b) == Kinds(a) + Kinds(b);
    }
  }

  /** Sections built from the same wanted kinds and the same section
      contents are the same. */
  lemma {:induction false} SelectSame(order: seq<Kind>, w1: Kind -> bool, b1: Kind -> Section, w2: Kind -> bool, b2: Kind -> Section)
    requires forall k :: k in order ==> w1(k) == w2(k) && b1(k) == b2(k)
    ensures Select(order, w1, b1) == Select(order, w2, b2)
    decreases |order|
  {
    if order != [] {
      SelectSame(order[..|order| - 1], w1, b1, w2, b2);
    }
  }

  /** The section of kind `k` among `ss`, when there is one. */
  function Find(ss: seq<Section>, k: Kind): (r: Option<Section>)
    ensures r.Some? <==> k in Kinds(ss)
    ensures r.Some? ==> r.value in ss && r.value.kind == k
    decreases |ss|
  {
    if ss == [] then None
    else if ss[0].kind == k then Some(ss[0])
    else
      assert Kinds(ss) == [ss[0].kind] + Kinds(ss[1..]);
      Find(ss[1..], k)
  }

  /** A selected section of kind `k` is the one `build` makes for `k`. */
  lemma {:induction false} SelectFinds(order: seq<Kind>, wanted: Kind -> bool, build: Kind -> Section, k: Kind)
    requires Distinct(order)
    requires forall k :: build(k).kind == k
    ensures var f := Find(Select(order, wanted, build), k);
      f.Some? <==> k in order && wanted(k)
    ensures var f := Find(Select(order, wanted, build), k);
      f.Some? ==> f.value == build(k)
  {
    SelectKinds(order, wanted, build);
    var f := Find(Select(order, wanted, build), k);
    if f.Some? {
      SelectFrom(order, wanted, build);
      var k' :| k' in order && f.value == build(k');
      assert k' == build(k').kind == k;
    }
  }

  lemma {:induction false} SelectFrom(order: seq<Kind>, wanted: Kind -> bool, build: Kind -> Section)
    ensures forall s :: s in Select(order, wanted, build) ==> exists k :: k in order && s == build(k)
    decreases |order|
  {
    if order != [] {
      var init, k := order[..|order| - 1], order[|order| - 1];
      SelectFrom(init, wanted, build);
      forall s | s in Select(order, wanted, build)
        ensures exists k :: k in order && s == build(k)
      {
        if s in Select(init, wanted, build) {
          var k' :| k' in init && s == build(k');
          assert k' in order;
        } else {
          assert s == build(k) && k in order;
        }
      }
    }
  }

  /** `fullName || "Your Name"`. */
  function DisplayName(fullName: string): (r: string)
    ensures r != ""
    ensures fullName != "" ==> r == fullName
    ensures fullName == "" ==> r == "Your Name"
  {
    if fullName == "" then "Your Name" else fullName
  }

  /** A contact item: the prefix a template puts before the value, and the
      value, shown only when non-empty. */
  datatype Field = Field(prefix: string, value: string)

  predicate HasValue(f: Field)
  {
    f.value != ""
  }

  function FieldSpan(f: Field): Span
  {
    Text(f.prefix + f.value)
  }

  /** A row of `{value && <span>{prefix}{value}</span>}` items. */
  function ContactLine(fields: seq<Field>): (r: seq<Span>)
    decreases |fields|
  {
    if fields == [] then []
    else
      var f := fields[|fields| - 1];
      ContactLine(fields[..|fields| - 1]) + if HasValue(f) then [FieldSpan(f)] else []
  }

  /** The contact row shows the non-empty fields, and only those, in the
      order given, each with its prefix. */
  lemma {:induction false} ContactLineShown(fields: seq<Field>)
    ensures ContactLine(fields) == Map(Filter(fields, HasValue), FieldSpan)
    decreases |fields|
  {
    if fields != [] {
      var init, f := fields[..|fields| - 1], fields[|fields| - 1];
      ContactLineShown(init);
      var a := Filter(init, HasValue);
      if HasValue(f) {
        assert Filter(fields, HasValue) == a + [f];
        MapSnoc(a, f, FieldSpan);
      } else {
        assert Filter(fields, HasValue) == a;
        assert ContactLine(fields) == ContactLine(init) + [];
      }
    }
  }

  /** The first field leads the row when it has a value. */
  lemma {:induction false} ContactLead(first: Field, rest: seq<Field>)
    ensures ContactLine([first] + rest) == (if HasValue(first) then [FieldSpan(first)] else []) + ContactLine(rest)
    decreases |rest|
  {
    if rest == [] {
      assert [first] + rest == [first];
      assert [first][..0] == [];
    } else {
      var init, f := rest[..|rest| - 1], rest[|rest| - 1];
      assert ([first] + rest)[..|[first] + rest| - 1] == [first] + init;
      ContactLead(first, init);
    }
  }

  /** Every field with a value is shown. */
  lemma {:induction false} ContactShows(fields: seq<Field>)
    ensures forall f :: f in fields && HasValue(f) ==> FieldSpan(f) in ContactLine(fields)
    decreases |fields|
  {
    if fields != [] {
      var init, g := fields[..|fields| - 1], fields[|fields| - 1];
      assert fields == init + [g];
      ContactShows(init);
    }
  }

  /** When every field carries `prefix`, every span shown is that prefix
      followed by a non-empty value. */
  lemma {:induction false} ContactPrefixed(fields: seq<Field>, prefix: string)
    requires forall f :: f in fields ==> f.prefix == prefix
    ensures forall x :: x in ContactLine(fields) ==>
      x.Text? && StartsWith(x.text, prefix) && |x.text| > |prefix|
    decreases |fields|
  {
    if fields != [] {
      var init, g := fields[..|fields| - 1], fields[|fields| - 1];
      assert fields == init + [g];
      ContactPrefixed(init, prefix);
    }
  }

  /** A contact row whose fields after the first share `prefix`: every
      item is non-empty text; a first field with a value leads the row;
      every other item starts with `prefix` and has a value after it; and
      every field with a value is shown. */
  lemma ContactRow(fields: seq<Field>, prefix: string)
    requires |fields| >= 1
    requires forall i :: 1 <= i < |fields| ==> fields[i].prefix == prefix
    ensures var r := ContactLine(fields);
      && (forall x :: x in r ==> x.Text? && x.text != "")
      && (HasValue(fields[0]) ==> |r| > 0 && r[0] == FieldSpan(fields[0]))
      && (forall i :: 0 <= i < |r| && (i > 0 || !HasValue(fields[0])) ==>
            r[i].Text? && StartsWith(r[i].text, prefix) && |r[i].text| > |prefix|)
      && (forall i :: 0 <= i < |fields| && HasValue(fields[i]) ==> FieldSpan(fields[i]) in r)
  {
    var lead, rest := fields[0], fields[1..];
    assert fields == [lead] + rest;
    ContactLead(lead, rest);
    ContactPrefixed(rest, prefix);
    ContactShows(fields);
    ContactNonEmpty(fields);
    var r, tail := ContactLine(fields), ContactLine(rest);
    forall i | 0 <= i < |r| && (i > 0 || !HasValue(lead))
      ensures r[i].Text? && StartsWith(r[i].text, prefix) && |r[i].text| > |prefix|
    {
      if HasValue(lead) {
        assert r[i] == tail[i - 1];
      } else {
        assert r[i] == tail[i];
      }
    }
    forall i | 0 <= i < |fields| && HasValue(fields[i])
      ensures FieldSpan(fields[i]) in r
    {
      assert fields[i] in fields;
    }
  }

  /** Every item of a contact row is non-empty text. */
  lemma {:induction false} ContactNonEmpty(fields: seq<Field>)
    ensures forall x :: x in ContactLine(fields) ==> x.Text? && x.text != ""
    decreases |fields|
  {
    if fields != [] {
      ContactNonEmpty(fields[..|fields| - 1]);
    }
  }

  /** The text of an optional contact value: JavaScript renders a missing
      value as nothing. */
  function Value(o: Option<string>): string
  {
    OrEmpty(o)
  }

  /** `{start} – {current ? "Present" : end}`, with the template's own
      separator between the dates. */
  function DateRange(e: Experience, sep: string): (r: string)
    ensures StartsWith(r, e.startDate + sep)
  {
    e.startDate + sep + if IsSet(e.current) then "Present" else e.endDate
  }

  /** A current position ends in "Present" whatever its end date holds; any
      other shows its end date. */
  lemma DateRangePresent(e: Experience, sep: string, otherEnd: string)
    ensures IsSet(e.current) ==>
      DateRange(e, sep) == e.startDate + sep + "Present"
      && DateRange(e.(endDate := otherEnd), sep) == DateRange(e, sep)
    ensures !IsSet(e.current) ==> DateRange(e, sep) == e.startDate + sep + e.endDate
  {
  }

  /** " – ", the separator of Classic, Modern and the ATS templates. */
  const EnDash: string := " – "

  /** " - ", Minimal's separator. */
  const Hyphen: string := " - "

  /** An experience's bullets as list items, in order. */
  function Bullets(items: seq<string>): (r: seq<Line>)
    ensures |r| == |items|
    ensures forall i :: 0 <= i < |items| ==> r[i] == Bullet(items[i])
  {
    Map(items, ToBullet)
  }

  function ToBullet(item: string): Line
  {
    Bullet(item)
  }

  /** A row with one text span. */
  function TextRow(text: string): Line
  {
    Row([Text(text)])
  }

  /** `{cond && <p>{text}</p>}`: the line when the value is set. */
  function OptionalRow(o: Option<string>, prefix: string): (r: seq<Line>)
    ensures Truthy(o) ==> r == [TextRow(prefix + o.value)]
    ensures !Truthy(o) ==> r == []
  {
    if Truthy(o) then [TextRow(prefix + o.value)] else []
  }

  /** A skill group as "category: item, item". */
  function SkillLine(g: SkillGroup): string
  {
    g.category + ": " + Join(g.items, ", ")
  }

  /** The one-row entries of a skills section. */
  function SkillEntry(g: SkillGroup): Entry
  {
    Entry([TextRow(SkillLine(g))])
  }

  /** Whether the resume has something for a section: a truthy summary or a
      non-empty collection. */
  predicate HasContent(d: ResumeData, k: Kind)
  {
    match k
    case SummarySection => Truthy(d.summary)
    case ExperienceSection => |d.experience| > 0
    case EducationSection => |d.education| > 0
    case ProjectsSection => |d.projects| > 0
    case SkillsSection => |d.skills| > 0
    case CertificationsSection => |d.certifications| > 0
    case LanguagesSection => |d.languages| > 0
  }

  function ContentOf(d: ResumeData): Kind -> bool
  {
    k => HasContent(d, k)
  }

  /** `{degree} in {field}`. */
  function Degree(e: Education): string
  {
    e.degree + " in " + e.field
  }

  /** `{startDate} – {endDate}` of a study, with the template's separator. */
  function Period(e: Education, sep: string): string
  {
    e.startDate + sep + e.endDate
  }

  /** A position: title and dates, the company, then the bullets. All five
      templates lay an experience out this way; they differ in the date
      separator. */
  function ExperienceEntry(e: Experience, sep: string): (r: Entry)
    ensures |r.lines| == 2 + |e.bullets|
    ensures r.lines[0] == Row([Text(e.position), Text(DateRange(e, sep))])
    ensures r.lines[1] == TextRow(e.company)
    ensures forall i :: 0 <= i < |e.bullets| ==> r.lines[2 + i] == Bullet(e.bullets[i])
  {
    Entry([Row([Text(e.position), Text(DateRange(e, sep))]), TextRow(e.company)] + Bullets(e.bullets))
  }

  /** The entries of an experience section, one per position in the order
      given. */
  function ExperienceEntries(es: seq<Experience>, sep: string): (r: seq<Entry>)
    ensures |r| == |es|
    ensures forall i :: 0 <= i < |es| ==> r[i] == ExperienceEntry(es[i], sep)
    decreases |es|
  {
    if es == [] then [] else ExperienceEntries(es[..|es| - 1], sep) + [ExperienceEntry(es[|es| - 1], sep)]
  }

  /** The entries of a skills section, one row per group. */
  function SkillEntries(gs: seq<SkillGroup>): (r: seq<Entry>)
    ensures |r| == |gs|
    ensures forall i :: 0 <= i < |gs| ==> r[i] == Entry([TextRow(gs[i].category + ": " + Join(gs[i].items, ", "))])
  {
    Map(gs, SkillEntry)
  }
}
