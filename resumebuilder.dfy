// The save and export handlers of client/src/pages/ResumeBuilder.tsx:
// phone and score validation, the payload sent to the server, the
// message shown for a failed save, the download name and the template
// chosen on load. `parseFloat` and `JSON.parse` are parameters.
module ResumeBuilder {
  import opened Wrappers
  import opened Seqs
  import opened JsText
  import opened JsNumbers
  import opened Schema
  import Document
  import Classic
  import Modern
  import Minimal

  // ---------------------------------------------------------------------
  // Phone numbers

  predicate NotWhitespace(c: char) { !IsWhitespace(c) }
  predicate NotDashOrWhitespace(c: char) { c != '-' && !IsWhitespace(c) }

  /** No dash and no whitespace left. */
  predicate Stripped(s: string)
  {
    forall i :: 0 <= i < |s| ==> NotDashOrWhitespace(s[i])
  }

  /** `s.replace(/\s/g, '')`. */
  function RemoveWhitespace(s: string): (r: string)
    ensures forall i :: 0 <= i < |r| ==> !IsWhitespace(r[i])
  {
    Filter(s, NotWhitespace)
  }

  /** `s.replace(/[\-\s]/g, '')`. */
  function RemoveDashesAndWhitespace(s: string): (r: string)
    ensures Stripped(r)
  {
    Filter(s, NotDashOrWhitespace)
  }

  /** `[6-9]\d{9}`: a ten-digit Indian mobile number. */
  predicate IsMobile(m: string)
  {
    |m| == 10 && '6' <= m[0] <= '9' && forall i :: 0 <= i < 10 ==> IsDigit(m[i])
  }

  /** `/^(\+91[\-\s]?|0)?[6-9]\d{9}$/.test(s)`, one disjunct per way the
      optional prefix can match. */
  predicate PhonePattern(s: string)
  {
    || IsMobile(s)
    || (StartsWith(s, "0") && IsMobile(s[1..]))
    || (StartsWith(s, "+91") && IsMobile(s[3..]))
    || (StartsWith(s, "+91") && |s| > 3 && (s[3] == '-' || IsWhitespace(s[3])) && IsMobile(s[4..]))
  }

  /** The save-time phone check: an empty phone is not checked; any other
      must match the pattern once its whitespace is removed. */
  predicate PhoneAccepted(phone: string)
  {
    phone == "" || PhonePattern(RemoveWhitespace(phone))
  }

  /** `s.replace(/^(\+91|0)?/, "+91")`: the pattern may match the empty
      prefix, so "+91" is always put in front. */
  function PrefixCountryCode(s: string): (r: string)
    ensures StartsWith(r, "+91") && r == "+91" + r[3..]
    ensures StartsWith(s, "+91") ==> r == s
    ensures !StartsWith(s, "+91") && StartsWith(s, "0") ==> r[3..] == s[1..]
    ensures !StartsWith(s, "+91") && !StartsWith(s, "0") ==> r[3..] == s
  {
    if StartsWith(s, "+91") then "+91" + s[3..]
    else if StartsWith(s, "0") then "+91" + s[1..]
    else "+91" + s
  }

  lemma StrippedFixed(s: string)
    requires Stripped(s)
    ensures RemoveWhitespace(s) == s && RemoveDashesAndWhitespace(s) == s
  {
    FilterAll(s, NotWhitespace);
    FilterAll(s, NotDashOrWhitespace);
  }

  lemma StrippedConcat(a: string, b: string)
    requires Stripped(a) && Stripped(b)
    ensures Stripped(a + b)
  {
    forall i | 0 <= i < |a + b| ensures NotDashOrWhitespace((a + b)[i]) {
      if i < |a| { assert (a + b)[i] == a[i]; } else { assert (a + b)[i] == b[i - |a|]; }
    }
  }

  lemma MobileStripped(m: string)
    requires IsMobile(m)
    ensures Stripped(m)
  {
  }

  /** Both replacements distribute over concatenation. */
  lemma StripConcat(a: string, b: string)
    ensures RemoveWhitespace(a + b) == RemoveWhitespace(a) + RemoveWhitespace(b)
    ensures RemoveDashesAndWhitespace(a + b) == RemoveDashesAndWhitespace(a) + RemoveDashesAndWhitespace(b)
  {
    FilterConcat(a, b, NotWhitespace);
    FilterConcat(a, b, NotDashOrWhitespace);
  }

  /** The replacements on the short strings the phone prefix can be. */
  lemma PrefixesStripped()
    ensures RemoveDashesAndWhitespace("") == ""
    ensures RemoveDashesAndWhitespace("0") == "0" && RemoveWhitespace("0") == "0"
    ensures RemoveDashesAndWhitespace("+91") == "+91" && RemoveWhitespace("+91") == "+91"
    ensures RemoveDashesAndWhitespace("-") == "" && RemoveWhitespace(" ") == ""
  {
    assert Stripped("0") && Stripped("+91");
    StrippedFixed("0");
    StrippedFixed("+91");
    FilterSnoc([], '-', NotDashOrWhitespace);
    FilterSnoc([], ' ', NotWhitespace);
    assert [] + ['-'] == "-" && [] + [' '] == " ";
  }

  lemma CountryCodeKept(rest: string)
    ensures RemoveDashesAndWhitespace("+91" + rest) == "+91" + RemoveDashesAndWhitespace(rest)
  {
    StripConcat("+91", rest);
    PrefixesStripped();
  }

  /** The phone normaliser as written: the country-code replacement runs on
      the raw input, before the whitespace is removed. */
  function NormalisePhoneAsWritten(phone: string): (r: string)
    ensures StartsWith(r, "+91") && Stripped(r)
  {
    var p := PrefixCountryCode(phone);
    CountryCodeKept(p[3..]);
    RemoveDashesAndWhitespace(p)
  }

  /** As written, an empty phone (which the check lets through) is saved as
      "+91", which the check then refuses. */
  lemma EmptyPhoneAsWritten()
    ensures PhoneAccepted("")
    ensures NormalisePhoneAsWritten("") == "+91"
    ensures !PhoneAccepted(NormalisePhoneAsWritten(""))
  {
    assert PrefixCountryCode("") == "+91";
    assert RemoveDashesAndWhitespace("+91") == "+91" && RemoveWhitespace("+91") == "+91" by {
      PrefixesStripped();
    }
    ShortRefused("+91");
  }

  /** Fewer than ten characters never match the pattern. */
  lemma ShortRefused(s: string)
    requires |s| < 10
    ensures !PhonePattern(s)
  {
  }

  lemma DoubledCodeRefused(m: string)
    requires IsMobile(m)
    ensures !PhoneAccepted("+91+91" + m)
  {
    var bad := "+91+91" + m;
    assert Stripped("+91+91");
    MobileStripped(m);
    StrippedConcat("+91+91", m);
    StrippedFixed(bad);
    assert |bad| == 16 && bad[0] == '+';
  }

  lemma SpacedCode(m: string)
    ensures " +91" + m == [' '] + ("+91" + m)
    ensures "+91" + ([' '] + ("+91" + m)) == "+91" + [' '] + ("+91" + m)
    ensures "+91" + ("+91" + m) == "+91+91" + m
  {
  }

  /** As written, a space in front of the country code hides the code from
      the replacement, which then doubles it: " +91" followed by any mobile
      number passes the check, and what is saved does not. */
  lemma LeadingSpaceAsWritten(m: string)
    requires IsMobile(m)
    ensures PhoneAccepted(" +91" + m)
    ensures NormalisePhoneAsWritten(" +91" + m) == "+91+91" + m
    ensures !PhoneAccepted(NormalisePhoneAsWritten(" +91" + m))
  {
    var code := "+91" + m;
    var raw := [' '] + code;
    SpacedCode(m);
    assert RemoveWhitespace(raw) == code && RemoveDashesAndWhitespace(raw) == code by {
      PrefixesStripped();
      MobileStripped(m);
      StrippedConcat("+91", m);
      StrippedFixed(code);
      StripConcat([' '], code);
    }
    assert PhonePattern(code) by {
      assert code[..3] == "+91" && code[3..] == m;
    }
    assert NormalisePhoneAsWritten(raw) == "+91" + code by {
      assert raw[0] == ' ';
      assert !StartsWith(raw, "+91") && !StartsWith(raw, "0") by {
        assert raw[..3][0] == ' ' && raw[..1][0] == ' ';
      }
      assert PrefixCountryCode(raw) == "+91" + raw;
      CountryCodeKept(raw);
    }
    DoubledCodeRefused(m);
  }

  /** What the phone check leaves once whitespace is gone: one of four
      prefixes, then a mobile number. */
  predicate PhonePrefix(q: string)
  {
    q == "" || q == "0" || q == "+91" || q == "+91-"
  }

  /** A pattern match on a string without whitespace splits into a prefix
      and the last ten characters. */
  lemma PatternShape(w: string)
    requires PhonePattern(w)
    requires forall i :: 0 <= i < |w| ==> !IsWhitespace(w[i])
    ensures |w| >= 10 && PhonePrefix(w[..|w| - 10]) && IsMobile(w[|w| - 10..])
    ensures w == w[..|w| - 10] + w[|w| - 10..]
  {
    if IsMobile(w) {
      assert w[..0] == "";
    } else if StartsWith(w, "0") && IsMobile(w[1..]) {
      assert w[..1] == "0";
    } else if StartsWith(w, "+91") && IsMobile(w[3..]) {
      assert w[..3] == "+91";
    } else {
      assert w[..3] == "+91" && w[3] == '-';
      assert w[..4] == "+91-";
    }
  }

  lemma ShapeFromEmpty(m: string)
    requires IsMobile(m)
    ensures RemoveDashesAndWhitespace(m) == m && PrefixCountryCode(m) == "+91" + m
  {
    MobileStripped(m);
    StrippedFixed(m);
  }

  lemma ShapeFromZero(m: string)
    requires IsMobile(m)
    ensures RemoveDashesAndWhitespace("0" + m) == "0" + m && PrefixCountryCode("0" + m) == "+91" + m
  {
    var z := "0" + m;
    assert RemoveDashesAndWhitespace(z) == z by {
      MobileStripped(m);
      StrippedFixed(m);
      StripConcat("0", m);
      PrefixesStripped();
    }
    assert z[1..] == m;
    assert !StartsWith(z, "+91") by {
      assert z[..3][0] == '0';
    }
    assert StartsWith(z, "0") by {
      assert z[..1] == "0";
    }
  }

  lemma ShapeFromCode(m: string)
    requires IsMobile(m)
    ensures RemoveDashesAndWhitespace("+91" + m) == "+91" + m && PrefixCountryCode("+91" + m) == "+91" + m
  {
    MobileStripped(m);
    StrippedFixed(m);
    CountryCodeKept(m);
    assert ("+91" + m)[..3] == "+91";
  }

  lemma ShapeFromCodeDash(m: string)
    requires IsMobile(m)
    ensures RemoveDashesAndWhitespace("+91-" + m) == "+91" + m && PrefixCountryCode("+91-" + m) == "+91-" + m
  {
    assert RemoveDashesAndWhitespace("-" + m) == m by {
      MobileStripped(m);
      StrippedFixed(m);
      StripConcat("-", m);
      PrefixesStripped();
    }
    assert "+91-" + m == "+91" + ("-" + m);
    CountryCodeKept("-" + m);
    assert ("+91-" + m)[..3] == "+91";
  }

  /** Both normalisers give "+91" and the mobile number on every shape the
      check accepts without whitespace. */
  lemma ShapeNormalised(q: string, m: string)
    requires PhonePrefix(q) && IsMobile(m)
    ensures NormalisePhone(q + m) == "+91" + m
    ensures NormalisePhoneAsWritten(q + m) == "+91" + m
  {
    MobileStripped(m);
    StrippedFixed(m);
    if q == "" {
      assert q + m == m;
      ShapeFromEmpty(m);
      CountryCodeKept(m);
    } else if q == "0" {
      ShapeFromZero(m);
      CountryCodeKept(m);
    } else if q == "+91" {
      ShapeFromCode(m);
    } else {
      ShapeFromCodeDash(m);
      ShapeFromCode(m);
    }
  }

  /** The normaliser as intended: dashes and whitespace removed first, an
      empty phone kept empty, and then "+91" in place of a leading "+91" or
      "0". On an accepted phone the result is "+91" and the mobile number. */
  function NormalisePhone(phone: string): (r: string)
    ensures phone == "" ==> r == ""
    ensures Stripped(r)
  {
    var s := RemoveDashesAndWhitespace(phone);
    if s == "" then "" else PrefixStaysStripped(s); PrefixCountryCode(s)
  }

  lemma PrefixStaysStripped(s: string)
    requires Stripped(s)
    ensures Stripped(PrefixCountryCode(s))
  {
    var r := PrefixCountryCode(s);
    PrefixesStripped();
    assert Stripped("+91");
    assert Stripped(r[3..]) by {
      if StartsWith(s, "+91") {
        assert r[3..] == s[3..];
      } else if StartsWith(s, "0") {
        assert r[3..] == s[1..];
      }
    }
    StrippedConcat("+91", r[3..]);
  }

  /** An accepted non-empty phone normalises to "+91" and the mobile number
      it ends in, and the result passes the check again. */
  lemma NormalisePhoneAccepted(phone: string)
    requires phone != "" && PhoneAccepted(phone)
    ensures var w := RemoveWhitespace(phone);
      |w| >= 10 && NormalisePhone(phone) == "+91" + w[|w| - 10..]
    ensures StartsWith(NormalisePhone(phone), "+91") && IsMobile(NormalisePhone(phone)[3..])
    ensures PhoneAccepted(NormalisePhone(phone))
  {
    var w := RemoveWhitespace(phone);
    PatternShape(w);
    var q, m := w[..|w| - 10], w[|w| - 10..];
    assert RemoveDashesAndWhitespace(phone) == RemoveDashesAndWhitespace(q + m) by {
      FilterFilter(phone, NotWhitespace, NotDashOrWhitespace, NotDashOrWhitespace);
    }
    assert NormalisePhone(phone) == "+91" + m by {
      ShapeNormalised(q, m);
    }
    var r := "+91" + m;
    assert r[..3] == "+91" && r[3..] == m;
    PlusNinetyOneAccepted(r);
  }

  /** "+91" followed by a mobile number passes the check and is left alone
      by the replacements. */
  lemma PlusNinetyOneAccepted(r: string)
    requires StartsWith(r, "+91") && IsMobile(r[3..])
    ensures PhoneAccepted(r) && Stripped(r)
  {
    assert r == "+91" + r[3..];
    MobileStripped(r[3..]);
    assert Stripped("+91");
    StrippedConcat("+91", r[3..]);
    StrippedFixed(r);
  }

  /** The corrected normaliser keeps accepted phones accepted, and
      normalising twice is normalising once. */
  lemma NormalisePhoneIdempotent(phone: string)
    requires PhoneAccepted(phone)
    ensures PhoneAccepted(NormalisePhone(phone))
    ensures NormalisePhone(NormalisePhone(phone)) == NormalisePhone(phone)
  {
    if phone != "" {
      NormalisePhoneAccepted(phone);
      var r := NormalisePhone(phone);
      StrippedFixed(r);
      assert r[..3] == "+91";
    } else {
      assert RemoveDashesAndWhitespace("") == "";
    }
  }

  /** On non-empty input with no whitespace the two normalisers agree: the
      defect is confined to the empty phone and to whitespace. */
  lemma NormalisersAgreeWithoutWhitespace(phone: string)
    requires phone != "" && PhoneAccepted(phone)
    requires forall i :: 0 <= i < |phone| ==> !IsWhitespace(phone[i])
    ensures NormalisePhoneAsWritten(phone) == NormalisePhone(phone)
  {
    FilterAll(phone, NotWhitespace);
    assert RemoveWhitespace(phone) == phone;
    PatternShape(phone);
    ShapeNormalised(phone[..|phone| - 10], phone[|phone| - 10..]);
  }

  // ---------------------------------------------------------------------
  // Score ranges

  datatype ScoreProblem =
    | InvalidCgpa(institution: string, scale: JsNumber)
    | InvalidPercentage(institution: string)

  /** `o || d` on an optional string. */
  function ValueOr(o: Option<string>, d: string): (r: string)
    ensures Truthy(o) ==> r == o.value
    ensures !Truthy(o) ==> r == d
  {
    if Truthy(o) then o.value else d
  }

  /** The check of one education entry. A missing value reads as "0" and a
      missing scale as "10"; a value that does not parse (NaN) passes,
      since every comparison with NaN is false. */
  function ScoreCheck(e: Education, parse: string -> JsNumber): (r: Option<ScoreProblem>)
    ensures e.scoreType != Some("CGPA") && e.scoreType != Some("Percentage") ==> r.None?
    ensures e.scoreType == Some("CGPA") ==>
              var v, s := parse(ValueOr(e.scoreValue, "0")), parse(ValueOr(e.scoreScale, "10"));
              (v.Finite? && s.Finite? ==> (r.None? <==> 0.0 <= v.value <= s.value))
              && (v.NaN? ==> r.None?)
              && (r.Some? ==> r == Some(InvalidCgpa(e.institution, s)))
    ensures e.scoreType == Some("Percentage") ==>
              var v := parse(ValueOr(e.scoreValue, "0"));
              (v.Finite? ==> (r.None? <==> 0.0 <= v.value <= 100.0))
              && (v.NaN? ==> r.None?)
              && (r.Some? ==> r == Some(InvalidPercentage(e.institution)))
  {
    if e.scoreType == Some("CGPA") then
      var v := parse(ValueOr(e.scoreValue, "0"));
      var scale := parse(ValueOr(e.scoreScale, "10"));
      if Lt(v, Finite(0.0)) || Gt(v, scale) then Some(InvalidCgpa(e.institution, scale)) else None
    else if e.scoreType == Some("Percentage") then
      var v := parse(ValueOr(e.scoreValue, "0"));
      if Lt(v, Finite(0.0)) || Gt(v, Finite(100.0)) then Some(InvalidPercentage(e.institution)) else None
    else None
  }

  /** The loop over the education entries: the first failing entry stops
      the save. */
  method ValidateScores(education: seq<Education>, parse: string -> JsNumber) returns (problem: Option<ScoreProblem>)
    ensures problem.None? <==> forall i :: 0 <= i < |education| ==> ScoreCheck(education[i], parse).None?
    ensures problem.Some? ==>
              exists i :: 0 <= i < |education| && problem == ScoreCheck(education[i], parse)
                          && forall j :: 0 <= j < i ==> ScoreCheck(education[j], parse).None?
  {
    for i := 0 to |education|
      invariant forall j :: 0 <= j < i ==> ScoreCheck(education[j], parse).None?
    {
      var e := education[i];
      if e.scoreType == Some("CGPA") {
        var v := parse(ValueOr(e.scoreValue, "0"));
        var scale := parse(ValueOr(e.scoreScale, "10"));
        if Lt(v, Finite(0.0)) || Gt(v, scale) {
          return Some(InvalidCgpa(e.institution, scale));
        }
      } else if e.scoreType == Some("Percentage") {
        var v := parse(ValueOr(e.scoreValue, "0"));
        if Lt(v, Finite(0.0)) || Gt(v, Finite(100.0)) {
          return Some(InvalidPercentage(e.institution));
        }
      }
    }
    return None;
  }

  // ---------------------------------------------------------------------
  // The save request

  datatype SavePayload = SavePayload(title: string, template: string, font: string, data: ResumeData)

  datatype SaveOutcome =
    | PhoneRejected
    | ScoreRejected(problem: ScoreProblem)
    | Send(verb: string, url: string, payload: SavePayload)

  /** `params?.id` in a template string: a missing id prints "undefined". */
  function RouteIdText(routeId: Option<string>): string
  {
    match routeId
    case Some(id) => id
    case None => "undefined"
  }

  /** The data `handleSave` sends: the phone through the normaliser as
      written, and no experience for a fresher. */
  function PayloadDataAsWritten(d: ResumeData): (r: ResumeData)
    ensures r.personal.phone == NormalisePhoneAsWritten(d.personal.phone)
    ensures StartsWith(r.personal.phone, "+91") && Stripped(r.personal.phone)
    ensures d.personal.phone == "" ==> r.personal.phone == "+91"
    ensures IsSet(d.personal.isFresher) ==> r.experience == []
    ensures !IsSet(d.personal.isFresher) ==> r.experience == d.experience
    ensures r.personal.(phone := d.personal.phone) == d.personal
    ensures r.(personal := d.personal, experience := d.experience) == d
  {
    EmptyPhoneAsWritten();
    d.(personal := d.personal.(phone := NormalisePhoneAsWritten(d.personal.phone)),
       experience := if IsSet(d.personal.isFresher) then [] else d.experience)
  }

  /** The normaliser as written leaves its own output alone: a phone that
      starts with "+91" and holds no dash or whitespace is a fixed point. */
  lemma NormaliseAsWrittenFixed(p: string)
    requires StartsWith(p, "+91") && Stripped(p)
    ensures NormalisePhoneAsWritten(p) == p
  {
    assert PrefixCountryCode(p) == p;
    StrippedFixed(p);
  }

  /** Saving what was just sent sends the same data again, whatever the
      phone was. */
  lemma PayloadIdempotentAsWritten(d: ResumeData)
    ensures PayloadDataAsWritten(PayloadDataAsWritten(d)) == PayloadDataAsWritten(d)
  {
    NormaliseAsWrittenFixed(PayloadDataAsWritten(d).personal.phone);
  }

  /** The payload with the corrected normaliser: an empty phone stays
      empty and whitespace never yields a second country code. */
  function PayloadData(d: ResumeData): (r: ResumeData)
    ensures r.personal.phone == NormalisePhone(d.personal.phone)
    ensures IsSet(d.personal.isFresher) ==> r.experience == []
    ensures !IsSet(d.personal.isFresher) ==> r.experience == d.experience
    ensures r.personal.(phone := d.personal.phone) == d.personal
    ensures r.(personal := d.personal, experience := d.experience) == d
  {
    d.(personal := d.personal.(phone := NormalisePhone(d.personal.phone)),
       experience := if IsSet(d.personal.isFresher) then [] else d.experience)
  }

  /** With the corrected normaliser, saving what was just saved sends the
      same data again for every phone the check accepts. */
  lemma PayloadIdempotent(d: ResumeData)
    requires PhoneAccepted(d.personal.phone)
    ensures PayloadData(PayloadData(d)) == PayloadData(d)
  {
    NormalisePhoneIdempotent(d.personal.phone);
  }

  /** The two payloads differ only for the empty phone and for phones with
      whitespace. */
  lemma PayloadsAgree(d: ResumeData)
    requires d.personal.phone != "" && PhoneAccepted(d.personal.phone)
    requires forall i :: 0 <= i < |d.personal.phone| ==> !IsWhitespace(d.personal.phone[i])
    ensures PayloadDataAsWritten(d) == PayloadData(d)
  {
    NormalisersAgreeWithoutWhitespace(d.personal.phone);
  }

  /** `handleSave` up to the request: the phone check, then the score
      checks in entry order, then a POST for a new resume or a PATCH. */
  method HandleSaveAsWritten(routeId: Option<string>, title: string, template: string, font: string,
                             d: ResumeData, parse: string -> JsNumber) returns (outcome: SaveOutcome)
    ensures outcome == PhoneRejected <==> !PhoneAccepted(d.personal.phone)
    ensures outcome.ScoreRejected? ==>
              PhoneAccepted(d.personal.phone)
              && exists i :: 0 <= i < |d.education| && Some(outcome.problem) == ScoreCheck(d.education[i], parse)
                             && forall j :: 0 <= j < i ==> ScoreCheck(d.education[j], parse).None?
    ensures outcome.Send? <==>
              PhoneAccepted(d.personal.phone)
              && forall i :: 0 <= i < |d.education| ==> ScoreCheck(d.education[i], parse).None?
    ensures outcome.Send? ==>
              && outcome.payload == SavePayload(title, template, font, PayloadDataAsWritten(d))
              && (routeId == Some("new") ==> outcome.verb == "POST" && outcome.url == "/api/resumes")
              && (routeId != Some("new") ==> outcome.verb == "PATCH" && outcome.url == "/api/resumes/" + RouteIdText(routeId))
  {
    if d.personal.phone != "" && !PhonePattern(RemoveWhitespace(d.personal.phone)) {
      return PhoneRejected;
    }
    var problem := ValidateScores(d.education, parse);
    if problem.Some? {
      return ScoreRejected(problem.value);
    }
    var isNew := routeId == Some("new");
    var url := if isNew then "/api/resumes" else "/api/resumes/" + RouteIdText(routeId);
    var verb := if isNew then "POST" else "PATCH";
    outcome := Send(verb, url, SavePayload(title, template, font, PayloadDataAsWritten(d)));
  }

  /** The save with the corrected payload: the same checks and request,
      and every phone it sends passes the check again. */
  method HandleSave(routeId: Option<string>, title: string, template: string, font: string,
                    d: ResumeData, parse: string -> JsNumber) returns (outcome: SaveOutcome)
    ensures outcome == PhoneRejected <==> !PhoneAccepted(d.personal.phone)
    ensures outcome.ScoreRejected? ==>
              PhoneAccepted(d.personal.phone)
              && exists i :: 0 <= i < |d.education| && Some(outcome.problem) == ScoreCheck(d.education[i], parse)
                             && forall j :: 0 <= j < i ==> ScoreCheck(d.education[j], parse).None?
    ensures outcome.Send? <==>
              PhoneAccepted(d.personal.phone)
              && forall i :: 0 <= i < |d.education| ==> ScoreCheck(d.education[i], parse).None?
    ensures outcome.Send? ==>
              && outcome.payload == SavePayload(title, template, font, PayloadData(d))
              && PhoneAccepted(outcome.payload.data.personal.phone)
              && (routeId == Some("new") ==> outcome.verb == "POST" && outcome.url == "/api/resumes")
              && (routeId != Some("new") ==> outcome.verb == "PATCH" && outcome.url == "/api/resumes/" + RouteIdText(routeId))
  {
    outcome := HandleSaveAsWritten(routeId, title, template, font, d, parse);
    if outcome.Send? {
      NormalisePhoneIdempotent(d.personal.phone);
      outcome := outcome.(payload := SavePayload(title, template, font, PayloadData(d)));
    }
  }

  // ---------------------------------------------------------------------
  // The message of a failed save

  datatype FieldError = FieldError(path: seq<PathSegment>, message: string)

  function SegmentText(p: PathSegment): (r: string)
    ensures p.Key? ==> r == p.name
    ensures p.Index? ==> r != "" && forall i :: 0 <= i < |r| ==> IsDigit(r[i])
  {
    match p
    case Key(name) => name
    case Index(position) => NatToString(position)
  }

  /** `e.path.join('.') + ": " + e.message`. */
  function FieldErrorLine(e: FieldError): string
  {
    Join(seq(|e.path|, i requires 0 <= i < |e.path| => SegmentText(e.path[i])), ".") + ": " + e.message
  }

  function FieldErrorLines(errors: seq<FieldError>): (r: seq<string>)
    ensures |r| == |errors| && forall i :: 0 <= i < |errors| ==> r[i] == FieldErrorLine(errors[i])
  {
    seq(|errors|, i requires 0 <= i < |errors| => FieldErrorLine(errors[i]))
  }

  /** The messages of a server validation failure, one line each. */
  function FormatFieldErrors(errors: seq<FieldError>): (r: string)
  {
    Join(FieldErrorLines(errors), "\n")
  }

  /** Splitting the message at newlines gives back one line per error, as
      long as no key or message holds a newline itself. */
  lemma FieldErrorsOnePerLine(errors: seq<FieldError>)
    requires |errors| >= 1
    requires forall i :: 0 <= i < |errors| ==> '\n' !in FieldErrorLine(errors[i])
    ensures Split(FormatFieldErrors(errors), '\n') == FieldErrorLines(errors)
    ensures |Split(FormatFieldErrors(errors), '\n')| == |errors|
  {
    SplitJoin(FieldErrorLines(errors), '\n');
  }

  /** What `JSON.parse(error.message)` produced, as far as the handler looks
      at it. */
  datatype ParsedError =
    | NotJson
    | IssueArray(errors: seq<FieldError>)
    | WithMessage(message: string)
    | JsonString(text: string)
    | OtherJson

  const GenericSaveFailure := "Failed to save resume. Please try again."
  const BareSaveFailure := "Failed to save resume"

  /** The toast text for a failed save. */
  function SaveErrorMessage(thrown: string, parsed: ParsedError): (r: string)
    ensures parsed.IssueArray? ==> r == FormatFieldErrors(parsed.errors)
    ensures parsed.NotJson? ==>
              (r == thrown || r == GenericSaveFailure) && (thrown == BareSaveFailure || thrown == "" ==> r == GenericSaveFailure)
    ensures parsed.NotJson? && thrown != "" && thrown != BareSaveFailure ==> r == thrown
    ensures parsed.WithMessage? ==> r == (if parsed.message != "" then parsed.message else GenericSaveFailure)
    ensures parsed.JsonString? ==> r == parsed.text
    ensures parsed.OtherJson? ==> r == GenericSaveFailure
  {
    match parsed
    case NotJson => if thrown != "" && thrown != BareSaveFailure then thrown else GenericSaveFailure
    case IssueArray(errors) => FormatFieldErrors(errors)
    case WithMessage(m) => if m != "" then m else GenericSaveFailure
    case JsonString(text) => text
    case OtherJson => GenericSaveFailure
  }

  // ---------------------------------------------------------------------
  // Export

  datatype ExportOutcome =
    | SaveFirst
    | ExportPost(url: string, format: string, template: string, font: string)

  /** `handleExport` up to the request: a resume never saved is refused
      before anything is sent. */
  function HandleExport(routeId: Option<string>, format: string, template: string, font: string): (r: ExportOutcome)
    ensures r.SaveFirst? <==> routeId == Some("new")
    ensures r.ExportPost? ==> r.url == "/api/resumes/" + RouteIdText(routeId) + "/export"
                              && r.format == format && r.template == template && r.font == font
  {
    if routeId == Some("new") then SaveFirst
    else ExportPost("/api/resumes/" + RouteIdText(routeId) + "/export", format, template, font)
  }

  /** The name in the middle of the download name: whitespace runs become
      "_", and an empty name reads "Untitled". */
  function DownloadStem(fullName: string): (r: string)
    ensures r != ""
    ensures forall i :: 0 <= i < |r| ==> !IsWhitespace(r[i])
    ensures fullName == "" ==> r == "Untitled"
    ensures fullName != "" ==> r == ReplaceWhitespaceRuns(fullName, "_")
  {
    var n := ReplaceWhitespaceRuns(fullName, "_");
    assert !IsWhitespace('_');
    if n == "" then "Untitled" else n
  }

  /** `.<format>` after `_<id>`: what the download name ends in. */
  function DownloadSuffix(routeId: Option<string>, format: string): string
  {
    "_" + RouteIdText(routeId) + "." + format
  }

  /** `Resume_<name>_<id>.<format>`: the fixed lead, a non-empty middle
      without whitespace that reads "Untitled" for an empty name, then the
      route id and the format. */
  function DownloadName(fullName: string, routeId: Option<string>, format: string): (r: string)
    ensures StartsWith(r, "Resume_")
    ensures var n := |DownloadSuffix(routeId, format)|;
      && |r| >= 7 + n && r[|r| - n..] == DownloadSuffix(routeId, format)
      && var middle := r[7..|r| - n];
         && middle == DownloadStem(fullName) && middle != ""
         && (forall i :: 0 <= i < |middle| ==> !IsWhitespace(middle[i]))
         && (fullName == "" ==> middle == "Untitled")
  {
    var r := "Resume_" + DownloadStem(fullName) + DownloadSuffix(routeId, format);
    assert r[7..|r| - |DownloadSuffix(routeId, format)|] == DownloadStem(fullName);
    r
  }

  /** A whitespace-free name is kept as it is. */
  lemma {:induction false} NoRunsKept(s: string, rep: string)
    requires forall i :: 0 <= i < |s| ==> !IsWhitespace(s[i])
    ensures ReplaceWhitespaceRuns(s, rep) == s
    decreases |s|
  {
    if s != [] {
      NoRunsKept(s[1..], rep);
    }
  }

  /** The two cases a user sees: an empty name gives
      "Resume_Untitled_<id>.<format>", a name without whitespace appears
      verbatim. */
  lemma DownloadNameCases(fullName: string, routeId: Option<string>, format: string)
    ensures fullName == "" ==>
              DownloadName(fullName, routeId, format) == "Resume_Untitled" + DownloadSuffix(routeId, format)
    ensures fullName != "" && (forall i :: 0 <= i < |fullName| ==> !IsWhitespace(fullName[i])) ==>
              DownloadName(fullName, routeId, format) == "Resume_" + fullName + DownloadSuffix(routeId, format)
  {
    if fullName == "" {
      assert "Resume_" + "Untitled" == "Resume_Untitled";
    } else if forall i :: 0 <= i < |fullName| ==> !IsWhitespace(fullName[i]) {
      NoRunsKept(fullName, "_");
    }
  }

  // ---------------------------------------------------------------------
  // Loading

  /** The template the editor opens with: the stored one, or "classic" when
      it is empty. */
  function LoadedTemplate(stored: string): (r: string)
    ensures r != ""
    ensures stored != "" ==> r == stored
    ensures stored == "" ==> r == DefaultTemplate
  {
    if stored == "" then "classic" else stored
  }

  /** The font the editor opens with: `resume.font || "sans"`, the stored
      font when there is a non-empty one. */
  function LoadedFont(stored: Option<string>): (r: string)
    ensures r != ""
    ensures Truthy(stored) ==> r == stored.value
    ensures !Truthy(stored) ==> r == "sans"
  {
    ValueOr(stored, "sans")
  }

  // ---------------------------------------------------------------------
  // Preview

  /** The preview pane: one `template === ... &&` block per template the
      selector offers, each given the data being edited; only Minimal
      receives the font. */
  function Preview(template: string, d: ResumeData, font: string): (r: seq<Document.Doc>)
    ensures |r| <= 1
    ensures |r| == 1 <==> template == "classic" || template == "modern" || template == "minimal"
    ensures template == "classic" ==> r == [Classic.Render(d)]
    ensures template == "modern" ==> r == [Modern.Render(d)]
    ensures template == "minimal" ==> r == [Minimal.Render(d, Some(font))]
    ensures forall doc :: doc in r ==> (doc.fontClass.Some? <==> template == "minimal")
  {
    (if template == "classic" then [Classic.Render(d)] else [])
    + (if template == "modern" then [Modern.Render(d)] else [])
    + (if template == "minimal" then [Minimal.Render(d, Some(font))] else [])
  }

  /** The preview shows the data being edited, not the payload: a fresher's
      positions still show under Classic and Modern although the save sends
      none. */
  lemma PreviewShowsUnsavedExperience(template: string, d: ResumeData, font: string)
    requires template == "classic" || template == "modern"
    requires IsSet(d.personal.isFresher) && |d.experience| > 0
    ensures Document.ExperienceSection in Document.Kinds(Preview(template, d, font)[0].sections)
    ensures PayloadDataAsWritten(d).experience == []
  {
    if template == "classic" {
      Classic.SectionsShown(d);
    } else {
      Modern.SectionsShown(d);
    }
  }
}
