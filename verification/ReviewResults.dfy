/** Reading review outputs: all-or-nothing parsers over untyped JSON. */
module ReviewResults {
  import opened Wrappers
  import opened Outline

  datatype Json =
    | Null
    | Boolean(value: bool)
    | Number(number: int)
    | Text(text: string)
    | Array(items: seq<Json>)
    | Object(fields: map<string, Json>)

  // ---- checks on one value ------------------------------------------------------------------------------

  predicate HasText(fields: map<string, Json>, name: string) {
    name in fields && fields[name].Text?
  }

  predicate IsTexts(j: Json) {
    j.Array? && forall i :: 0 <= i < |j.items| ==> j.items[i].Text?
  }

  predicate HasTexts(fields: map<string, Json>, name: string) {
    name in fields && IsTexts(fields[name])
  }

  predicate HasTextOrNull(fields: map<string, Json>, name: string) {
    name in fields && (fields[name].Text? || fields[name].Null?)
  }

  function Texts(items: seq<Json>): (texts: seq<string>)
    requires forall i :: 0 <= i < |items| ==> items[i].Text?
    ensures |texts| == |items|
    ensures forall i :: 0 <= i < |items| ==> texts[i] == items[i].text
  {
    seq(|items|, i requires 0 <= i < |items| => items[i].text)
  }

  function TextsJson(texts: seq<string>): Json {
    Array(seq(|texts|, i requires 0 <= i < |texts| => Text(texts[i])))
  }

  /** As many keys as expected, and each of them expected. */
  predicate ExactKeys(fields: map<string, Json>, expected: set<string>) {
    |fields.Keys| == |expected| && forall k :: k in fields.Keys ==> k in expected
  }

  lemma ExactKeysMeans(fields: map<string, Json>, expected: set<string>)
    ensures ExactKeys(fields, expected) <==> fields.Keys == expected
  {
    if ExactKeys(fields, expected) {
      SameSize(fields.Keys, expected);
    }
  }

  lemma {:induction false} SameSize<T>(a: set<T>, b: set<T>)
    requires a <= b && |a| == |b|
    ensures a == b
  {
    if a == {} {
      assert b == {};
    } else {
      var x :| x in a;
      SameSize(a - {x}, b - {x});
      assert a == (a - {x}) + {x} && b == (b - {x}) + {x};
    }
  }

  // ---- the outline --------------------------------------------------------------------------------------------

  const OUTLINE_FIELDS := {"section_key", "title", "purpose", "dimension_keys"}

  predicate OutlineRowValid(j: Json) {
    && j.Object?
    && j.fields.Keys == OUTLINE_FIELDS
    && HasText(j.fields, "section_key") && HasText(j.fields, "title") && HasText(j.fields, "purpose")
    && HasTexts(j.fields, "dimension_keys")
  }

  function OutlineRow(j: Json): Section
    requires OutlineRowValid(j)
  {
    Section(j.fields["section_key"].text, j.fields["title"].text, j.fields["purpose"].text,
            Texts(j.fields["dimension_keys"].items))
  }

  /** Every row read, or nothing. */
  predicate ReadsOutline(rows: seq<Json>, sections: seq<Section>) {
    if forall i :: 0 <= i < |rows| ==> OutlineRowValid(rows[i]) then
      |sections| == |rows| && forall i :: 0 <= i < |rows| ==> OutlineRowValid(rows[i]) && sections[i] == OutlineRow(rows[i])
    else sections == []
  }

  /** The rows of an output's payload, if it has an array under the name. */
  function RowsOf(payload: Option<Json>, name: string): Option<seq<Json>> {
    if payload.Some? && payload.value.Object? && name in payload.value.fields && payload.value.fields[name].Array?
    then Some(payload.value.fields[name].items) else None
  }

  method OutlineSections(payload: Option<Json>) returns (sections: seq<Section>)
    ensures match RowsOf(payload, "sections")
            case None => sections == []
            case Some(rows) => ReadsOutline(rows, sections)
  {
    var found := RowsOf(payload, "sections");
    if found.None? { return []; }
    var rows := found.value;
    sections := [];
    var good := true;
    for i := 0 to |rows|
      invariant |sections| <= i
      invariant |sections| == i <==> forall k :: 0 <= k < i ==> OutlineRowValid(rows[k])
      invariant |sections| == i ==> forall k :: 0 <= k < i ==> OutlineRowValid(rows[k]) && sections[k] == OutlineRow(rows[k])
    {
      var row := rows[i];
      if row.Object? { ExactKeysMeans(row.fields, OUTLINE_FIELDS); }
      if row.Object? && ExactKeys(row.fields, OUTLINE_FIELDS) && HasText(row.fields, "section_key")
         && HasText(row.fields, "title") && HasText(row.fields, "purpose") && HasTexts(row.fields, "dimension_keys") {
        assert OutlineRowValid(row);
        sections := sections + [OutlineRow(row)];
      }
    }
    if |sections| != |rows| { sections := []; }
  }

  function OutlineJson(s: Section): Json {
    Object(map["section_key" := Text(s.key), "title" := Text(s.title), "purpose" := Text(s.purpose),
               "dimension_keys" := TextsJson(s.dimensions)])
  }

  lemma OutlineRowRoundTrip(s: Section)
    ensures OutlineRowValid(OutlineJson(s)) && OutlineRow(OutlineJson(s)) == s
  {
    var fields := OutlineJson(s).fields;
    assert fields.Keys == OUTLINE_FIELDS;
    assert Texts(fields["dimension_keys"].items) == s.dimensions;
  }

  /** Reading what was written gives back the same sections, and nothing else can be read from it. */
  lemma OutlineRoundTrip(sections: seq<Section>, rows: seq<Json>, read: seq<Section>)
    requires |rows| == |sections| && forall i :: 0 <= i < |rows| ==> rows[i] == OutlineJson(sections[i])
    ensures ReadsOutline(rows, read) <==> read == sections
  {
    forall i | 0 <= i < |rows| ensures OutlineRowValid(rows[i]) && OutlineRow(rows[i]) == sections[i] {
      OutlineRowRoundTrip(sections[i]);
    }
    hide OutlineRowValid, OutlineRow;
  }

  // ---- the evidence matrix ----------------------------------------------------------------------------------------

  datatype MatrixRow = MatrixRow(paper: string, dimension: string, status: string, finding: Option<string>,
                                 limitations: Option<string>, evidence: seq<string>)

  /** Other fields are allowed here. */
  predicate MatrixRowValid(j: Json) {
    && j.Object?
    && HasText(j.fields, "paper_id") && HasText(j.fields, "dimension_key") && HasText(j.fields, "status")
    && HasTextOrNull(j.fields, "finding") && HasTextOrNull(j.fields, "limitations") && HasTexts(j.fields, "evidence_ids")
  }

  function TextOrNone(j: Json): Option<string>
    requires j.Text? || j.Null?
  {
    if j.Text? then Some(j.text) else None
  }

  function ReadMatrixRow(j: Json): MatrixRow
    requires MatrixRowValid(j)
  {
    MatrixRow(j.fields["paper_id"].text, j.fields["dimension_key"].text, j.fields["status"].text,
              TextOrNone(j.fields["finding"]), TextOrNone(j.fields["limitations"]), Texts(j.fields["evidence_ids"].items))
  }

  predicate ReadsMatrix(rows: seq<Json>, read: seq<MatrixRow>) {
    if forall i :: 0 <= i < |rows| ==> MatrixRowValid(rows[i]) then
      |read| == |rows| && forall i :: 0 <= i < |rows| ==> MatrixRowValid(rows[i]) && read[i] == ReadMatrixRow(rows[i])
    else read == []
  }

  method MatrixRows(payload: Option<Json>) returns (read: seq<MatrixRow>)
    ensures match RowsOf(payload, "rows")
            case None => read == []
            case Some(rows) => ReadsMatrix(rows, read)
  {
    var found := RowsOf(payload, "rows");
    if found.None? { return []; }
    var rows := found.value;
    hide ReadMatrixRow;
    read := [];
    for i := 0 to |rows|
      invariant |read| <= i
      invariant |read| == i <==> forall k :: 0 <= k < i ==> MatrixRowValid(rows[k])
      invariant |read| == i ==> forall k :: 0 <= k < i ==> MatrixRowValid(rows[k]) && read[k] == ReadMatrixRow(rows[k])
    {
      if MatrixRowValid(rows[i]) {
        read := read + [ReadMatrixRow(rows[i])];
      }
    }
    if |read| != |rows| { read := []; }
  }

  function OptionJson(text: Option<string>): Json {
    if text.None? then Null else Text(text.value)
  }

  function MatrixFields(row: MatrixRow): map<string, Json> {
    map["paper_id" := Text(row.paper), "dimension_key" := Text(row.dimension), "status" := Text(row.status),
        "finding" := OptionJson(row.finding), "limitations" := OptionJson(row.limitations), "evidence_ids" := TextsJson(row.evidence)]
  }

  /** A written row reads back unchanged, whatever other fields come with it. */
  lemma MatrixRowRoundTrip(row: MatrixRow, others: map<string, Json>)
    requires others.Keys !! MatrixFields(row).Keys
    ensures var j := Object(others + MatrixFields(row)); MatrixRowValid(j) && ReadMatrixRow(j) == row
  {
    var fields := others + MatrixFields(row);
    assert forall name :: name in MatrixFields(row) ==> name in fields && fields[name] == MatrixFields(row)[name];
    assert Texts(fields["evidence_ids"].items) == row.evidence;
  }

  /** A written matrix reads back unchanged, and nothing else can be read from it. */
  lemma MatrixRoundTrip(written: seq<MatrixRow>, others: seq<map<string, Json>>, rows: seq<Json>, read: seq<MatrixRow>)
    requires |rows| == |written| == |others|
    requires forall i :: 0 <= i < |rows| ==>
               others[i].Keys !! MatrixFields(written[i]).Keys && rows[i] == Object(others[i] + MatrixFields(written[i]))
    ensures ReadsMatrix(rows, read) <==> read == written
  {
    forall i | 0 <= i < |rows| ensures MatrixRowValid(rows[i]) && ReadMatrixRow(rows[i]) == written[i] {
      MatrixRowRoundTrip(written[i], others[i]);
    }
    hide MatrixRowValid, ReadMatrixRow;
  }

  // ---- a section draft ------------------------------------------------------------------------------------------------

  datatype Claim = Claim(text: string, evidence: seq<string>)

  datatype Term = Term(term: string, definition: string)

  datatype ReviewSection = ReviewSection(key: string, title: string, answered: bool, summary: string, claims: seq<Claim>,
                                         terminology: seq<Term>)

  const SECTION_FIELDS := {"section_key", "title", "status", "summary", "claims", "terminology"}

  predicate ClaimValid(j: Json) {
    && j.Object? && j.fields.Keys == {"text", "evidence_ids"}
    && HasText(j.fields, "text") && HasTexts(j.fields, "evidence_ids")
    && !Blank(j.fields["text"].text) && |j.fields["text"].text| <= 4000
    && 1 <= |j.fields["evidence_ids"].items| <= 10
    && Distinct(Texts(j.fields["evidence_ids"].items))
  }

  function ReadClaim(j: Json): Claim
    requires ClaimValid(j)
  {
    Claim(j.fields["text"].text, Texts(j.fields["evidence_ids"].items))
  }

  predicate TermValid(j: Json) {
    && j.Object? && j.fields.Keys == {"term", "definition"}
    && HasText(j.fields, "term") && HasText(j.fields, "definition")
    && !Blank(j.fields["term"].text) && |j.fields["term"].text| <= 100
    && !Blank(j.fields["definition"].text) && |j.fields["definition"].text| <= 500
  }

  function ReadTerm(j: Json): Term
    requires TermValid(j)
  {
    Term(j.fields["term"].text, j.fields["definition"].text)
  }

  predicate AllClaimsValid(items: seq<Json>) {
    forall i :: 0 <= i < |items| ==> ClaimValid(items[i])
  }

  predicate AllTermsValid(items: seq<Json>) {
    forall i :: 0 <= i < |items| ==> TermValid(items[i])
  }

  predicate DistinctTerms(items: seq<Json>)
    requires AllTermsValid(items)
  {
    forall i, j :: 0 <= i < j < |items| ==> items[i].fields["term"].text != items[j].fields["term"].text
  }

  predicate ShapeValid(j: Json) {
    && j.Object? && j.fields.Keys == SECTION_FIELDS
    && HasText(j.fields, "section_key") && HasText(j.fields, "title") && HasText(j.fields, "status")
    && HasText(j.fields, "summary")
    && (j.fields["status"].text == "answered" || j.fields["status"].text == "insufficient_evidence")
    && j.fields["claims"].Array? && j.fields["terminology"].Array?
    && !Blank(j.fields["title"].text) && !Blank(j.fields["summary"].text) && |j.fields["summary"].text| <= 1000
    && |j.fields["claims"].items| <= 50 && |j.fields["terminology"].items| <= 50
  }

  /** An answered section has claims, an unanswered one has none, and no term is defined twice. */
  predicate SectionValid(j: Json) {
    && ShapeValid(j)
    && AllClaimsValid(j.fields["claims"].items)
    && (j.fields["status"].text == "answered" <==> |j.fields["claims"].items| > 0)
    && AllTermsValid(j.fields["terminology"].items) && DistinctTerms(j.fields["terminology"].items)
  }

  function ReadClaims(items: seq<Json>): (claims: seq<Claim>)
    requires AllClaimsValid(items)
    ensures |claims| == |items| && forall i :: 0 <= i < |items| ==> claims[i] == ReadClaim(items[i])
  {
    seq(|items|, i requires 0 <= i < |items| => ReadClaim(items[i]))
  }

  function ReadTerms(items: seq<Json>): (terms: seq<Term>)
    requires AllTermsValid(items)
    ensures |terms| == |items| && forall i :: 0 <= i < |items| ==> terms[i] == ReadTerm(items[i])
  {
    seq(|items|, i requires 0 <= i < |items| => ReadTerm(items[i]))
  }

  function ReadSection(j: Json): ReviewSection
    requires SectionValid(j)
  {
    ReviewSection(j.fields["section_key"].text, j.fields["title"].text, j.fields["status"].text == "answered",
                  j.fields["summary"].text, ReadClaims(j.fields["claims"].items), ReadTerms(j.fields["terminology"].items))
  }

  method CollectClaims(items: seq<Json>) returns (claims: seq<Claim>)
    ensures |claims| == |items| <==> AllClaimsValid(items)
    ensures AllClaimsValid(items) ==> claims == ReadClaims(items)
  {
    hide ClaimValid, ReadClaim;
    claims := [];
    for i := 0 to |items|
      invariant |claims| <= i
      invariant |claims| == i <==> forall k :: 0 <= k < i ==> ClaimValid(items[k])
      invariant |claims| == i ==> forall k :: 0 <= k < i ==> ClaimValid(items[k]) && claims[k] == ReadClaim(items[k])
    {
      if ClaimValid(items[i]) { claims := claims + [ReadClaim(items[i])]; }
    }
  }

  /** The set of terms seen so far decides which later rows are dropped. */
  method CollectTerms(items: seq<Json>) returns (terms: seq<Term>)
    ensures |terms| == |items| <==> AllTermsValid(items) && DistinctTerms(items)
    ensures AllTermsValid(items) && DistinctTerms(items) ==> terms == ReadTerms(items)
  {
    hide Blank;
    terms := [];
    var seen: set<string> := {};
    for i := 0 to |items|
      invariant |terms| <= i
      invariant |terms| == i <==> AllTermsValid(items[..i]) && DistinctTerms(items[..i])
      invariant |terms| == i ==> forall k :: 0 <= k < i ==> TermValid(items[k]) && terms[k] == ReadTerm(items[k])
      invariant |terms| == i ==> forall t :: t in seen <==> Mentions(items[..i], t)
    {
      NextTerm(items, i);
      if TermValid(items[i]) && items[i].fields["term"].text !in seen {
        seen := seen + {items[i].fields["term"].text};
        terms := terms + [ReadTerm(items[i])];
      }
    }
    assert items[..|items|] == items;
  }

  predicate Mentions(items: seq<Json>, t: string) {
    exists k :: 0 <= k < |items| && TermValid(items[k]) && items[k].fields["term"].text == t
  }

  lemma NextTerm(items: seq<Json>, i: nat)
    requires i < |items|
    ensures AllTermsValid(items[..i + 1]) <==> AllTermsValid(items[..i]) && TermValid(items[i])
    ensures AllTermsValid(items[..i + 1]) ==>
              (DistinctTerms(items[..i + 1]) <==> DistinctTerms(items[..i]) && !Mentions(items[..i], items[i].fields["term"].text))
    ensures TermValid(items[i]) ==>
              forall t :: Mentions(items[..i + 1], t) <==> Mentions(items[..i], t) || t == items[i].fields["term"].text
  {
    var longer, shorter := items[..i + 1], items[..i];
    assert longer == shorter + [items[i]];
    hide TermValid;
    if TermValid(items[i]) {
      forall t ensures Mentions(longer, t) <==> Mentions(shorter, t) || t == items[i].fields["term"].text {
        if Mentions(shorter, t) {
          var k :| 0 <= k < i && TermValid(shorter[k]) && shorter[k].fields["term"].text == t;
          assert longer[k] == shorter[k];
        }
        if t == items[i].fields["term"].text { assert longer[i] == items[i]; }
      }
    }
    assert AllTermsValid(longer) ==> AllTermsValid(shorter) && longer[i] == items[i];
    if AllTermsValid(longer) && Mentions(shorter, items[i].fields["term"].text) {
      var k :| 0 <= k < i && TermValid(shorter[k]) && shorter[k].fields["term"].text == items[i].fields["term"].text;
      assert longer[k].fields["term"].text == longer[i].fields["term"].text;
    }
  }

  /** A section is read exactly when the whole of it is valid. */
  method SectionResult(payload: Json) returns (section: Option<ReviewSection>)
    ensures section == if SectionValid(payload) then Some(ReadSection(payload)) else None
  {
    hide Blank, ClaimValid, TermValid;
    if payload.Object? { ExactKeysMeans(payload.fields, SECTION_FIELDS); }
    if !payload.Object? || !ExactKeys(payload.fields, SECTION_FIELDS) || !ShapeValid(payload) {
      return None;
    }
    var claims := CollectClaims(payload.fields["claims"].items);
    if |claims| != |payload.fields["claims"].items| {
      return None;
    }
    var status := payload.fields["status"].text;
    if (status == "answered" && |claims| == 0) || (status == "insufficient_evidence" && |claims| > 0) {
      return None;
    }
    var terms := CollectTerms(payload.fields["terminology"].items);
    if |terms| != |payload.fields["terminology"].items| {
      return None;
    }
    return Some(ReviewSection(payload.fields["section_key"].text, payload.fields["title"].text, status == "answered",
                              payload.fields["summary"].text, claims, terms));
  }

  function ClaimJson(c: Claim): Json {
    Object(map["text" := Text(c.text), "evidence_ids" := TextsJson(c.evidence)])
  }

  function TermJson(t: Term): Json {
    Object(map["term" := Text(t.term), "definition" := Text(t.definition)])
  }

  function SectionJson(s: ReviewSection): Json {
    Object(map["section_key" := Text(s.key), "title" := Text(s.title),
               "status" := Text(if s.answered then "answered" else "insufficient_evidence"), "summary" := Text(s.summary),
               "claims" := Array(seq(|s.claims|, i requires 0 <= i < |s.claims| => ClaimJson(s.claims[i]))),
               "terminology" := Array(seq(|s.terminology|, i requires 0 <= i < |s.terminology| => TermJson(s.terminology[i])))])
  }

  predicate ClaimFits(c: Claim) {
    !Blank(c.text) && |c.text| <= 4000 && 1 <= |c.evidence| <= 10 && Distinct(c.evidence)
  }

  predicate TermFits(t: Term) {
    !Blank(t.term) && |t.term| <= 100 && !Blank(t.definition) && |t.definition| <= 500
  }

  /** What the page promises about a section it shows. */
  predicate SectionFits(s: ReviewSection) {
    && !Blank(s.title) && !Blank(s.summary) && |s.summary| <= 1000 && |s.claims| <= 50 && |s.terminology| <= 50
    && (s.answered <==> |s.claims| > 0)
    && (forall i :: 0 <= i < |s.claims| ==> ClaimFits(s.claims[i]))
    && (forall i :: 0 <= i < |s.terminology| ==> TermFits(s.terminology[i]))
    && forall i, j :: 0 <= i < j < |s.terminology| ==> s.terminology[i].term != s.terminology[j].term
  }

  lemma ClaimRoundTrip(c: Claim)
    ensures ClaimValid(ClaimJson(c)) <==> ClaimFits(c)
    ensures ClaimFits(c) ==> ReadClaim(ClaimJson(c)) == c
  {
    var fields := ClaimJson(c).fields;
    assert fields.Keys == {"text", "evidence_ids"};
    assert Texts(fields["evidence_ids"].items) == c.evidence;
  }

  lemma TermRoundTrip(t: Term)
    ensures TermValid(TermJson(t)) <==> TermFits(t)
    ensures TermFits(t) ==> ReadTerm(TermJson(t)) == t
  {
    assert TermJson(t).fields.Keys == {"term", "definition"};
  }

  /** A written section is accepted exactly when it keeps every promise, and then reads back unchanged. */
  lemma SectionRoundTrip(s: ReviewSection)
    ensures SectionValid(SectionJson(s)) <==> SectionFits(s)
    ensures SectionFits(s) ==> ReadSection(SectionJson(s)) == s
  {
    hide ClaimValid, ClaimFits, TermValid, TermFits, ClaimJson, TermJson, ReadClaim, ReadTerm, Blank;
    var fields := SectionJson(s).fields;
    assert fields.Keys == SECTION_FIELDS;
    var claims, terms := fields["claims"].items, fields["terminology"].items;
    forall i | 0 <= i < |s.claims|
      ensures ClaimValid(claims[i]) <==> ClaimFits(s.claims[i])
      ensures ClaimFits(s.claims[i]) ==> ReadClaim(claims[i]) == s.claims[i]
    {
      ClaimRoundTrip(s.claims[i]);
    }
    forall i | 0 <= i < |s.terminology|
      ensures TermValid(terms[i]) <==> TermFits(s.terminology[i])
      ensures TermFits(s.terminology[i]) ==> ReadTerm(terms[i]) == s.terminology[i]
      ensures terms[i].Object? && "term" in terms[i].fields && terms[i].fields["term"] == Text(s.terminology[i].term)
    {
      TermRoundTrip(s.terminology[i]);
      TermIsThere(s.terminology[i]);
    }
    assert AllClaimsValid(claims) <==> forall i :: 0 <= i < |s.claims| ==> ClaimFits(s.claims[i]);
    assert AllTermsValid(terms) <==> forall i :: 0 <= i < |s.terminology| ==> TermFits(s.terminology[i]);
    if AllTermsValid(terms) {
      assert DistinctTerms(terms)
        <==> forall i, j :: 0 <= i < j < |s.terminology| ==> s.terminology[i].term != s.terminology[j].term;
    }
    if SectionFits(s) {
      assert ReadClaims(claims) == s.claims;
      assert ReadTerms(terms) == s.terminology;
    }
  }

  lemma TermIsThere(t: Term)
    ensures TermJson(t).Object? && "term" in TermJson(t).fields && TermJson(t).fields["term"] == Text(t.term)
  {
  }
}
