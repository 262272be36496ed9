/** The outline editor: fresh section keys, moving sections, and the draft's issues. */
module Outline {

  datatype Section = Section(key: string, title: string, purpose: string, dimensions: seq<string>)

  // ---- decimal numerals -------------------------------------------------------------------------------

  function Digit(d: nat): char
    requires d < 10
  {
    "0123456789"[d]
  }

  function Decimal(n: nat): (s: string)
    ensures |s| > 0
    ensures forall c :: c in s ==> '0' <= c <= '9'
  {
    if n < 10 then [Digit(n)] else Decimal(n / 10) + [Digit(n % 10)]
  }

  /** Different numbers have different numerals. */
  lemma {:induction false} DecimalInjective(m: nat, n: nat)
    requires Decimal(m) == Decimal(n)
    ensures m == n
  {
    var s := Decimal(m);
    if m < 10 && n < 10 {
      assert s[0] == Digit(m) == Digit(n);
    } else {
      assert s[|s| - 1] == Digit(m % 10) == Digit(n % 10);
      LongNumeral(m);
      LongNumeral(n);
      assert Decimal(m / 10) == s[..|s| - 1] == Decimal(n / 10);
      DecimalInjective(m / 10, n / 10);
    }
  }

  lemma LongNumeral(n: nat)
    ensures n < 10 <==> |Decimal(n)| == 1
  {
  }

  function PowerOfTen(k: nat): nat {
    if k == 0 then 1 else 10 * PowerOfTen(k - 1)
  }

  lemma {:induction false} NumeralLength(n: nat, k: nat)
    requires k > 0 && n < PowerOfTen(k)
    ensures |Decimal(n)| <= k
  {
    if n >= 10 {
      assert PowerOfTen(1) == 10;
      NumeralLength(n / 10, k - 1);
    }
  }

  // ---- fresh keys -----------------------------------------------------------------------------------------

  function KeyFor(suffix: nat): string {
    "section_" + Decimal(suffix)
  }

  lemma KeyForInjective(m: nat, n: nat)
    requires KeyFor(m) == KeyFor(n)
    ensures m == n
  {
    assert Decimal(m) == KeyFor(m)[8..] && Decimal(n) == KeyFor(n)[8..];
    DecimalInjective(m, n);
  }

  predicate Uses(sections: seq<Section>, key: string) {
    exists i :: 0 <= i < |sections| && sections[i].key == key
  }

  predicate DistinctKeys(sections: seq<Section>) {
    forall i, j :: 0 <= i < j < |sections| ==> sections[i].key != sections[j].key
  }

  function KeySet(sections: seq<Section>): set<string> {
    set s | s in sections :: s.key
  }

  lemma {:induction false} FewKeys(sections: seq<Section>)
    ensures |KeySet(sections)| <= |sections|
  {
    if sections != [] {
      var n := |sections| - 1;
      FewKeys(sections[..n]);
      assert sections == sections[..n] + [sections[n]];
      assert KeySet(sections) == KeySet(sections[..n]) + {sections[n].key};
    } else {
      assert KeySet(sections) == {};
    }
  }

  function KeysBetween(low: nat, high: nat): set<string>
    requires low <= high
  {
    if low == high then {} else KeysBetween(low, high - 1) + {KeyFor(high - 1)}
  }

  predicate KeyBetween(key: string, low: nat, high: nat) {
    exists n :: low <= n < high && key == KeyFor(n)
  }

  lemma {:induction false} ManyKeys(low: nat, high: nat)
    requires low <= high
    ensures |KeysBetween(low, high)| == high - low
    ensures forall k :: k in KeysBetween(low, high) ==> KeyBetween(k, low, high)
  {
    hide KeyFor;
    if low < high {
      ManyKeys(low, high - 1);
      if KeyFor(high - 1) in KeysBetween(low, high - 1) {
        var n :| low <= n < high - 1 && KeyFor(high - 1) == KeyFor(n);
        KeyForInjective(high - 1, n);
      }
      forall k | k in KeysBetween(low, high) ensures KeyBetween(k, low, high) {
        if k in KeysBetween(low, high - 1) {
          var n :| low <= n < high - 1 && k == KeyFor(n);
          assert low <= n < high && k == KeyFor(n);
        } else {
          assert k == KeyFor(high - 1);
        }
      }
    }
  }

  /** No more consecutive keys can be taken than there are sections. */
  lemma Pigeonhole(sections: seq<Section>, low: nat, high: nat)
    requires low <= high && forall n :: low <= n < high ==> Uses(sections, KeyFor(n))
    ensures high - low <= |sections|
  {
    hide KeyFor;
    ManyKeys(low, high);
    forall k | k in KeysBetween(low, high) ensures k in KeySet(sections) {
      var n :| low <= n < high && k == KeyFor(n);
      assert Uses(sections, KeyFor(n));
      var i :| 0 <= i < |sections| && sections[i].key == KeyFor(n);
      assert sections[i] in sections;
    }
    SubsetSize(KeysBetween(low, high), KeySet(sections));
    FewKeys(sections);
  }

  lemma {:induction false} SubsetSize<T>(a: set<T>, b: set<T>)
    requires a <= b
    ensures |a| <= |b|
  {
    if a != {} {
      var x :| x in a;
      SubsetSize(a - {x}, b - {x});
    }
  }

  /** The suffix the loop stops at: the first free one from |sections| + 1 on. */
  ghost predicate FirstFree(sections: seq<Section>, suffix: nat) {
    && |sections| + 1 <= suffix
    && !Uses(sections, KeyFor(suffix))
    && forall n :: |sections| + 1 <= n < suffix ==> Uses(sections, KeyFor(n))
  }

  method NextOutlineSection(sections: seq<Section>, allowed: seq<string>) returns (section: Section, suffix: nat)
    ensures FirstFree(sections, suffix) && |sections| + 1 <= suffix <= 2 * |sections| + 1
    ensures section == Section(KeyFor(suffix), "", "", if |allowed| > 0 then [allowed[0]] else [])
    ensures DistinctKeys(sections) ==> DistinctKeys(sections + [section])
  {
    suffix := |sections| + 1;
    while exists i :: 0 <= i < |sections| && sections[i].key == KeyFor(suffix)
      invariant |sections| + 1 <= suffix <= 2 * |sections| + 1
      invariant forall n :: |sections| + 1 <= n < suffix ==> Uses(sections, KeyFor(n))
      decreases 2 * |sections| + 1 - suffix
    {
      assert Uses(sections, KeyFor(suffix));
      Pigeonhole(sections, |sections| + 1, suffix + 1);
      suffix := suffix + 1;
    }
    section := Section(KeyFor(suffix), "", "", if |allowed| > 0 then [allowed[0]] else []);
  }

  /** The bound is met: when the next n keys are all taken, the loop goes n steps. */
  lemma LongestSearch(n: nat)
    ensures exists sections :: |sections| == n && DistinctKeys(sections) && FirstFree(sections, 2 * n + 1)
  {
    hide KeyFor;
    var sections := seq(n, i requires 0 <= i < n => Section(KeyFor(n + 1 + i), "", "", []));
    forall i, j | 0 <= i < j < n ensures sections[i].key != sections[j].key {
      if sections[i].key == sections[j].key { KeyForInjective(n + 1 + i, n + 1 + j); }
    }
    if Uses(sections, KeyFor(2 * n + 1)) {
      var i :| 0 <= i < n && sections[i].key == KeyFor(2 * n + 1);
      KeyForInjective(n + 1 + i, 2 * n + 1);
    }
    forall k | n + 1 <= k < 2 * n + 1 ensures Uses(sections, KeyFor(k)) {
      assert sections[k - n - 1].key == KeyFor(k);
    }
  }

  // ---- moving a section -------------------------------------------------------------------------------------

  predicate Movable(sections: seq<Section>, index: int, direction: int) {
    0 <= index < |sections| && 0 <= index + direction < |sections|
  }

  function Swap(sections: seq<Section>, i: int, j: int): seq<Section>
    requires 0 <= i < |sections| && 0 <= j < |sections|
  {
    sections[i := sections[j]][j := sections[i]]
  }

  function Moved(sections: seq<Section>, index: int, direction: int): seq<Section> {
    if !Movable(sections, index, direction) then sections else Swap(sections, index, index + direction)
  }

  /** The copy is changed in place by one swap. */
  method MoveOutlineSection(sections: seq<Section>, index: int, direction: int) returns (next: seq<Section>)
    requires direction == -1 || direction == 1
    ensures next == Moved(sections, index, direction)
  {
    var target := index + direction;
    if index < 0 || index >= |sections| || target < 0 || target >= |sections| {
      return sections;
    }
    var copy := new Section[|sections|](i requires 0 <= i < |sections| => sections[i]);
    copy[index], copy[target] := copy[target], copy[index];
    next := copy[..];
    assert next == Swap(sections, index, target);
  }

  lemma SwapIsPermutation(s: seq<Section>, i: int, j: int)
    requires 0 <= i < |s| && 0 <= j < |s|
    ensures multiset(Swap(s, i, j)) == multiset(s)
  {
  }

  lemma SwapAt(s: seq<Section>, i: int, j: int, k: int)
    requires 0 <= i < |s| && 0 <= j < |s| && 0 <= k < |s|
    ensures |Swap(s, i, j)| == |s| && Swap(s, i, j)[k] == s[if k == j then i else if k == i then j else k]
  {
  }

  lemma SwapKeepsKeys(s: seq<Section>, i: int, j: int)
    requires 0 <= i < |s| && 0 <= j < |s| && DistinctKeys(s)
    ensures DistinctKeys(Swap(s, i, j))
  {
    var next := Swap(s, i, j);
    SwapAt(s, i, j, i);
    hide Swap;
    forall a, b | 0 <= a < b < |next| ensures next[a].key != next[b].key {
      SwapAt(s, i, j, a);
      SwapAt(s, i, j, b);
    }
  }

  lemma SwapTwice(s: seq<Section>, i: int, j: int)
    requires 0 <= i < |s| && 0 <= j < |s|
    ensures |Swap(s, i, j)| == |s| && Swap(Swap(s, i, j), j, i) == s
  {
    SwapAt(s, i, j, i);
    var next := Swap(s, i, j);
    var back := Swap(next, j, i);
    SwapAt(next, j, i, i);
    hide Swap;
    forall k | 0 <= k < |s| ensures back[k] == s[k] {
      SwapAt(next, j, i, k);
      SwapAt(s, i, j, i);
      SwapAt(s, i, j, j);
      SwapAt(s, i, j, k);
    }
  }

  /** Moving rearranges the sections, keeps their keys distinct, and is undone by the opposite move from the
      section's new place. */
  lemma MoveIsUndone(sections: seq<Section>, index: int, direction: int)
    requires direction == -1 || direction == 1
    ensures var next := Moved(sections, index, direction);
            && multiset(next) == multiset(sections) && |next| == |sections|
            && (DistinctKeys(sections) ==> DistinctKeys(next))
            && (Movable(sections, index, direction) ==> Moved(next, index + direction, -direction) == sections)
  {
    hide DistinctKeys, Swap;
    if Movable(sections, index, direction) {
      SwapIsPermutation(sections, index, index + direction);
      SwapTwice(sections, index, index + direction);
      if DistinctKeys(sections) { SwapKeepsKeys(sections, index, index + direction); }
    }
  }

  /** The section changes places with its neighbour and every other one stays. */
  lemma MoveAffectsNeighboursOnly(sections: seq<Section>, index: int, direction: int, k: int)
    requires (direction == -1 || direction == 1) && 0 <= k < |sections|
    ensures |Moved(sections, index, direction)| == |sections|
    ensures Moved(sections, index, direction)[k]
            == sections[if !Movable(sections, index, direction) then k
                        else if k == index then index + direction
                        else if k == index + direction then index
                        else k]
  {
    if Movable(sections, index, direction) { SwapAt(sections, index, index + direction, k); }
    hide Swap;
  }

  // ---- issues of a draft ---------------------------------------------------------------------------------------

  const MAX_SECTIONS: nat := 12

  datatype Issue = SectionCount | KeyFormat | KeyRepeated | TitleBad(section: nat) | PurposeBad(section: nat) | DimensionsBad(section: nat)

  predicate Space(c: char) {
    || '\t' <= c <= '\r' || c == ' ' || c == '\U{a0}' || c == '\U{1680}' || '\U{2000}' <= c <= '\U{200a}'
    || c == '\U{2028}' || c == '\U{2029}' || c == '\U{202f}' || c == '\U{205f}' || c == '\U{3000}' || c == '\U{feff}'
  }

  predicate Blank(s: string) {
    forall i :: 0 <= i < |s| ==> Space(s[i])
  }

  predicate KeyWellFormed(key: string) {
    && 1 <= |key| <= 64
    && 'a' <= key[0] <= 'z'
    && forall i :: 1 <= i < |key| ==> 'a' <= key[i] <= 'z' || '0' <= key[i] <= '9' || key[i] == '_'
  }

  predicate AllKeysWellFormed(sections: seq<Section>) {
    forall i :: 0 <= i < |sections| ==> KeyWellFormed(sections[i].key)
  }

  predicate TitleGood(s: Section) { !Blank(s.title) && |s.title| <= 200 }

  predicate PurposeGood(s: Section) { !Blank(s.purpose) && |s.purpose| <= 1000 }

  predicate Distinct(keys: seq<string>) {
    forall i, j :: 0 <= i < j < |keys| ==> keys[i] != keys[j]
  }

  predicate DimensionsGood(s: Section, allowed: seq<string>) {
    1 <= |s.dimensions| <= 6 && Distinct(s.dimensions) && forall i :: 0 <= i < |s.dimensions| ==> s.dimensions[i] in allowed
  }

  function IssuesOf(s: Section, allowed: seq<string>, k: nat): seq<Issue> {
    (if TitleGood(s) then [] else [TitleBad(k)])
    + (if PurposeGood(s) then [] else [PurposeBad(k)])
    + (if DimensionsGood(s, allowed) then [] else [DimensionsBad(k)])
  }

  function SectionIssues(sections: seq<Section>, allowed: seq<string>): seq<Issue> {
    if sections == [] then []
    else
      var n := |sections| - 1;
      SectionIssues(sections[..n], allowed) + IssuesOf(sections[n], allowed, n)
  }

  function GlobalIssues(sections: seq<Section>): seq<Issue> {
    (if 1 <= |sections| <= MAX_SECTIONS then [] else [SectionCount])
    + (if AllKeysWellFormed(sections) then [] else [KeyFormat])
    + (if DistinctKeys(sections) then [] else [KeyRepeated])
  }

  method SectionChecks(section: Section, allowed: seq<string>, k: nat) returns (issues: seq<Issue>)
    ensures issues == IssuesOf(section, allowed, k)
  {
    issues := [];
    if Blank(section.title) || |section.title| > 200 { issues := issues + [TitleBad(k)]; }
    if Blank(section.purpose) || |section.purpose| > 1000 { issues := issues + [PurposeBad(k)]; }
    if |section.dimensions| < 1 || |section.dimensions| > 6 || !Distinct(section.dimensions)
       || exists i :: 0 <= i < |section.dimensions| && section.dimensions[i] !in allowed {
      issues := issues + [DimensionsBad(k)];
    }
  }

  method GlobalChecks(sections: seq<Section>) returns (issues: seq<Issue>)
    ensures issues == GlobalIssues(sections)
  {
    DistinctBySize(sections);
    hide KeyWellFormed, KeySet, DistinctKeys;
    issues := [];
    if |sections| < 1 || |sections| > MAX_SECTIONS { issues := issues + [SectionCount]; }
    if exists i :: 0 <= i < |sections| && !KeyWellFormed(sections[i].key) { issues := issues + [KeyFormat]; }
    if |KeySet(sections)| != |sections| { issues := issues + [KeyRepeated]; }
  }

  method OutlineDraftIssues(sections: seq<Section>, allowed: seq<string>) returns (issues: seq<Issue>)
    ensures issues == GlobalIssues(sections) + SectionIssues(sections, allowed)
  {
    hide IssuesOf, GlobalIssues;
    issues := GlobalChecks(sections);
    for k := 0 to |sections|
      invariant issues == GlobalIssues(sections) + SectionIssues(sections[..k], allowed)
    {
      assert sections[..k + 1][..k] == sections[..k];
      var found := SectionChecks(sections[k], allowed, k);
      issues := issues + found;
    }
    assert sections[..|sections|] == sections;
  }

  /** A list has as many different keys as entries exactly when no key repeats. */
  lemma {:induction false} DistinctBySize(sections: seq<Section>)
    ensures |KeySet(sections)| == |sections| <==> DistinctKeys(sections)
  {
    if sections == [] {
      assert KeySet(sections) == {};
    } else {
      var n := |sections| - 1;
      var front, last := sections[..n], sections[n];
      DistinctBySize(front);
      FewKeys(front);
      assert sections == front + [last];
      assert KeySet(sections) == KeySet(front) + {last.key};
      DistinctAppended(front, last);
      hide DistinctKeys, KeySet;
    }
  }

  lemma DistinctAppended(front: seq<Section>, last: Section)
    ensures DistinctKeys(front + [last]) <==> DistinctKeys(front) && last.key !in KeySet(front)
  {
    var all := front + [last];
    if last.key in KeySet(front) {
      var s :| s in front && s.key == last.key;
      var i :| 0 <= i < |front| && front[i] == s;
      assert all[i].key == all[|front|].key;
    } else {
      forall i | 0 <= i < |front| ensures front[i].key != last.key {
        assert front[i] in front;
      }
    }
    if DistinctKeys(all) {
      forall i, j | 0 <= i < j < |front| ensures front[i].key != front[j].key {
        assert all[i].key != all[j].key;
      }
    }
  }

  predicate SectionGood(s: Section, allowed: seq<string>) {
    TitleGood(s) && PurposeGood(s) && DimensionsGood(s, allowed)
  }

  predicate AllGood(sections: seq<Section>, allowed: seq<string>) {
    forall i :: 0 <= i < |sections| ==> SectionGood(sections[i], allowed)
  }

  predicate WellFormed(sections: seq<Section>, allowed: seq<string>) {
    1 <= |sections| <= MAX_SECTIONS && AllKeysWellFormed(sections) && DistinctKeys(sections) && AllGood(sections, allowed)
  }

  lemma NoIssueOf(s: Section, allowed: seq<string>, k: nat)
    ensures IssuesOf(s, allowed, k) == [] <==> SectionGood(s, allowed)
  {
    hide TitleGood, PurposeGood, DimensionsGood;
  }

  lemma {:induction false} NoSectionIssueIff(sections: seq<Section>, allowed: seq<string>)
    ensures SectionIssues(sections, allowed) == [] <==> AllGood(sections, allowed)
  {
    hide IssuesOf, SectionGood;
    if sections != [] {
      var n := |sections| - 1;
      NoSectionIssueIff(sections[..n], allowed);
      NoIssueOf(sections[n], allowed, n);
      assert sections == sections[..n] + [sections[n]];
    }
  }

  /** A draft has no issue exactly when it is well formed. */
  lemma NoIssueIff(sections: seq<Section>, allowed: seq<string>)
    ensures GlobalIssues(sections) + SectionIssues(sections, allowed) == [] <==> WellFormed(sections, allowed)
  {
    NoSectionIssueIff(sections, allowed);
    hide AllGood, SectionIssues, AllKeysWellFormed, DistinctKeys;
  }

  /** What an issue says of the draft. */
  predicate Faulty(sections: seq<Section>, allowed: seq<string>, issue: Issue) {
    match issue
    case SectionCount => !(1 <= |sections| <= MAX_SECTIONS)
    case KeyFormat => !AllKeysWellFormed(sections)
    case KeyRepeated => !DistinctKeys(sections)
    case TitleBad(k) => k < |sections| && !TitleGood(sections[k])
    case PurposeBad(k) => k < |sections| && !PurposeGood(sections[k])
    case DimensionsBad(k) => k < |sections| && !DimensionsGood(sections[k], allowed)
  }

  predicate OnSection(issue: Issue) {
    issue.TitleBad? || issue.PurposeBad? || issue.DimensionsBad?
  }

  lemma {:induction false} EachSectionIssue(sections: seq<Section>, allowed: seq<string>, issue: Issue)
    ensures issue in SectionIssues(sections, allowed) <==> OnSection(issue) && Faulty(sections, allowed, issue)
  {
    hide TitleGood, PurposeGood, DimensionsGood, AllKeysWellFormed, DistinctKeys, IssuesOf, OnSection;
    if sections == [] {
      if OnSection(issue) { NoSectionNoFault(allowed, issue); }
    } else {
      var n := |sections| - 1;
      EachSectionIssue(sections[..n], allowed, issue);
      IssuesOfOne(sections[n], allowed, n, issue);
      FaultyNext(sections, allowed, issue);
      hide Faulty;
    }
  }

  lemma NoSectionNoFault(allowed: seq<string>, issue: Issue)
    requires OnSection(issue)
    ensures !Faulty([], allowed, issue)
  {
  }

  /** The faults of one section. */
  predicate FaultyAt(s: Section, allowed: seq<string>, k: nat, issue: Issue) {
    match issue
    case TitleBad(i) => i == k && !TitleGood(s)
    case PurposeBad(i) => i == k && !PurposeGood(s)
    case DimensionsBad(i) => i == k && !DimensionsGood(s, allowed)
    case _ => false
  }

  lemma IssuesOfOne(s: Section, allowed: seq<string>, k: nat, issue: Issue)
    ensures issue in IssuesOf(s, allowed, k) <==> FaultyAt(s, allowed, k, issue)
  {
    hide TitleGood, PurposeGood, DimensionsGood;
  }

  lemma FaultyNext(sections: seq<Section>, allowed: seq<string>, issue: Issue)
    requires sections != []
    ensures var n := |sections| - 1;
            OnSection(issue) && Faulty(sections, allowed, issue)
            <==> (OnSection(issue) && Faulty(sections[..n], allowed, issue)) || FaultyAt(sections[n], allowed, n, issue)
  {
    hide TitleGood, PurposeGood, DimensionsGood, AllKeysWellFormed, DistinctKeys;
  }

  /** An issue is reported exactly when the draft has that fault. */
  lemma EachIssueReported(sections: seq<Section>, allowed: seq<string>, issue: Issue)
    ensures issue in GlobalIssues(sections) + SectionIssues(sections, allowed) <==> Faulty(sections, allowed, issue)
  {
    EachSectionIssue(sections, allowed, issue);
    hide TitleGood, PurposeGood, DimensionsGood, AllKeysWellFormed, DistinctKeys, SectionIssues;
  }

  lemma GeneratedKeyWellFormed(suffix: nat)
    ensures KeyWellFormed(KeyFor(suffix)) <==> |Decimal(suffix)| <= 56
  {
    var key := KeyFor(suffix);
    forall i | 8 <= i < |key| ensures '0' <= key[i] <= '9' {
      assert key[i] in Decimal(suffix);
    }
  }

  /** Adding a section to a well-formed draft leaves exactly the two issues the user must fill in, its title
      and its purpose, plus the count if the draft was full. */
  lemma NewSectionNeedsTitleAndPurpose(sections: seq<Section>, allowed: seq<string>, suffix: nat)
    requires WellFormed(sections, allowed) && FirstFree(sections, suffix) && |allowed| > 0
    ensures var draft := sections + [Section(KeyFor(suffix), "", "", [allowed[0]])];
            GlobalIssues(draft) + SectionIssues(draft, allowed)
            == (if |sections| < MAX_SECTIONS then [] else [SectionCount]) + [TitleBad(|sections|), PurposeBad(|sections|)]
  {
    hide AllKeysWellFormed, DistinctKeys, AllGood, KeyFor, FirstFree, SectionIssues, IssuesOf, Decimal;
    var section := Section(KeyFor(suffix), "", "", [allowed[0]]);
    var draft := sections + [section];
    NoSectionIssueIff(sections, allowed);
    SuffixSmall(sections, suffix);
    OneMoreKey(sections, section, suffix);
    NewSectionIssues(sections, section, allowed);
  }

  lemma SuffixSmall(sections: seq<Section>, suffix: nat)
    requires |sections| <= MAX_SECTIONS && FirstFree(sections, suffix)
    ensures KeyWellFormed(KeyFor(suffix))
  {
    hide KeyFor, Decimal;
    Pigeonhole(sections, |sections| + 1, suffix);
    assert suffix < 100 == PowerOfTen(2) by { assert PowerOfTen(1) == 10; }
    NumeralLength(suffix, 2);
    GeneratedKeyWellFormed(suffix);
  }

  lemma OneMoreKey(sections: seq<Section>, section: Section, suffix: nat)
    requires AllKeysWellFormed(sections) && DistinctKeys(sections) && FirstFree(sections, suffix)
    requires section.key == KeyFor(suffix) && KeyWellFormed(section.key)
    ensures AllKeysWellFormed(sections + [section]) && DistinctKeys(sections + [section])
  {
    hide KeyWellFormed, KeyFor;
  }

  lemma {:induction false} NewSectionIssues(sections: seq<Section>, section: Section, allowed: seq<string>)
    requires SectionIssues(sections, allowed) == []
    requires section.title == "" && section.purpose == "" && |allowed| > 0 && section.dimensions == [allowed[0]]
    ensures SectionIssues(sections + [section], allowed) == [TitleBad(|sections|), PurposeBad(|sections|)]
  {
    var draft := sections + [section];
    assert draft[..|sections|] == sections;
    assert IssuesOf(section, allowed, |sections|) == [TitleBad(|sections|), PurposeBad(|sections|)];
  }
}
