/** The migration to a personal library: equal contents of one owner are merged into one canonical version, and
    projects refer to papers instead of owning them. */
module LibraryMerge {
  import opened Wrappers

  type PaperId = string
  type VersionId = string
  type ProjectId = string
  type OwnerId = string
  type Hash = string
  type KeyId = string

  datatype Paper = Paper(project: ProjectId, createdAt: int, mergedInto: Option<PaperId>)

  datatype Version = Version(paper: PaperId, owner: OwnerId, hash: Hash, parsed: bool, createdAt: int, canonical: bool)

  /** An idempotency row's run, by the paper and version in its payload, and its status. */
  datatype Run = Run(paper: PaperId, version: VersionId, status: string)

  datatype KeyRow = KeyRow(run: Run, paper: Option<PaperId>, version: Option<VersionId>, status: string)

  datatype Db = Db(
    papers: map<PaperId, Paper>,
    versions: map<VersionId, Version>,
    members: map<(ProjectId, PaperId), VersionId>,
    keys: map<KeyId, KeyRow>)

  /** Where the database leaves the order of rows open: ties in the window's order, the latest of
      several versions, the earliest of several papers, and the row an update takes from several. */
  datatype Choice = Choice(
    tie: VersionId -> int,
    latest: map<PaperId, VersionId>,
    first: map<(ProjectId, PaperId), PaperId>,
    taken: map<PaperId, VersionId>)

  /** The tables before the migration. */
  ghost predicate Before(db: Db) {
    && db.members == map[]
    && (forall v :: v in db.versions ==> db.versions[v].paper in db.papers && db.versions[v].canonical)
    && (forall p :: p in db.papers ==> db.papers[p].mergedInto.None?)
  }

  predicate Group(db: Db, v: VersionId, w: VersionId)
    requires v in db.versions && w in db.versions
  {
    db.versions[v].owner == db.versions[w].owner && db.versions[v].hash == db.versions[w].hash
  }

  /** The window's order: parsed before unparsed, then earlier before later, then as the ties fall. */
  predicate Precedes(db: Db, c: Choice, v: VersionId, w: VersionId)
    requires v in db.versions && w in db.versions
  {
    var a, b := db.versions[v], db.versions[w];
    if a.parsed != b.parsed then a.parsed
    else if a.createdAt != b.createdAt then a.createdAt < b.createdAt
    else c.tie(v) <= c.tie(w)
  }

  ghost predicate TiesDecided(db: Db, c: Choice) {
    forall v, w :: v in db.versions && w in db.versions && c.tie(v) == c.tie(w) ==> v == w
  }

  predicate IsFirst(db: Db, c: Choice, v: VersionId, f: VersionId)
    requires v in db.versions && f in db.versions
  {
    Group(db, v, f) && forall w :: w in db.versions && Group(db, v, w) ==> Precedes(db, c, f, w)
  }

  lemma {:induction false} FirstOfSome(db: Db, c: Choice, vs: set<VersionId>) returns (f: VersionId)
    requires vs != {} && vs <= db.versions.Keys
    ensures f in vs && forall w :: w in vs ==> Precedes(db, c, f, w)
    decreases |vs|
  {
    f :| f in vs;
    if vs - {f} != {} {
      var g := FirstOfSome(db, c, vs - {f});
      assert forall w :: w in vs && w != f ==> w in vs - {f};
      if !Precedes(db, c, f, g) { f := g; }
    } else {
      assert vs == {f};
    }
  }

  lemma FirstExists(db: Db, c: Choice, v: VersionId)
    requires v in db.versions
    ensures exists f :: f in db.versions && IsFirst(db, c, v, f)
  {
    var vs := set w | w in db.versions && Group(db, v, w);
    assert v in vs;
    var f := FirstOfSome(db, c, vs);
    assert IsFirst(db, c, v, f);
  }

  lemma FirstIsUnique(db: Db, c: Choice, v: VersionId, f: VersionId, g: VersionId)
    requires TiesDecided(db, c) && v in db.versions && f in db.versions && g in db.versions
    requires IsFirst(db, c, v, f) && IsFirst(db, c, v, g)
    ensures f == g
  {
    assert Precedes(db, c, f, g) && Precedes(db, c, g, f);
  }

  /** The first value of the version's partition. */
  ghost function Canon(db: Db, c: Choice, v: VersionId): (f: VersionId)
    requires v in db.versions
    ensures f in db.versions && IsFirst(db, c, v, f)
  {
    FirstExists(db, c, v);
    var f :| f in db.versions && IsFirst(db, c, v, f);
    f
  }

  /** The merge table holds the versions that are not the first of their partition. */
  ghost predicate Duplicate(db: Db, c: Choice, v: VersionId)
    requires v in db.versions
  {
    Canon(db, c, v) != v
  }

  lemma CanonOfGroup(db: Db, c: Choice, v: VersionId, w: VersionId)
    requires TiesDecided(db, c) && v in db.versions && w in db.versions && Group(db, v, w)
    ensures Canon(db, c, v) == Canon(db, c, w)
  {
    FirstIsUnique(db, c, v, Canon(db, c, v), Canon(db, c, w));
  }

  lemma CanonIsFixed(db: Db, c: Choice, v: VersionId)
    requires TiesDecided(db, c) && v in db.versions
    ensures Canon(db, c, Canon(db, c, v)) == Canon(db, c, v)
  {
    CanonOfGroup(db, c, v, Canon(db, c, v));
  }

  // ---- the statements ---------------------------------------------------------------------------------------

  /** The choices pick rows the statements allow. */
  ghost predicate ChoiceFits(db: Db, c: Choice) {
    TiesDecided(db, c) && LatestFits(db, c) && FirstFits(db, c) && TakenFits(db, c)
  }

  ghost predicate LatestFits(db: Db, c: Choice) {
    && (forall p :: p in c.latest <==> p in db.papers && HasVersion(db, p))
    && (forall p :: p in c.latest ==> IsLatest(db, p, c.latest[p]))
  }

  ghost predicate FirstFits(db: Db, c: Choice) {
    && (forall k :: k in c.first <==> HasRow(db, c, k))
    && (forall k :: k in c.first ==> IsEarliest(db, c, k, c.first[k]))
  }

  ghost predicate TakenFits(db: Db, c: Choice) {
    && (forall p :: p in c.taken <==> HasDuplicate(db, c, p))
    && (forall p :: p in c.taken ==> IsDuplicateOf(db, c, p, c.taken[p]))
  }

  predicate IsLatest(db: Db, p: PaperId, v: VersionId) {
    && v in db.versions && db.versions[v].paper == p
    && forall w :: w in db.versions && db.versions[w].paper == p ==> db.versions[w].createdAt <= db.versions[v].createdAt
  }

  ghost predicate HasVersion(db: Db, p: PaperId) {
    exists v :: v in db.versions && db.versions[v].paper == p
  }

  ghost predicate HasDuplicate(db: Db, c: Choice, p: PaperId) {
    exists v :: IsDuplicateOf(db, c, p, v)
  }

  ghost predicate IsDuplicateOf(db: Db, c: Choice, p: PaperId, v: VersionId) {
    v in db.versions && Duplicate(db, c, v) && db.versions[v].paper == p
  }

  ghost predicate HasRow(db: Db, c: Choice, k: (ProjectId, PaperId)) {
    exists p :: p in c.latest && RowKey(db, c, p) == k
  }

  /** The project and paper of the row that a paper contributes. */
  ghost function RowKey(db: Db, c: Choice, p: PaperId): (ProjectId, PaperId) {
    if p in db.papers && p in c.latest && c.latest[p] in db.versions
    then (db.papers[p].project, db.versions[Canon(db, c, c.latest[p])].paper) else ("", "")
  }

  ghost predicate IsEarliest(db: Db, c: Choice, k: (ProjectId, PaperId), p: PaperId) {
    && p in c.latest && p in db.papers && RowKey(db, c, p) == k
    && forall q :: q in c.latest && q in db.papers && RowKey(db, c, q) == k ==> db.papers[p].createdAt <= db.papers[q].createdAt
  }

  ghost function Members(db: Db, c: Choice): map<(ProjectId, PaperId), VersionId>
    requires ChoiceFits(db, c)
  {
    map k | k in c.first :: Canon(db, c, c.latest[c.first[k]])
  }

  ghost function Flagged(db: Db, c: Choice): map<VersionId, Version> {
    map v | v in db.versions :: db.versions[v].(canonical := !Duplicate(db, c, v) && db.versions[v].canonical)
  }

  ghost function Pointed(db: Db, c: Choice): map<PaperId, Paper>
    requires ChoiceFits(db, c)
  {
    map p | p in db.papers ::
      if p in c.taken then db.papers[p].(mergedInto := Some(db.versions[Canon(db, c, c.taken[p])].paper)) else db.papers[p]
  }

  ghost function Rekeyed(db: Db, c: Choice): map<KeyId, KeyRow> {
    map k | k in db.keys ::
      var run := db.keys[k].run;
      if run.version in db.versions && Duplicate(db, c, run.version) then
        var f := Canon(db, c, run.version);
        KeyRow(run, Some(db.versions[f].paper), Some(f), run.status)
      else KeyRow(run, Some(run.paper), Some(run.version), run.status)
  }

  ghost function Upgraded(db: Db, c: Choice): Db
    requires ChoiceFits(db, c)
  {
    Db(Pointed(db, c), Flagged(db, c), Members(db, c), Rekeyed(db, c))
  }

  // ---- what holds whatever the tables are ---------------------------------------------------------------------

  lemma CanonicalIff(db: Db, c: Choice, v: VersionId)
    requires Before(db) && ChoiceFits(db, c) && v in db.versions
    ensures v in Upgraded(db, c).versions
    ensures Upgraded(db, c).versions[v] == db.versions[v].(canonical := Canon(db, c, v) == v)
  {
    hide Canon, ChoiceFits;
  }

  /** The best of a group: parsed if any of them is, and the earliest among those. */
  ghost predicate BestOfGroup(db: Db, v: VersionId, f: VersionId)
    requires v in db.versions && f in db.versions
  {
    Group(db, v, f)
    && forall w :: w in db.versions && Group(db, v, w) ==>
         && (db.versions[w].parsed ==> db.versions[f].parsed)
         && (db.versions[w].parsed == db.versions[f].parsed ==> db.versions[f].createdAt <= db.versions[w].createdAt)
  }

  lemma FirstIsBest(db: Db, c: Choice, v: VersionId)
    requires v in db.versions
    ensures BestOfGroup(db, v, Canon(db, c, v))
  {
    var f := Canon(db, c, v);
    hide Canon;
    forall w | w in db.versions && Group(db, v, w)
      ensures (db.versions[w].parsed ==> db.versions[f].parsed)
              && (db.versions[w].parsed == db.versions[f].parsed ==> db.versions[f].createdAt <= db.versions[w].createdAt)
    {
      assert Precedes(db, c, f, w);
    }
  }

  /** Exactly one version of each owner and content is canonical afterwards, the best of its group. */
  lemma OneCanonicalEach(db: Db, c: Choice, v: VersionId)
    requires Before(db) && ChoiceFits(db, c) && v in db.versions
    ensures var after := Upgraded(db, c);
            exists f :: f in db.versions && BestOfGroup(db, v, f)
                        && forall g :: g in db.versions && Group(db, v, g) ==>
                             g in after.versions && (after.versions[g].canonical <==> g == f)
  {
    var after := Upgraded(db, c);
    var f := Canon(db, c, v);
    FirstIsBest(db, c, v);
    forall g | g in db.versions && Group(db, v, g)
      ensures g in after.versions && (after.versions[g].canonical <==> g == f)
    {
      CanonicalIff(db, c, g);
      CanonOfGroup(db, c, v, g);
    }
    hide Canon, ChoiceFits, Before, Upgraded;
  }

  /** Nothing is removed: papers, versions and idempotency rows are all still there, and of a version
      only the flag changes, of a paper only the mark. */
  lemma NothingIsRemoved(db: Db, c: Choice)
    requires Before(db) && ChoiceFits(db, c)
    ensures var after := Upgraded(db, c);
            && after.versions.Keys == db.versions.Keys && after.papers.Keys == db.papers.Keys && after.keys.Keys == db.keys.Keys
            && (forall v :: v in db.versions ==> after.versions[v].(canonical := true) == db.versions[v])
            && (forall p :: p in db.papers ==> after.papers[p].(mergedInto := None) == db.papers[p])
            && (forall k :: k in db.keys ==> after.keys[k].run == db.keys[k].run)
  {
    hide Canon, Duplicate, Members, ChoiceFits;
  }

  /** An idempotency row ends up with a canonical version and the paper that version belongs to. */
  lemma KeysNameCanonical(db: Db, c: Choice, k: KeyId)
    requires Before(db) && ChoiceFits(db, c) && k in db.keys
    requires db.keys[k].run.version in db.versions && db.versions[db.keys[k].run.version].paper == db.keys[k].run.paper
    ensures var after := Upgraded(db, c);
            && k in after.keys && after.keys[k].version.Some? && after.keys[k].version.value in after.versions
            && after.versions[after.keys[k].version.value].canonical
            && after.keys[k].paper == Some(after.versions[after.keys[k].version.value].paper)
            && Group(db, db.keys[k].run.version, after.keys[k].version.value)
  {
    CanonIsFixed(db, c, db.keys[k].run.version);
    hide Canon, ChoiceFits;
  }

  // ---- what needs one version for each paper ---------------------------------------------------------------------

  ghost predicate OneVersionEach(db: Db) {
    forall v, w :: v in db.versions && w in db.versions && db.versions[v].paper == db.versions[w].paper ==> v == w
  }

  /** Merge marks have length one: a paper is never merged into itself or into a paper that is merged. */
  ghost predicate OneStep(db: Db) {
    forall p :: p in db.papers && db.papers[p].mergedInto.Some? ==>
      var q := db.papers[p].mergedInto.value;
      q != p && q in db.papers && db.papers[q].mergedInto.None?
  }

  /** The paper a merged paper is merged into. */
  ghost function Home(db: Db, c: Choice, p: PaperId): (q: PaperId)
    requires Before(db) && ChoiceFits(db, c) && p in c.taken
    ensures q in db.papers
  {
    db.versions[Canon(db, c, c.taken[p])].paper
  }

  /** The papers that merge marks lead to hold no duplicate. */
  ghost predicate CleanTargets(db: Db, c: Choice)
    requires Before(db) && ChoiceFits(db, c)
  {
    forall p, w :: p in c.taken && w in db.versions && Duplicate(db, c, w) ==> db.versions[w].paper != Home(db, c, p)
  }

  lemma MarksLead(db: Db, c: Choice, p: PaperId)
    requires Before(db) && ChoiceFits(db, c) && p in db.papers
    ensures p in Upgraded(db, c).papers
    ensures Upgraded(db, c).papers[p].mergedInto == if p in c.taken then Some(Home(db, c, p)) else None
    ensures p in c.taken <==> HasDuplicate(db, c, p)
  {
    hide Canon;
  }

  lemma TakenKnown(db: Db, c: Choice)
    requires Before(db) && ChoiceFits(db, c)
    ensures forall p :: p in c.taken ==>
              p in db.papers && c.taken[p] in db.versions && Duplicate(db, c, c.taken[p]) && db.versions[c.taken[p]].paper == p
  {
    hide Canon;
  }

  lemma DuplicateTaken(db: Db, c: Choice, w: VersionId)
    requires ChoiceFits(db, c) && w in db.versions && Duplicate(db, c, w)
    ensures db.versions[w].paper in c.taken
  {
    hide Duplicate;
    assert IsDuplicateOf(db, c, db.versions[w].paper, w);
  }

  /** The marks have length one exactly when no canonical version they lead to shares its paper with a duplicate. */
  lemma OneStepIff(db: Db, c: Choice)
    requires Before(db) && ChoiceFits(db, c)
    ensures OneStep(Upgraded(db, c)) <==> CleanTargets(db, c)
  {
    var after := Upgraded(db, c);
    forall p | p in db.papers
      ensures p in after.papers
      ensures after.papers[p].mergedInto == if p in c.taken then Some(Home(db, c, p)) else None
    {
      MarksLead(db, c, p);
    }
    assert after.papers.Keys == db.papers.Keys by { NothingIsRemoved(db, c); }
    TakenKnown(db, c);
    hide Canon, Duplicate, Upgraded, OneStep;
    if CleanTargets(db, c) {
      forall p | p in c.taken ensures Home(db, c, p) != p && Home(db, c, p) !in c.taken {
        CleanHome(db, c, p);
      }
      MarksAreShort(db, c, after);
    }
    if OneStep(after) {
      forall p, w | p in c.taken && w in db.versions && Duplicate(db, c, w) ensures db.versions[w].paper != Home(db, c, p) {
        ShortIsClean(db, c, after, p, w);
      }
      assert CleanTargets(db, c);
    }
  }

  lemma CleanHome(db: Db, c: Choice, p: PaperId)
    requires Before(db) && ChoiceFits(db, c) && CleanTargets(db, c) && p in c.taken
    ensures Home(db, c, p) != p && Home(db, c, p) !in c.taken
  {
    TakenKnown(db, c);
    hide Canon, Duplicate, ChoiceFits, Before;
  }

  lemma MarksAreShort(db: Db, c: Choice, after: Db)
    requires Before(db) && ChoiceFits(db, c) && after.papers.Keys == db.papers.Keys
    requires forall p :: p in db.papers ==> after.papers[p].mergedInto == if p in c.taken then Some(Home(db, c, p)) else None
    requires forall p :: p in c.taken ==> Home(db, c, p) != p && Home(db, c, p) !in c.taken
    ensures OneStep(after)
  {
    hide Home, ChoiceFits, Before;
  }

  lemma ShortIsClean(db: Db, c: Choice, after: Db, p: PaperId, w: VersionId)
    requires Before(db) && ChoiceFits(db, c) && OneStep(after) && after.papers.Keys == db.papers.Keys
    requires forall x :: x in db.papers ==> after.papers[x].mergedInto == if x in c.taken then Some(Home(db, c, x)) else None
    requires p in c.taken && w in db.versions && Duplicate(db, c, w)
    ensures db.versions[w].paper != Home(db, c, p)
  {
    TakenKnown(db, c);
    DuplicateTaken(db, c, w);
    hide Canon, Duplicate, ChoiceFits, Before;
    assert after.papers[p].mergedInto == Some(Home(db, c, p));
    assert after.papers[Home(db, c, p)].mergedInto.None?;
  }

  lemma OneVersionIsClean(db: Db, c: Choice)
    requires Before(db) && ChoiceFits(db, c) && OneVersionEach(db)
    ensures CleanTargets(db, c)
  {
    TakenKnown(db, c);
    forall p, w | p in c.taken && w in db.versions && Duplicate(db, c, w) ensures db.versions[w].paper != Home(db, c, p) {
      CanonIsFixed(db, c, c.taken[p]);
    }
  }

  /** With one version for each paper, the marks have length one and lead to the paper of the canonical version of
      the same owner and content; an unmarked paper keeps its own. */
  lemma MergeMarksPointHome(db: Db, c: Choice, v: VersionId)
    requires Before(db) && ChoiceFits(db, c) && OneVersionEach(db) && v in db.versions
    ensures var after := Upgraded(db, c); var p := db.versions[v].paper; var home := db.versions[Canon(db, c, v)].paper;
            && OneStep(after)
            && p in after.papers
            && after.papers[p].mergedInto == if home == p then None else Some(home)
  {
    OneVersionIsClean(db, c);
    OneStepIff(db, c);
    var p := db.versions[v].paper;
    MarksLead(db, c, p);
    TakenKnown(db, c);
    if Duplicate(db, c, v) { DuplicateTaken(db, c, v); }
    hide OneStep, CleanTargets, ChoiceFits, Canon, Upgraded, IsDuplicateOf, HasDuplicate;
    if p in c.taken {
      assert c.taken[p] == v;
    }
  }

  /** With one version for each paper, a project has a paper exactly when it owned some paper of that paper's
      group, and it has selected the paper's canonical version. */
  lemma MembershipIsKept(db: Db, c: Choice, project: ProjectId, q: PaperId)
    requires Before(db) && ChoiceFits(db, c) && OneVersionEach(db)
    ensures var after := Upgraded(db, c);
            && ((project, q) in after.members
                <==> exists v :: v in db.versions && db.papers[db.versions[v].paper].project == project
                                 && db.versions[Canon(db, c, v)].paper == q)
            && ((project, q) in after.members ==>
                  var selected := after.members[(project, q)];
                  && selected in after.versions && after.versions[selected].paper == q && after.versions[selected].canonical)
  {
    var k := (project, q);
    if k in c.first {
      var p := c.first[k];
      assert IsEarliest(db, c, k, p);
      var v := c.latest[p];
      assert IsLatest(db, p, v);
      CanonIsFixed(db, c, v);
      assert v in db.versions && db.papers[db.versions[v].paper].project == project && db.versions[Canon(db, c, v)].paper == q;
    }
    if exists v :: v in db.versions && db.papers[db.versions[v].paper].project == project && db.versions[Canon(db, c, v)].paper == q {
      var v :| v in db.versions && db.papers[db.versions[v].paper].project == project && db.versions[Canon(db, c, v)].paper == q;
      var p := db.versions[v].paper;
      assert p in c.latest;
      assert IsLatest(db, p, c.latest[p]);
      assert c.latest[p] == v;
      assert RowKey(db, c, p) == k;
    }
  }

  /** Without that hypothesis a paper can be merged into itself: two versions of one paper with one content. */
  lemma SelfMergeIsPossible()
    ensures exists db, c :: Before(db) && ChoiceFits(db, c) && !OneStep(Upgraded(db, c))
  {
    var db, c := SelfMergeExample();
    OneStepIff(db, c);
    assert "p" in c.taken;
    var w := c.taken["p"];
    assert Duplicate(db, c, w);
    assert !CleanTargets(db, c);
  }

  lemma SelfMergeExample() returns (db: Db, c: Choice)
    ensures Before(db) && ChoiceFits(db, c) && "p" in c.taken
    ensures forall v :: v in db.versions ==> db.versions[v].paper == "p"
  {
    var a := Version("p", "o", "h", true, 1, true);
    var b := Version("p", "o", "h", false, 2, true);
    db := Db(map["p" := Paper("project", 0, None)], map["a" := a, "b" := b], map[], map[]);
    c := Choice((v: VersionId) => if v == "a" then 0 else 1, map["p" := "b"], map[("project", "p") := "p"], map["p" := "b"]);
    forall v | v in db.versions ensures Canon(db, c, v) == "a" {
      assert IsFirst(db, c, v, "a");
      FirstIsUnique(db, c, v, Canon(db, c, v), "a");
    }
    assert IsLatest(db, "p", "b");
    assert RowKey(db, c, "p") == ("project", "p");
    assert IsEarliest(db, c, ("project", "p"), "p");
    assert IsDuplicateOf(db, c, "p", "b");
    hide Canon, Duplicate;
    assert forall p :: HasDuplicate(db, c, p) ==> p == "p";
    assert HasVersion(db, "p") && HasRow(db, c, ("project", "p"));
  }

  // ---- there is always a choice -------------------------------------------------------------------------------------

  lemma LatestExists(db: Db, p: PaperId)
    requires HasVersion(db, p)
    ensures exists v :: IsLatest(db, p, v)
  {
    var vs := set v | v in db.versions && db.versions[v].paper == p;
    var v :| v in db.versions && db.versions[v].paper == p;
    assert v in vs;
    var latest := LatestOfSome(db, vs);
    assert IsLatest(db, p, latest);
  }

  lemma LatestOfSome(db: Db, vs: set<VersionId>) returns (latest: VersionId)
    requires vs != {} && vs <= db.versions.Keys
    ensures latest in vs && forall w :: w in vs ==> db.versions[w].createdAt <= db.versions[latest].createdAt
    decreases |vs|
  {
    latest :| latest in vs;
    if vs - {latest} != {} {
      var other := LatestOfSome(db, vs - {latest});
      assert forall w :: w in vs && w != latest ==> w in vs - {latest};
      if db.versions[other].createdAt > db.versions[latest].createdAt { latest := other; }
    } else {
      assert vs == {latest};
    }
  }

  lemma EarliestOfSome(db: Db, ps: set<PaperId>) returns (p: PaperId)
    requires ps != {} && ps <= db.papers.Keys
    ensures p in ps && forall q :: q in ps ==> db.papers[p].createdAt <= db.papers[q].createdAt
    decreases |ps|
  {
    p :| p in ps;
    if ps - {p} != {} {
      var other := EarliestOfSome(db, ps - {p});
      assert forall q :: q in ps && q != p ==> q in ps - {p};
      if db.papers[other].createdAt < db.papers[p].createdAt { p := other; }
    } else {
      assert ps == {p};
    }
  }

  lemma EarliestExists(db: Db, c: Choice, k: (ProjectId, PaperId))
    requires HasRow(db, c, k) && c.latest.Keys <= db.papers.Keys
    ensures exists p :: IsEarliest(db, c, k, p)
  {
    hide Canon, RowKey;
    var ps := set p | p in c.latest && RowKey(db, c, p) == k;
    var p :| p in c.latest && RowKey(db, c, p) == k;
    assert p in ps;
    var earliest := EarliestOfSome(db, ps);
    assert IsEarliest(db, c, k, earliest);
  }

  /** The canonical version depends on the ties only. */
  lemma SameCanon(db: Db, c: Choice, c': Choice, v: VersionId)
    requires TiesDecided(db, c) && c'.tie == c.tie && v in db.versions
    ensures Canon(db, c', v) == Canon(db, c, v)
  {
    var f, g := Canon(db, c, v), Canon(db, c', v);
    hide Canon;
    assert IsFirst(db, c, v, g);
    FirstIsUnique(db, c, v, f, g);
  }

  lemma SameDuplicate(db: Db, c: Choice, c': Choice, v: VersionId)
    requires TiesDecided(db, c) && c'.tie == c.tie && v in db.versions
    ensures Duplicate(db, c', v) <==> Duplicate(db, c, v)
  {
    SameCanon(db, c, c', v);
    hide Canon;
  }

  lemma SameRowKey(db: Db, c: Choice, c': Choice, p: PaperId)
    requires TiesDecided(db, c) && c'.tie == c.tie && c'.latest == c.latest
    ensures RowKey(db, c', p) == RowKey(db, c, p)
  {
    hide Canon;
    if p in db.papers && p in c.latest && c.latest[p] in db.versions {
      SameCanon(db, c, c', c.latest[p]);
    }
  }

  lemma SameRows(db: Db, c: Choice, c': Choice)
    requires TiesDecided(db, c) && c'.tie == c.tie && c'.latest == c.latest
    ensures forall k :: HasRow(db, c', k) <==> HasRow(db, c, k)
    ensures forall k, p :: IsEarliest(db, c', k, p) <==> IsEarliest(db, c, k, p)
  {
    hide RowKey, TiesDecided;
    forall p ensures RowKey(db, c', p) == RowKey(db, c, p) {
      SameRowKey(db, c, c', p);
    }
  }

  lemma SameDuplicates(db: Db, c: Choice, c': Choice)
    requires TiesDecided(db, c) && c'.tie == c.tie
    ensures forall p, v :: IsDuplicateOf(db, c', p, v) <==> IsDuplicateOf(db, c, p, v)
    ensures forall p :: HasDuplicate(db, c', p) <==> HasDuplicate(db, c, p)
  {
    hide Duplicate, TiesDecided, HasDuplicate;
    forall p, v ensures IsDuplicateOf(db, c', p, v) <==> IsDuplicateOf(db, c, p, v) {
      if v in db.versions { SameDuplicate(db, c, c', v); }
    }
    hide IsDuplicateOf;
    forall p ensures HasDuplicate(db, c', p) <==> HasDuplicate(db, c, p) {
      SameHasDuplicate(db, c, c', p);
    }
  }

  lemma SameHasDuplicate(db: Db, c: Choice, c': Choice, p: PaperId)
    requires forall v :: IsDuplicateOf(db, c', p, v) <==> IsDuplicateOf(db, c, p, v)
    ensures HasDuplicate(db, c', p) <==> HasDuplicate(db, c, p)
  {
    hide IsDuplicateOf;
  }

  ghost function LatestRows(db: Db): (latest: map<PaperId, VersionId>)
    ensures forall p :: p in latest <==> p in db.papers && HasVersion(db, p)
    ensures forall p :: p in latest ==> IsLatest(db, p, latest[p])
  {
    hide IsLatest;
    assert forall p :: HasVersion(db, p) ==> exists v :: IsLatest(db, p, v) by {
      forall p | HasVersion(db, p) ensures exists v :: IsLatest(db, p, v) { LatestExists(db, p); }
    }
    map p | p in db.papers && HasVersion(db, p) :: var v :| IsLatest(db, p, v); v
  }

  ghost function FirstRows(db: Db, c: Choice): (first: map<(ProjectId, PaperId), PaperId>)
    requires c.latest.Keys <= db.papers.Keys
    ensures forall k :: k in first <==> HasRow(db, c, k)
    ensures forall k :: k in first ==> IsEarliest(db, c, k, first[k])
  {
    hide IsEarliest, RowKey;
    var keys := set p | p in c.latest :: RowKey(db, c, p);
    assert forall k :: k in keys ==> exists p :: IsEarliest(db, c, k, p) by {
      forall k | k in keys ensures exists p :: IsEarliest(db, c, k, p) {
        assert HasRow(db, c, k);
        EarliestExists(db, c, k);
      }
    }
    map k | k in keys :: var p :| IsEarliest(db, c, k, p); p
  }

  ghost function TakenRows(db: Db, c: Choice): (taken: map<PaperId, VersionId>)
    requires Before(db)
    ensures forall p :: p in taken <==> HasDuplicate(db, c, p)
    ensures forall p :: p in taken ==> IsDuplicateOf(db, c, p, taken[p])
  {
    hide Duplicate;
    assert forall p :: HasDuplicate(db, c, p) ==> p in db.papers;
    map p | p in db.papers && HasDuplicate(db, c, p) :: var v :| IsDuplicateOf(db, c, p, v); v
  }

  ghost function SomeChoice(db: Db, tie: VersionId -> int): Choice
    requires Before(db)
  {
    var c := Choice(tie, LatestRows(db), map[], map[]);
    Choice(tie, c.latest, FirstRows(db, c), TakenRows(db, c))
  }

  lemma FirstRowsFit(db: Db, c0: Choice, c: Choice)
    requires TiesDecided(db, c0) && c.tie == c0.tie && c.latest == c0.latest && c.latest.Keys <= db.papers.Keys
    requires c.first == FirstRows(db, c0)
    ensures FirstFits(db, c)
  {
    SameRows(db, c0, c);
    hide HasRow, IsEarliest, TiesDecided, RowKey;
  }

  lemma TakenRowsFit(db: Db, c0: Choice, c: Choice)
    requires Before(db) && TiesDecided(db, c0) && c.tie == c0.tie
    requires c.taken == TakenRows(db, c0)
    ensures TakenFits(db, c)
  {
    SameDuplicates(db, c0, c);
    hide HasDuplicate, IsDuplicateOf, TiesDecided, Before;
  }

  lemma SomeChoiceFits(db: Db, tie: VersionId -> int)
    requires Before(db) && TiesDecided(db, SomeChoice(db, tie))
    ensures ChoiceFits(db, SomeChoice(db, tie))
  {
    var c0 := Choice(tie, LatestRows(db), map[], map[]);
    var c := SomeChoice(db, tie);
    assert TiesDecided(db, c0);
    assert c.latest.Keys <= db.papers.Keys && LatestFits(db, c);
    FirstRowsFit(db, c0, c);
    TakenRowsFit(db, c0, c);
    hide LatestFits, FirstFits, TakenFits;
  }

  /** However ties are decided, there are rows for the database to choose, so the statements are never stuck. */
  lemma ChoiceExists(db: Db, tie: VersionId -> int)
    requires Before(db) && forall v, w :: v in db.versions && w in db.versions && tie(v) == tie(w) ==> v == w
    ensures exists c: Choice :: c.tie == tie && ChoiceFits(db, c)
  {
    var c := SomeChoice(db, tie);
    assert c.tie == tie && TiesDecided(db, c);
    hide *;
    SomeChoiceFits(db, tie);
  }

  // ---- the marks, whatever rows are picked ---------------------------------------------------------------------------

  /** Only the way ties fall is chosen. */
  function Ties(tie: VersionId -> int): Choice {
    Choice(tie, map[], map[], map[])
  }

  /** In the tables as they are, no duplicate shares its paper with the first of a partition that has duplicates. */
  ghost predicate CleanTables(db: Db, tie: VersionId -> int) {
    forall v, w :: v in db.versions && w in db.versions && Duplicate(db, Ties(tie), v) && Duplicate(db, Ties(tie), w)
      ==> db.versions[w].paper != db.versions[Canon(db, Ties(tie), v)].paper
  }

  lemma SameTies(db: Db, c: Choice, v: VersionId)
    requires TiesDecided(db, c) && v in db.versions
    ensures Canon(db, c, v) == Canon(db, Ties(c.tie), v)
    ensures Duplicate(db, c, v) <==> Duplicate(db, Ties(c.tie), v)
  {
    SameCanon(db, c, Ties(c.tie), v);
    SameDuplicate(db, c, Ties(c.tie), v);
  }

  lemma CleanTablesSuffice(db: Db, c: Choice)
    requires Before(db) && ChoiceFits(db, c) && CleanTables(db, c.tie)
    ensures CleanTargets(db, c)
  {
    TakenKnown(db, c);
    FitsDecide(db, c);
    hide Canon, Duplicate, ChoiceFits, Before, TiesDecided;
    forall p, w | p in c.taken && w in db.versions && Duplicate(db, c, w) ensures db.versions[w].paper != Home(db, c, p) {
      SameTies(db, c, c.taken[p]);
      SameTies(db, c, w);
    }
  }

  lemma FirstStays(db: Db, c: Choice, c': Choice)
    requires TiesDecided(db, c) && FirstFits(db, c) && c'.tie == c.tie && c'.latest == c.latest && c'.first == c.first
    ensures FirstFits(db, c')
  {
    SameRows(db, c, c');
    hide HasRow, IsEarliest, TiesDecided;
  }

  lemma TakenStays(db: Db, c: Choice, c': Choice, p: PaperId, v: VersionId)
    requires TiesDecided(db, c) && TakenFits(db, c) && c'.tie == c.tie && c'.taken == c.taken[p := v]
    requires p in c.taken && IsDuplicateOf(db, c, p, v)
    ensures TakenFits(db, c')
  {
    hide HasDuplicate, IsDuplicateOf, TiesDecided;
    forall q ensures q in c'.taken <==> HasDuplicate(db, c', q) {
      SameDuplicatesOf(db, c, c', q, v);
    }
    forall q | q in c'.taken ensures IsDuplicateOf(db, c', q, c'.taken[q]) {
      SameDuplicatesOf(db, c, c', q, c'.taken[q]);
    }
  }

  lemma SameDuplicatesOf(db: Db, c: Choice, c': Choice, p: PaperId, v: VersionId)
    requires TiesDecided(db, c) && c'.tie == c.tie
    ensures IsDuplicateOf(db, c', p, v) <==> IsDuplicateOf(db, c, p, v)
    ensures HasDuplicate(db, c', p) <==> HasDuplicate(db, c, p)
  {
    SameDuplicates(db, c, c');
    hide *;
  }

  lemma LatestStays(db: Db, c: Choice, c': Choice)
    requires TiesDecided(db, c) && LatestFits(db, c) && c'.tie == c.tie && c'.latest == c.latest
    ensures TiesDecided(db, c') && LatestFits(db, c')
  {
    hide HasVersion, IsLatest;
  }

  /** The same choice, but the update takes this duplicate's row for its paper. */
  function Taking(db: Db, c: Choice, v: VersionId): Choice
    requires v in db.versions
  {
    c.(taken := c.taken[db.versions[v].paper := v])
  }

  lemma TakingFits(db: Db, c: Choice, v: VersionId)
    requires ChoiceFits(db, c) && v in db.versions && Duplicate(db, c, v)
    ensures ChoiceFits(db, Taking(db, c, v))
  {
    DuplicateTaken(db, c, v);
    assert IsDuplicateOf(db, c, db.versions[v].paper, v);
    hide LatestFits, FirstFits, TakenFits, TiesDecided, IsDuplicateOf, Duplicate;
    LatestStays(db, c, Taking(db, c, v));
    FirstStays(db, c, Taking(db, c, v));
    TakenStays(db, c, Taking(db, c, v), db.versions[v].paper, v);
  }

  /** However the database picks its rows, marks have length one if and only if in the tables before no duplicate
      shares its paper with the first of a partition that has duplicates. */
  lemma AlwaysOneStepIff(db: Db, tie: VersionId -> int)
    requires Before(db) && forall v, w :: v in db.versions && w in db.versions && tie(v) == tie(w) ==> v == w
    ensures (forall c: Choice :: c.tie == tie && ChoiceFits(db, c) ==> OneStep(Upgraded(db, c))) <==> CleanTables(db, tie)
  {
    if CleanTables(db, tie) {
      forall c: Choice | c.tie == tie && ChoiceFits(db, c) ensures OneStep(Upgraded(db, c)) {
        CleanTablesSuffice(db, c);
        OneStepIff(db, c);
      }
    } else {
      var c := UncleanChoice(db, tie);
      OneStepIff(db, c);
    }
  }

  lemma UncleanChoice(db: Db, tie: VersionId -> int) returns (c: Choice)
    requires Before(db) && forall v, w :: v in db.versions && w in db.versions && tie(v) == tie(w) ==> v == w
    requires !CleanTables(db, tie)
    ensures c.tie == tie && ChoiceFits(db, c) && !CleanTargets(db, c)
  {
    ChoiceExists(db, tie);
    hide Before, ChoiceFits, CleanTables, CleanTargets;
    var any: Choice :| any.tie == tie && ChoiceFits(db, any);
    c := UncleanFrom(db, any);
  }

  lemma UncleanFrom(db: Db, any: Choice) returns (c: Choice)
    requires Before(db) && ChoiceFits(db, any) && !CleanTables(db, any.tie)
    ensures c.tie == any.tie && ChoiceFits(db, c) && !CleanTargets(db, c)
  {
    var v, w :| v in db.versions && w in db.versions && Duplicate(db, Ties(any.tie), v) && Duplicate(db, Ties(any.tie), w)
                && db.versions[w].paper == db.versions[Canon(db, Ties(any.tie), v)].paper;
    hide Canon, Duplicate, Before, ChoiceFits, CleanTables, CleanTargets, TiesDecided;
    FitsDecide(db, any);
    SameTies(db, any, v);
    TakingFits(db, any, v);
    c := Taking(db, any, v);
    FitsDecide(db, c);
    SameTies(db, c, v);
    SameTies(db, c, w);
    TakingIsUnclean(db, c, v, w);
  }

  lemma TakingIsUnclean(db: Db, c: Choice, v: VersionId, w: VersionId)
    requires Before(db) && ChoiceFits(db, c) && v in db.versions && w in db.versions && Duplicate(db, c, w)
    requires db.versions[v].paper in c.taken && c.taken[db.versions[v].paper] == v
    requires db.versions[w].paper == db.versions[Canon(db, c, v)].paper
    ensures !CleanTargets(db, c)
  {
    hide Canon, Duplicate, Before, ChoiceFits;
    assert Home(db, c, db.versions[v].paper) == db.versions[w].paper;
  }

  lemma FitsDecide(db: Db, c: Choice)
    requires ChoiceFits(db, c)
    ensures TiesDecided(db, c)
  {
  }
}
