/** The migration's statements in their order, each over whole tables. */
module LibraryMigration {
  import opened Wrappers
  import opened LibraryMerge

  // ---- the statements' set expressions ------------------------------------------------------------------

  /** The merge table, as the duplicates' canonical versions. */
  ghost predicate IsMergeTable(db: Db, c: Choice, merge: map<VersionId, VersionId>) {
    && (forall v :: v in merge <==> v in db.versions && Duplicate(db, c, v))
    && forall v :: v in merge ==> merge[v] == Canon(db, c, v)
  }

  function Coalesce(merge: map<VersionId, VersionId>, v: VersionId): VersionId {
    if v in merge then merge[v] else v
  }

  lemma CoalesceIsCanon(db: Db, c: Choice, merge: map<VersionId, VersionId>, v: VersionId)
    requires IsMergeTable(db, c, merge) && v in db.versions
    ensures Coalesce(merge, v) == Canon(db, c, v)
  {
    hide Canon;
  }

  lemma ChosenRows(db: Db, c: Choice)
    requires ChoiceFits(db, c)
    ensures forall k :: k in c.first ==> c.first[k] in c.latest && c.latest[c.first[k]] in db.versions
    ensures forall p :: p in c.taken ==> c.taken[p] in db.versions && Duplicate(db, c, c.taken[p])
  {
    hide Canon, Duplicate, RowKey;
    forall k | k in c.first ensures c.first[k] in c.latest && c.latest[c.first[k]] in db.versions {
      assert IsEarliest(db, c, k, c.first[k]);
      assert IsLatest(db, c.first[k], c.latest[c.first[k]]);
    }
  }

  /** The version a membership row selects. */
  function Selected(c: Choice, merge: map<VersionId, VersionId>, k: (ProjectId, PaperId)): VersionId {
    if k in c.first && c.first[k] in c.latest then Coalesce(merge, c.latest[c.first[k]]) else ""
  }

  lemma SelectedIsCanon(db: Db, c: Choice, merge: map<VersionId, VersionId>, k: (ProjectId, PaperId))
    requires ChoiceFits(db, c) && IsMergeTable(db, c, merge) && k in c.first
    ensures c.first[k] in c.latest && c.latest[c.first[k]] in db.versions
    ensures Selected(c, merge, k) == Canon(db, c, c.latest[c.first[k]])
  {
    ChosenRows(db, c);
    hide ChoiceFits, Canon, IsMergeTable, Coalesce;
    CoalesceIsCanon(db, c, merge, c.latest[c.first[k]]);
  }

  lemma MembersMatch(db: Db, c: Choice, merge: map<VersionId, VersionId>)
    requires ChoiceFits(db, c) && IsMergeTable(db, c, merge)
    ensures (map k | k in c.first :: Selected(c, merge, k)) == Members(db, c)
  {
    hide ChoiceFits, Canon, IsMergeTable, Selected;
    forall k | k in c.first
      ensures c.first[k] in c.latest && c.latest[c.first[k]] in db.versions
      ensures Selected(c, merge, k) == Canon(db, c, c.latest[c.first[k]])
    {
      SelectedIsCanon(db, c, merge, k);
    }
  }

  /** The mark a paper gets, or the one it has. */
  function Target(versions: map<VersionId, Version>, c: Choice, merge: map<VersionId, VersionId>, p: PaperId,
                  before: Option<PaperId>): Option<PaperId> {
    if p in c.taken && c.taken[p] in merge && merge[c.taken[p]] in versions then Some(versions[merge[c.taken[p]]].paper)
    else before
  }

  lemma PointersMatch(db: Db, c: Choice, merge: map<VersionId, VersionId>)
    requires ChoiceFits(db, c) && IsMergeTable(db, c, merge)
    ensures (map p | p in db.papers ::
               db.papers[p].(mergedInto := Target(Flagged(db, c), c, merge, p, db.papers[p].mergedInto))) == Pointed(db, c)
  {
    ChosenRows(db, c);
    hide ChoiceFits, Canon, Duplicate;
  }

  class Migration {
    var papers: map<PaperId, Paper>
    var versions: map<VersionId, Version>
    var members: map<(ProjectId, PaperId), VersionId>
    var keys: map<KeyId, KeyRow>

    constructor (db: Db)
      ensures Tables() == db
    {
      papers, versions, members, keys := db.papers, db.versions, db.members, db.keys;
    }

    function Tables(): Db
      reads this
    {
      Db(papers, versions, members, keys)
    }

    /** The first value of the version's partition, found by one pass over the table. */
    method FirstValue(c: Choice, v: VersionId) returns (f: VersionId)
      requires v in versions && TiesDecided(Tables(), c)
      ensures f in versions && f == Canon(Tables(), c, v)
    {
      hide Canon;
      f := v;
      var rest := versions.Keys;
      while rest != {}
        invariant rest <= versions.Keys
        invariant f in versions && Group(Tables(), v, f)
        invariant forall w :: w in versions && w !in rest && Group(Tables(), v, w) ==> Precedes(Tables(), c, f, w)
        decreases |rest|
      {
        var w :| w in rest;
        if versions[w].owner == versions[v].owner && versions[w].hash == versions[v].hash && !Precedes(Tables(), c, f, w) {
          f := w;
        }
        rest := rest - {w};
      }
      FirstIsUnique(Tables(), c, v, f, Canon(Tables(), c, v));
    }

    /** The temporary table: each duplicate with the canonical version of its partition. */
    method MergeTable(c: Choice) returns (merge: map<VersionId, VersionId>)
      requires TiesDecided(Tables(), c)
      ensures IsMergeTable(Tables(), c, merge)
    {
      hide Canon;
      merge := map[];
      var rest := versions.Keys;
      while rest != {}
        invariant rest <= versions.Keys
        invariant forall v :: v in merge <==> v in versions && v !in rest && Duplicate(Tables(), c, v)
        invariant forall v :: v in merge ==> merge[v] == Canon(Tables(), c, v)
        decreases |rest|
      {
        var v :| v in rest;
        var f := FirstValue(c, v);
        if f != v {
          merge := merge[v := f];
        }
        rest := rest - {v};
      }
    }

    method Upgrade(c: Choice)
      requires Before(Tables()) && ChoiceFits(Tables(), c)
      modifies this
      ensures Tables() == Upgraded(old(Tables()), c)
    {
      ChosenRows(Tables(), c);
      assert TiesDecided(Tables(), c);
      hide Canon, Before, ChoiceFits, IsMergeTable, Members, Flagged, Pointed, Rekeyed;
      var merge := MergeTable(c);
      InsertMembers(c, merge);
      Flag(c, merge, old(Tables()));
      Mark(c, merge, old(Tables()));
      Rekey(c, merge, old(Tables()));
    }

    method InsertMembers(c: Choice, merge: map<VersionId, VersionId>)
      requires ChoiceFits(Tables(), c) && IsMergeTable(Tables(), c, merge)
      modifies `members
      ensures members == Members(old(Tables()), c)
    {
      hide Members, ChoiceFits, IsMergeTable, Selected;
      MembersMatch(Tables(), c, merge);
      members := map k | k in c.first :: Selected(c, merge, k);
    }

    /** UPDATE paper_versions */
    method Flag(c: Choice, merge: map<VersionId, VersionId>, ghost db: Db)
      requires versions == db.versions && IsMergeTable(db, c, merge)
      modifies `versions
      ensures versions == Flagged(db, c)
    {
      hide Canon;
      versions := map v | v in versions :: if v in merge then versions[v].(canonical := false) else versions[v];
    }

    /** UPDATE papers */
    method Mark(c: Choice, merge: map<VersionId, VersionId>, ghost db: Db)
      requires papers == db.papers && versions == Flagged(db, c) && ChoiceFits(db, c) && IsMergeTable(db, c, merge)
      modifies `papers
      ensures papers == Pointed(db, c)
    {
      hide Pointed, ChoiceFits, IsMergeTable, Target;
      PointersMatch(db, c, merge);
      papers := map p | p in papers :: papers[p].(mergedInto := Target(versions, c, merge, p, papers[p].mergedInto));
    }

    /** UPDATE idempotency_keys */
    method Rekey(c: Choice, merge: map<VersionId, VersionId>, ghost db: Db)
      requires keys == db.keys && versions == Flagged(db, c) && IsMergeTable(db, c, merge)
      modifies `keys
      ensures keys == Rekeyed(db, c)
    {
      hide Canon;
      keys := map k | k in keys ::
        var run := keys[k].run;
        if run.version in merge
        then KeyRow(run, Some(versions[merge[run.version]].paper), Some(merge[run.version]), run.status)
        else KeyRow(run, Some(run.paper), Some(run.version), run.status);
    }
  }
}
