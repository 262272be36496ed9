/** Artifact rows of one turn as the repositories change them, and the loops that run over them. */
module ArtifactServices {
  import opened Wrappers
  import opened Artifacts
  import opened ArtifactTheorems

  /** The candidate and artifact rows of one turn, inside one transaction. */
  class ArtifactRows {
    var candidates: seq<Candidate>
    var artifacts: seq<Artifact>

    constructor (shelf: Shelf)
      ensures Contents() == shelf
    {
      candidates := shelf.candidates;
      artifacts := shelf.artifacts;
    }

    function Contents(): Shelf
      reads this
    {
      Shelf(candidates, artifacts)
    }

    /** Inserts unless the identifier or the content is known; raises when the known row differs. */
    method GetOrAddCandidate(value: Candidate) returns (found: Option<Candidate>)
      modifies `candidates
      ensures var at := Locate(old(candidates), value);
              && found.Some? == at.Some?
              && candidates == (if at == Some(|old(candidates)|) then old(candidates) + [value] else old(candidates))
              && (at.Some? ==> found == Some(candidates[at.value]))
    {
      var byId := IndexOfId(candidates, value.id);
      if byId < |candidates| {
        return if candidates[byId].fact == value.fact then Some(candidates[byId]) else None;
      }
      var byDigest := IndexOfDigest(candidates, value.fact.digest);
      if byDigest < |candidates| {
        return if candidates[byDigest].fact == value.fact then Some(candidates[byDigest]) else None;
      }
      candidates := candidates + [value];
      return Some(value);
    }

    /** Writes the new stage to the row with this identifier if that row is still staged, or still
        validated; says whether it was. */
    method SaveCandidate(value: Candidate, fromStaged: bool) returns (saved: bool)
      modifies `candidates
      ensures var at := IndexOfId(old(candidates), value.id);
              && saved == (at < |old(candidates)|
                           && if fromStaged then old(candidates)[at].stage.Staged? else old(candidates)[at].stage.Validated?)
              && candidates == if saved then old(candidates)[at := old(candidates)[at].(stage := value.stage)] else old(candidates)
    {
      var at := IndexOfId(candidates, value.id);
      saved := at < |candidates| && if fromStaged then candidates[at].stage.Staged? else candidates[at].stage.Validated?;
      if saved {
        candidates := candidates[at := candidates[at].(stage := value.stage)];
      }
    }

    /** Inserts unless the candidate already has an artifact; raises when that one differs. */
    method AddArtifactIfAbsent(value: Artifact) returns (found: Option<Artifact>)
      modifies `artifacts
      ensures found.Some? ==> found.value == value && value in artifacts
      ensures artifacts == if exists a :: a in old(artifacts) && a.candidate == value.candidate then old(artifacts)
                           else old(artifacts) + [value]
      ensures (forall a :: a in old(artifacts) ==> a.candidate != value.candidate) ==> found == Some(value)
    {
      if exists a :: a in artifacts && a.candidate == value.candidate {
        found := if value in artifacts then Some(value) else None;
      } else {
        artifacts := artifacts + [value];
        found := Some(value);
      }
    }
  }

  // ---- the executor's loops -----------------------------------------------------------------------

  /** The runtime's report without repeated contents. */
  method Deduplicate(reports: seq<Report>) returns (requested: seq<Candidate>)
    ensures requested == Requested(reports)
  {
    requested := [];
    for i := 0 to |reports|
      invariant requested == Requested(reports[..i])
    {
      assert reports[..i + 1][..i] == reports[..i];
      var known := exists k :: 0 <= k < |requested| && requested[k].fact == reports[i].fact;
      if !known {
        requested := requested + [Candidate(Reported(reports[i].name), reports[i].fact, Staged)];
      }
    }
    assert reports[..|reports|] == reports;
  }

  /** Stages every reported candidate; false means that a row with other content was in the way. */
  method StageCandidates(rows: ArtifactRows, requested: seq<Candidate>) returns (staged: bool)
    modifies rows
    ensures staged == StageAll(old(rows.candidates), requested).Some?
    ensures staged ==> rows.candidates == StageAll(old(rows.candidates), requested).value
    ensures rows.artifacts == old(rows.artifacts)
  {
    for i := 0 to |requested|
      invariant StageAll(old(rows.candidates), requested[..i]) == Some(rows.candidates)
      invariant rows.artifacts == old(rows.artifacts)
    {
      assert requested[..i + 1][..i] == requested[..i];
      var found := rows.GetOrAddCandidate(requested[i]);
      if found.None? {
        StageAllFails(old(rows.candidates), requested, i + 1);
        return false;
      }
    }
    assert requested[..|requested|] == requested;
    return true;
  }

  lemma {:induction false} StageAllFails(cs: seq<Candidate>, requested: seq<Candidate>, n: nat)
    requires n <= |requested| && StageAll(cs, requested[..n]).None?
    ensures StageAll(cs, requested).None?
  {
    if n < |requested| {
      var shorter := requested[..|requested| - 1];
      assert shorter[..n] == requested[..n];
      StageAllFails(cs, shorter, n);
    } else {
      assert requested[..n] == requested;
    }
  }

  // ---- publication --------------------------------------------------------------------------------

  function ArtifactFor(arts: seq<Artifact>, id: CandidateId): (found: Option<Artifact>)
    ensures found.Some? ==> found.value in arts && found.value.candidate == id
    ensures found.None? ==> forall a :: a in arts ==> a.candidate != id
  {
    if arts == [] then None
    else if arts[0].candidate == id then Some(arts[0])
    else ArtifactFor(arts[1..], id)
  }

  /** The rows when the first n candidates have been dealt with. */
  ghost predicate PublishedSoFar(before: Shelf, rows: Shelf, n: nat)
    requires n <= |before.candidates|
  {
    && |rows.candidates| == |before.candidates|
    && (forall j :: 0 <= j < n ==> rows.candidates[j] == Commit(before.candidates[j]))
    && (forall j :: n <= j < |before.candidates| ==> rows.candidates[j] == before.candidates[j])
    && rows.artifacts == before.artifacts + ArtifactsOf(before.candidates[..n], IsValidated)
  }

  lemma NoArtifactYet(before: Shelf, n: nat)
    requires Sound(before) && n < |before.candidates| && before.candidates[n].stage.Validated?
    ensures forall a :: a in before.artifacts + ArtifactsOf(before.candidates[..n], IsValidated)
              ==> a.candidate != before.candidates[n].id
  {
    var cs := before.candidates;
    ArtifactsOfMembers(cs[..n], IsValidated);
    forall a | a in before.artifacts ensures a.candidate != cs[n].id {
      if a.candidate == cs[n].id { BackedById(cs, a, n); }
    }
    forall a | a in ArtifactsOf(cs[..n], IsValidated) ensures a.candidate != cs[n].id {
      assert Backed(cs[..n], a);
    }
  }

  lemma CommittedHasArtifact(before: Shelf, n: nat)
    requires Sound(before) && n < |before.candidates| && before.candidates[n].stage.Committed?
    ensures ArtifactFor(before.artifacts, before.candidates[n].id) == Some(ArtifactOf(before.candidates[n]))
  {
    var found := ArtifactFor(before.artifacts, before.candidates[n].id);
    assert ArtifactOf(before.candidates[n]) in before.artifacts;
    assert Backed(before.candidates, found.value);
    BackedById(before.candidates, found.value, n);
  }

  /** One candidate: a committed one yields its artifact, a validated one is committed and gets one, others are
      passed over. None stands for a lost fence. */
  method PublishOne(rows: ArtifactRows, existing: seq<Artifact>, candidate: Candidate, current: set<Fence>,
                    ghost before: Shelf, ghost i: nat) returns (published: Option<seq<Artifact>>)
    requires Sound(before) && existing == before.artifacts
    requires i < |before.candidates| && candidate == before.candidates[i] && PublishedSoFar(before, rows.Contents(), i)
    modifies rows
    ensures published.None? <==> candidate.stage.Validated? && candidate.stage.fence !in current
    ensures published.Some? ==>
              && PublishedSoFar(before, rows.Contents(), i + 1)
              && published.value == if IsReviewed(candidate) then [ArtifactOf(candidate)] else []
  {
    hide Sound, Count, Bytes;
    assert before.candidates[..i + 1][..i] == before.candidates[..i];
    if candidate.stage.Committed? {
      CommittedHasArtifact(before, i);
      return Some([ArtifactFor(existing, candidate.id).value]);
    } else if candidate.stage.Validated? {
      if candidate.stage.fence !in current {
        return None;
      }
      var committed := candidate.(stage := Committed(candidate.stage.toolCall, candidate.stage.fence));
      OwnRow(before, rows.candidates, i);
      var saved := rows.SaveCandidate(committed, false);
      assert saved;
      NoArtifactYet(before, i);
      var artifact := rows.AddArtifactIfAbsent(ArtifactOf(committed));
      return Some([artifact.value]);
    }
    return Some([]);
  }

  /** Publishing for a successful turn. None stands for an exception: here only a lost fence, because a
      committed row has its artifact and nothing competes for the rows. */
  method PublishForSuccess(rows: ArtifactRows, current: set<Fence>) returns (published: Option<seq<Artifact>>)
    requires Sound(rows.Contents())
    modifies rows
    ensures var publication := Publish(old(rows.Contents()), current);
            && published.Some? == publication.Some?
            && (publication.Some? ==> published.value == publication.value.published
                                      && rows.Contents() == publication.value.shelf)
  {
    hide Sound, Count, Bytes, IsReviewed;
    ghost var before := rows.Contents();
    var existing := rows.artifacts;
    var listed := rows.candidates;
    var collected := [];
    assert PublishedSoFar(before, before, 0) by { assert listed[..0] == []; }
    for i := 0 to |listed|
      invariant PublishedSoFar(before, rows.Contents(), i)
      invariant collected == ArtifactsOf(listed[..i], IsReviewed)
      invariant forall k :: 0 <= k < i && listed[k].stage.Validated? ==> listed[k].stage.fence in current
    {
      assert listed[..i + 1][..i] == listed[..i];
      var one := PublishOne(rows, existing, listed[i], current, before, i);
      if one.None? {
        return None;
      }
      collected := collected + one.value;
    }
    assert listed[..|listed|] == listed;
    assert rows.candidates == CommitAll(listed);
    return Some(collected);
  }

  /** Identifiers are distinct, so a write by identifier meets its own row. */
  lemma OwnRow(before: Shelf, now: seq<Candidate>, i: nat)
    requires Sound(before) && i < |before.candidates| == |now|
    requires forall j :: 0 <= j < |now| ==> now[j].id == before.candidates[j].id
    ensures IndexOfId(now, before.candidates[i].id) == i
  {
    assert DistinctKeys(before.candidates);
  }
}
