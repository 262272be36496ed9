/** Which artifact submissions, rejections and reports are taken, and what each of them writes. */
module ArtifactAnswers {
  import opened Wrappers
  import opened Artifacts
  import opened ArtifactTheorems

  /** Neither the identifier nor the content is on the shelf. */
  predicate NewTo(cs: seq<Candidate>, id: CandidateId, digest: Digest) {
    forall c :: c in cs ==> c.id != id && c.fact.digest != digest
  }

  /** The row that a candidate with this identifier and content meets. */
  predicate Meets(cs: seq<Candidate>, i: nat, id: CandidateId, digest: Digest) {
    && i < |cs|
    && if exists c :: c in cs && c.id == id then cs[i].id == id else cs[i].fact.digest == digest
  }

  lemma MeetsLocated(cs: seq<Candidate>, i: nat, staged: Candidate)
    requires DistinctKeys(cs) && Meets(cs, i, staged.id, staged.fact.digest)
    ensures Locate(cs, staged) == if cs[i].fact == staged.fact then Some(i) else None
  {
    if exists c :: c in cs && c.id == staged.id {
      assert IndexOfId(cs, staged.id) == i;
    } else {
      assert IndexOfId(cs, staged.id) == |cs|;
      assert IndexOfDigest(cs, staged.fact.digest) == i;
    }
  }

  lemma NewIsLocated(cs: seq<Candidate>, staged: Candidate)
    requires NewTo(cs, staged.id, staged.fact.digest)
    ensures Locate(cs, staged) == Some(|cs|)
  {
    assert IndexOfId(cs, staged.id) == |cs| && IndexOfDigest(cs, staged.fact.digest) == |cs|;
  }

  // ---- rejections ----------------------------------------------------------------------------------------------

  /** Content that is new to the turn is entered as rejected, whatever the turn's limits. */
  lemma NewRejectionIsRecorded(shelf: Shelf, toolCall: ToolCallId, fact: Fact, code: string)
    requires NewTo(shelf.candidates, Submission(toolCall), fact.digest)
    ensures Reject(shelf, toolCall, fact, code)
            == (shelf.(candidates := shelf.candidates + [Candidate(Submission(toolCall), fact, Rejected(code))]), Recorded)
  {
    var staged := Candidate(Submission(toolCall), fact, Staged);
    NewIsLocated(shelf.candidates, staged);
    hide Locate;
    assert (shelf.candidates + [staged])[|shelf.candidates| := staged.(stage := Rejected(code))]
        == shelf.candidates + [staged.(stage := Rejected(code))];
  }

  /** A row that is there already is rejected exactly if it is this submission's own and still staged. */
  lemma KnownRejectedIff(shelf: Shelf, i: nat, toolCall: ToolCallId, fact: Fact, code: string)
    requires DistinctKeys(shelf.candidates) && Meets(shelf.candidates, i, Submission(toolCall), fact.digest)
    ensures var (after, reply) := Reject(shelf, toolCall, fact, code);
            && (reply.Recorded? <==> shelf.candidates[i] == Candidate(Submission(toolCall), fact, Staged))
            && (reply.Recorded? ==>
                  after == shelf.(candidates := shelf.candidates[i := Candidate(Submission(toolCall), fact, Rejected(code))]))
            && (!reply.Recorded? ==> after == shelf && reply == Unchanged)
  {
    MeetsLocated(shelf.candidates, i, Candidate(Submission(toolCall), fact, Staged));
    hide Locate, DistinctKeys, Meets;
  }

  /** A rejection that is recorded is final: the same content is never accepted in this turn, and rejecting it again
      changes nothing. */
  lemma RejectionIsFinal(shelf: Shelf, toolCall: ToolCallId, fact: Fact, code: string, again: string, fence: Fence)
    requires Sound(shelf) && Reject(shelf, toolCall, fact, code).1.Recorded?
    ensures var after := Reject(shelf, toolCall, fact, code).0;
            && Submit(after, toolCall, fact, fence) == (after, Refused)
            && Reject(after, toolCall, fact, again) == (after, Unchanged)
  {
    RejectKeeps(shelf, toolCall, fact, code);
    var after := Reject(shelf, toolCall, fact, code).0;
    var at := Locate(shelf.candidates, Candidate(Submission(toolCall), fact, Staged)).value;
    assert after.candidates[at] == Candidate(Submission(toolCall), fact, Rejected(code));
    hide Reject, Sound, Submit, Locate;
    assert DistinctKeys(after.candidates) by { SoundIsDistinct(after); }
    KnownRejectedIff(after, at, toolCall, fact, again);
    KnownSubmission(after, at, toolCall, fact, fence);
  }

  lemma SoundIsDistinct(shelf: Shelf)
    requires Sound(shelf)
    ensures DistinctKeys(shelf.candidates)
  {
  }

  // ---- submissions -----------------------------------------------------------------------------------------------

  /** A submission that meets a row: it is answered from a reviewed row with the same content, passes a staged row of its
      own within the limits, and is refused otherwise. */
  lemma KnownSubmission(shelf: Shelf, i: nat, toolCall: ToolCallId, fact: Fact, fence: Fence)
    requires DistinctKeys(shelf.candidates) && Meets(shelf.candidates, i, Submission(toolCall), fact.digest)
    ensures var (after, reply) := Submit(shelf, toolCall, fact, fence); var row := shelf.candidates[i];
            && (reply == Unchanged <==> row.fact == fact && IsReviewed(row))
            && (reply == Recorded <==> row == Candidate(Submission(toolCall), fact, Staged) && WithinBudget(shelf.candidates))
            && (reply == Recorded ==>
                  after == shelf.(candidates := shelf.candidates[i := Candidate(Submission(toolCall), fact, Validated(toolCall, fence))]))
            && (reply != Recorded ==> after == shelf)
  {
    MeetsLocated(shelf.candidates, i, Candidate(Submission(toolCall), fact, Staged));
    hide Locate, DistinctKeys, Meets, WithinBudget;
  }

  // ---- reports ------------------------------------------------------------------------------------------------------

  /** A row that shares the identifier or the content with the candidate describes the same. */
  predicate NoClash(cs: seq<Candidate>, c: Candidate) {
    forall d :: d in cs && (d.id == c.id || d.fact.digest == c.fact.digest) ==> d.fact == c.fact
  }

  /** Staging one more candidate fails if and only if it clashes with a row, adds it if it is new and else leaves the rows. */
  lemma StagingOne(cs: seq<Candidate>, c: Candidate)
    requires DistinctKeys(cs)
    ensures GetOrAdd(cs, c).Some? <==> NoClash(cs, c)
    ensures NoClash(cs, c) ==> GetOrAdd(cs, c) == Some(if NewTo(cs, c.id, c.fact.digest) then cs + [c] else cs)
    ensures NoClash(cs, c) && !NewTo(cs, c.id, c.fact.digest) ==> Describes(cs, c.fact)
    ensures NoClash(cs, c) && NewTo(cs, c.id, c.fact.digest) ==> DistinctKeys(cs + [c])
  {
    if NewTo(cs, c.id, c.fact.digest) {
      NewIsLocated(cs, c);
      hide Locate;
    } else {
      var i := MetRow(cs, c);
      MeetsLocated(cs, i, c);
      MetDecides(cs, i, c);
      hide Locate, Meets, DistinctKeys, NoClash;
    }
  }

  lemma MetRow(cs: seq<Candidate>, c: Candidate) returns (i: nat)
    requires !NewTo(cs, c.id, c.fact.digest)
    ensures Meets(cs, i, c.id, c.fact.digest)
  {
    if d :| d in cs && d.id == c.id {
      i :| 0 <= i < |cs| && cs[i].id == c.id;
    } else {
      i :| 0 <= i < |cs| && cs[i].fact.digest == c.fact.digest;
    }
  }

  lemma MetDecides(cs: seq<Candidate>, i: nat, c: Candidate)
    requires DistinctKeys(cs) && Meets(cs, i, c.id, c.fact.digest)
    ensures NoClash(cs, c) <==> cs[i].fact == c.fact
    ensures cs[i].fact == c.fact ==> Describes(cs, c.fact)
  {
    assert cs[i] in cs;
    if cs[i].fact == c.fact {
      forall j | 0 <= j < |cs| && (cs[j].id == c.id || cs[j].fact.digest == c.fact.digest) ensures j == i {
        assert cs[j] in cs;
      }
    }
  }

  /** The report clashes: one of its candidates does with the rows and what was staged before it. */
  ghost predicate Clashes(cs: seq<Candidate>, requested: seq<Candidate>) {
    exists k :: ClashesAt(cs, requested, k)
  }

  predicate ClashesAt(cs: seq<Candidate>, requested: seq<Candidate>, k: int) {
    && 0 <= k < |requested|
    && StageAll(cs, requested[..k]).Some? && !NoClash(StageAll(cs, requested[..k]).value, requested[k])
  }

  /** A report is staged unless one of its candidates clashes; the rows before it stay in their order, every reported
      content is then described by a row, and each row that was added was reported. */
  lemma {:induction false} StagedUnlessClash(cs: seq<Candidate>, requested: seq<Candidate>)
    requires DistinctKeys(cs)
    ensures StageAll(cs, requested).Some? <==> !Clashes(cs, requested)
    ensures StageAll(cs, requested).Some? ==> Staging(cs, requested, StageAll(cs, requested).value)
  {
    hide StageAll, Staging, DistinctKeys, ClashesAt, GetOrAdd;
    if requested == [] {
      StagingNothing(cs);
    } else {
      var n := |requested| - 1;
      StagedUnlessClash(cs, requested[..n]);
      ClashNext(cs, requested);
      if StageAll(cs, requested[..n]).Some? {
        StagingLast(cs, requested);
      } else {
        FailedForGood(cs, requested);
      }
    }
  }

  lemma FailedForGood(cs: seq<Candidate>, requested: seq<Candidate>)
    requires requested != [] && StageAll(cs, requested[..|requested| - 1]).None?
    ensures StageAll(cs, requested).None?
  {
  }

  lemma StagingNothing(cs: seq<Candidate>)
    requires DistinctKeys(cs)
    ensures StageAll(cs, []) == Some(cs) && Staging(cs, [], cs) && !Clashes(cs, [])
  {
    hide DistinctKeys;
  }

  lemma ClashNext(cs: seq<Candidate>, requested: seq<Candidate>)
    requires requested != []
    ensures var n := |requested| - 1;
            Clashes(cs, requested) <==> Clashes(cs, requested[..n]) || ClashesAt(cs, requested, n)
  {
    var n := |requested| - 1;
    var shorter := requested[..n];
    hide StageAll, NoClash;
    assert forall k :: 0 <= k < n ==> shorter[..k] == requested[..k];
    assert forall k :: 0 <= k < n ==> (ClashesAt(cs, requested, k) <==> ClashesAt(cs, shorter, k));
    if Clashes(cs, shorter) {
      var k :| ClashesAt(cs, shorter, k);
      assert ClashesAt(cs, requested, k);
    }
  }

  /** The last candidate of a report, once the ones before it are staged. */
  lemma StagingLast(cs: seq<Candidate>, requested: seq<Candidate>)
    requires requested != [] && StageAll(cs, requested[..|requested| - 1]).Some?
    requires Staging(cs, requested[..|requested| - 1], StageAll(cs, requested[..|requested| - 1]).value)
    ensures StageAll(cs, requested).Some? <==> !ClashesAt(cs, requested, |requested| - 1)
    ensures StageAll(cs, requested).Some? ==> Staging(cs, requested, StageAll(cs, requested).value)
  {
    var n := |requested| - 1;
    var before := StageAll(cs, requested[..n]).value;
    assert StageAll(cs, requested) == GetOrAdd(before, requested[n]);
    assert ClashesAt(cs, requested, n) <==> !NoClash(before, requested[n]);
    hide StageAll;
    assert DistinctKeys(before);
    hide DistinctKeys, GetOrAdd, NoClash, NewTo;
    StagingOne(before, requested[n]);
    if NoClash(before, requested[n]) {
      StagingNext(cs, requested, before, GetOrAdd(before, requested[n]).value);
    }
  }

  ghost predicate Staging(cs: seq<Candidate>, requested: seq<Candidate>, staged: seq<Candidate>) {
    && cs <= staged && DistinctKeys(staged)
    && (forall k :: 0 <= k < |requested| ==> Describes(staged, requested[k].fact))
    && forall i :: |cs| <= i < |staged| ==> staged[i] in requested
  }

  lemma StagingNext(cs: seq<Candidate>, requested: seq<Candidate>, before: seq<Candidate>, after: seq<Candidate>)
    requires requested != [] && Staging(cs, requested[..|requested| - 1], before) && DistinctKeys(after)
    requires var c := requested[|requested| - 1]; after == before + [c] || (after == before && Describes(before, c.fact))
    ensures Staging(cs, requested, after)
  {
    var n := |requested| - 1;
    hide DistinctKeys;
    forall k | 0 <= k < |requested| ensures Describes(after, requested[k].fact) {
      if k < n {
        assert Describes(before, requested[..n][k].fact);
        var i :| 0 <= i < |before| && before[i].fact == requested[k].fact;
        assert after[i] == before[i];
      } else if after != before {
        assert after[|before|].fact == requested[n].fact;
      }
    }
    forall i | |cs| <= i < |after| ensures after[i] in requested {
      if i < |before| { assert before[i] in requested[..n]; }
    }
  }

  // ---- orders ---------------------------------------------------------------------------------------------------------

  /** The deduplicated report keeps the order in which the contents were first reported. */
  lemma {:induction false} RequestedInOrder(reports: seq<Report>, i: nat, j: nat, a: nat, b: nat)
    requires i < j < |Requested(reports)|
    requires FirstReported(reports, a, Requested(reports)[i]) && FirstReported(reports, b, Requested(reports)[j])
    ensures a < b
  {
    var n := |reports| - 1;
    var earlier := Requested(reports[..n]);
    if j < |earlier| {
      EarlierFirst(reports, earlier[i], a);
      EarlierFirst(reports, earlier[j], b);
      RequestedInOrder(reports[..n], i, j, a, b);
    } else {
      EarlierFirst(reports, earlier[i], a);
      LastIsFirst(reports, Requested(reports)[j], b);
    }
  }

  lemma LastIsFirst(reports: seq<Report>, c: Candidate, k: nat)
    requires reports != [] && c.fact == reports[|reports| - 1].fact && FirstReported(reports, k, c)
    requires !Describes(Requested(reports[..|reports| - 1]), c.fact)
    ensures k == |reports| - 1
  {
    var n := |reports| - 1;
    RequestedOnceEach(reports[..n]);
    assert forall j :: 0 <= j < n ==> reports[..n][j] == reports[j];
    hide Requested;
  }

  /** A candidate that was requested before the last report was first reported before it. */
  lemma EarlierFirst(reports: seq<Report>, c: Candidate, k: nat)
    requires reports != [] && c in Requested(reports[..|reports| - 1]) && FirstReported(reports, k, c)
    ensures k < |reports| - 1 && FirstReported(reports[..|reports| - 1], k, c)
  {
    RequestedOnceEach(reports[..|reports| - 1]);
    var first :| FirstReported(reports[..|reports| - 1], first, c);
    assert reports[first].fact == c.fact;
  }

  /** Artifacts are listed in the order of their candidates: each one has those of the passing candidates before it in front. */
  lemma {:induction false} ArtifactsInOrder(cs: seq<Candidate>, p: Candidate -> bool, i: nat)
    requires i < |cs| && p(cs[i])
    ensures Count(cs[..i], p) < |ArtifactsOf(cs, p)| && ArtifactsOf(cs, p)[Count(cs[..i], p)] == ArtifactOf(cs[i])
  {
    var n := |cs| - 1;
    ArtifactsOfCounts(cs[..n], p);
    if i < n {
      ArtifactsInOrder(cs[..n], p, i);
      assert cs[..n][..i] == cs[..i];
    }
  }
}
