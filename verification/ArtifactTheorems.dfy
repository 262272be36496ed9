/** What every sequence of artifact transactions keeps. */
module ArtifactTheorems {
  import opened Wrappers
  import opened Artifacts

  // ---- counting -------------------------------------------------------------------------------

  lemma CountAppend(cs: seq<Candidate>, c: Candidate, p: Candidate -> bool)
    ensures Count(cs + [c], p) == Count(cs, p) + (if p(c) then 1 else 0)
    ensures Bytes(cs + [c], p) == Bytes(cs, p) + (if p(c) then c.fact.size else 0)
  {
    assert (cs + [c])[..|cs|] == cs;
  }

  /** Replacing one candidate by another of the same content moves only that candidate's share. */
  lemma {:induction false} CountUpdate(cs: seq<Candidate>, i: nat, c: Candidate, p: Candidate -> bool)
    requires i < |cs| && c.fact == cs[i].fact
    ensures Count(cs[i := c], p) + (if p(cs[i]) then 1 else 0) == Count(cs, p) + (if p(c) then 1 else 0)
    ensures Bytes(cs[i := c], p) + (if p(cs[i]) then c.fact.size else 0)
            == Bytes(cs, p) + (if p(c) then c.fact.size else 0)
  {
    var n := |cs| - 1;
    if i == n {
      assert cs[i := c][..n] == cs[..n];
    } else {
      assert cs[i := c][..n] == cs[..n][i := c];
      CountUpdate(cs[..n], i, c, p);
    }
  }

  /** A weaker test counts at least as much. */
  lemma {:induction false} CountMonotone(cs: seq<Candidate>, p: Candidate -> bool, q: Candidate -> bool)
    requires forall c :: c in cs && p(c) ==> q(c)
    ensures Count(cs, p) <= Count(cs, q) && Bytes(cs, p) <= Bytes(cs, q)
  {
    if cs != [] {
      CountMonotone(cs[..|cs| - 1], p, q);
    }
  }

  // ---- submissions ----------------------------------------------------------------------------

  lemma SubmitKeeps(shelf: Shelf, toolCall: ToolCallId, fact: Fact, fence: Fence)
    requires Sound(shelf)
    ensures Sound(Submit(shelf, toolCall, fact, fence).0)
  {
    var staged := Candidate(Submission(toolCall), fact, Staged);
    var at := Locate(shelf.candidates, staged);
    var (after, reply) := Submit(shelf, toolCall, fact, fence);
    if reply.Recorded? {
      var cs := if at.value < |shelf.candidates| then shelf.candidates else shelf.candidates + [staged];
      AddedKeeps(shelf, staged, cs, at.value);
      var c := staged.(stage := Validated(toolCall, fence));
      CountUpdate(cs, at.value, c, IsAccepted);
      CountMonotone(after.candidates, IsReviewed, IsAccepted);
      ReplaceUncommitted(Shelf(cs, shelf.artifacts), at.value, c);
    }
  }

  lemma RejectKeeps(shelf: Shelf, toolCall: ToolCallId, fact: Fact, code: string)
    requires Sound(shelf)
    ensures Sound(Reject(shelf, toolCall, fact, code).0)
  {
    var staged := Candidate(Submission(toolCall), fact, Staged);
    var at := Locate(shelf.candidates, staged);
    var (after, reply) := Reject(shelf, toolCall, fact, code);
    if reply.Recorded? {
      var cs := if at.value < |shelf.candidates| then shelf.candidates else shelf.candidates + [staged];
      AddedKeeps(shelf, staged, cs, at.value);
      var c := staged.(stage := Rejected(code));
      CountUpdate(cs, at.value, c, IsReviewed);
      ReplaceUncommitted(Shelf(cs, shelf.artifacts), at.value, c);
    }
  }

  /** An artifact belongs to one candidate: a candidate with another identifier does not have it. */
  lemma BackedById(cs: seq<Candidate>, a: Artifact, i: nat)
    requires DistinctKeys(cs) && i < |cs| && Backed(cs, a) && cs[i].id == a.candidate
    ensures ArtifactOf(cs[i]) == a
  {
    var j :| 0 <= j < |cs| && ArtifactOf(cs[j]) == a;
    assert i == j;
  }

  lemma AddedKeeps(shelf: Shelf, staged: Candidate, cs: seq<Candidate>, at: nat)
    requires Sound(shelf) && staged.stage.Staged?
    requires Locate(shelf.candidates, staged) == Some(at)
    requires cs == if at < |shelf.candidates| then shelf.candidates else shelf.candidates + [staged]
    ensures Sound(Shelf(cs, shelf.artifacts))
    ensures at < |cs| && cs[at].fact == staged.fact
  {
    if at == |shelf.candidates| {
      CountAppend(shelf.candidates, staged, IsReviewed);
      CountAppend(shelf.candidates, staged, IsCommitted);
      forall a | a in shelf.artifacts ensures Backed(cs, a) && ArtifactOf(staged) != a {
        var i :| 0 <= i < |shelf.candidates| && ArtifactOf(shelf.candidates[i]) == a;
        assert ArtifactOf(cs[i]) == a;
      }
      assert Matched(cs, shelf.artifacts);
    }
  }

  /** Moving an uncommitted candidate to another uncommitted stage leaves the artifacts matched. */
  lemma ReplaceUncommitted(shelf: Shelf, i: nat, c: Candidate)
    requires Sound(shelf) && i < |shelf.candidates|
    requires !IsCommitted(shelf.candidates[i]) && !IsCommitted(c)
    requires c.id == shelf.candidates[i].id && c.fact == shelf.candidates[i].fact
    requires Count(shelf.candidates[i := c], IsReviewed) <= MAX_PER_TURN
    requires Bytes(shelf.candidates[i := c], IsReviewed) <= MAX_TOTAL_BYTES
    ensures Sound(Shelf(shelf.candidates[i := c], shelf.artifacts))
  {
    var cs := shelf.candidates[i := c];
    CountUpdate(shelf.candidates, i, c, IsCommitted);
    assert forall k :: 0 <= k < |cs| ==> ArtifactOf(cs[k]) == ArtifactOf(shelf.candidates[k]);
    assert Matched(cs, shelf.artifacts) by {
      forall a | a in shelf.artifacts ensures Backed(cs, a) {
        var k :| 0 <= k < |shelf.candidates| && ArtifactOf(shelf.candidates[k]) == a;
        assert ArtifactOf(cs[k]) == a;
      }
    }
  }

  /** A submission or rejection leaves no candidate staged and touches no artifact. */
  lemma NothingLeftStaged(shelf: Shelf, toolCall: ToolCallId, fact: Fact, fence: Fence, code: string)
    requires NoneStaged(shelf.candidates)
    ensures NoneStaged(Submit(shelf, toolCall, fact, fence).0.candidates)
    ensures NoneStaged(Reject(shelf, toolCall, fact, code).0.candidates)
    ensures Submit(shelf, toolCall, fact, fence).0.artifacts == shelf.artifacts
    ensures Reject(shelf, toolCall, fact, code).0.artifacts == shelf.artifacts
  {
  }

  // ---- staging and publication ------------------------------------------------------------------

  lemma {:induction false} StageAllKeeps(shelf: Shelf, requested: seq<Candidate>)
    requires Sound(shelf)
    requires forall c :: c in requested ==> c.stage.Staged?
    requires StageAll(shelf.candidates, requested).Some?
    ensures Sound(Shelf(StageAll(shelf.candidates, requested).value, shelf.artifacts))
  {
    if requested != [] {
      var n := |requested| - 1;
      assert forall c :: c in requested[..n] ==> c in requested;
      StageAllKeeps(shelf, requested[..n]);
      var before := StageAll(shelf.candidates, requested[..n]).value;
      var at := Locate(before, requested[n]).value;
      AddedKeeps(Shelf(before, shelf.artifacts), requested[n], StageAll(shelf.candidates, requested).value, at);
    }
  }

  lemma {:induction false} CommitAllCounts(cs: seq<Candidate>)
    ensures Count(CommitAll(cs), IsCommitted) == Count(cs, IsReviewed)
    ensures Bytes(CommitAll(cs), IsCommitted) == Bytes(cs, IsReviewed)
    ensures Count(CommitAll(cs), IsReviewed) == Count(cs, IsReviewed)
    ensures Bytes(CommitAll(cs), IsReviewed) == Bytes(cs, IsReviewed)
    ensures Count(cs, IsReviewed) == Count(cs, IsCommitted) + Count(cs, IsValidated)
    ensures Bytes(cs, IsReviewed) == Bytes(cs, IsCommitted) + Bytes(cs, IsValidated)
  {
    if cs != [] {
      CommitAllCounts(cs[..|cs| - 1]);
      assert CommitAll(cs)[..|cs| - 1] == CommitAll(cs[..|cs| - 1]);
    }
  }

  lemma {:induction false} ArtifactsOfCounts(cs: seq<Candidate>, p: Candidate -> bool)
    ensures |ArtifactsOf(cs, p)| == Count(cs, p)
    ensures ArtifactBytes(ArtifactsOf(cs, p)) == Bytes(cs, p)
  {
    if cs != [] {
      var n := |cs| - 1;
      ArtifactsOfCounts(cs[..n], p);
      if !p(cs[n]) {
        assert ArtifactsOf(cs[..n], p) + [] == ArtifactsOf(cs[..n], p);
      } else {
        assert ArtifactsOf(cs, p)[..|ArtifactsOf(cs[..n], p)|] == ArtifactsOf(cs[..n], p);
      }
    }
  }

  /** The artifacts listed are those of the candidates that pass, each once. */
  lemma {:induction false} ArtifactsOfMembers(cs: seq<Candidate>, p: Candidate -> bool)
    requires DistinctKeys(cs)
    ensures forall i :: 0 <= i < |cs| ==> (p(cs[i]) <==> ArtifactOf(cs[i]) in ArtifactsOf(cs, p))
    ensures forall a :: a in ArtifactsOf(cs, p) ==> Backed(cs, a)
    ensures forall i, j :: 0 <= i < j < |ArtifactsOf(cs, p)| ==>
              ArtifactsOf(cs, p)[i].candidate != ArtifactsOf(cs, p)[j].candidate
  {
    if cs != [] {
      var n := |cs| - 1;
      ArtifactsOfMembers(cs[..n], p);
      var arts := ArtifactsOf(cs[..n], p);
      forall a | a in arts ensures Backed(cs, a) && a.candidate != cs[n].id {
        var i :| 0 <= i < n && ArtifactOf(cs[..n][i]) == a;
        assert ArtifactOf(cs[i]) == a;
      }
      assert ArtifactOf(cs[n]) !in arts;
      forall i | 0 <= i < |cs| ensures p(cs[i]) <==> ArtifactOf(cs[i]) in ArtifactsOf(cs, p) {
        if i < n {
          assert cs[..n][i] == cs[i] && ArtifactOf(cs[i]) != ArtifactOf(cs[n]);
        }
      }
    }
  }

  lemma {:induction false} ArtifactBytesAppend(a: seq<Artifact>, b: seq<Artifact>)
    ensures ArtifactBytes(a + b) == ArtifactBytes(a) + ArtifactBytes(b)
  {
    if b == [] {
      assert a + b == a;
    } else {
      assert (a + b)[..|a + b| - 1] == a + b[..|b| - 1];
      ArtifactBytesAppend(a, b[..|b| - 1]);
    }
  }

  lemma PublishMatches(cs: seq<Candidate>, arts: seq<Artifact>)
    requires DistinctKeys(cs) && Matched(cs, arts)
    ensures Matched(CommitAll(cs), arts + ArtifactsOf(cs, IsValidated))
  {
    var added := ArtifactsOf(cs, IsValidated);
    ArtifactsOfMembers(cs, IsValidated);
    forall a, b | a in arts && b in added ensures a.candidate != b.candidate {
      if a.candidate == b.candidate {
        var i :| 0 <= i < |cs| && ArtifactOf(cs[i]) == b;
        BackedById(cs, a, i);
        assert false;
      }
    }
    forall a | a in arts + added ensures Backed(CommitAll(cs), a) {
      assert Backed(cs, a);
      var i :| 0 <= i < |cs| && ArtifactOf(cs[i]) == a;
      assert ArtifactOf(CommitAll(cs)[i]) == a;
    }
    forall i | 0 <= i < |cs|
      ensures IsCommitted(CommitAll(cs)[i]) <==> ArtifactOf(CommitAll(cs)[i]) in arts + added
    {
      assert ArtifactOf(CommitAll(cs)[i]) == ArtifactOf(cs[i]);
    }
  }

  /** Publication keeps the shelf sound; in particular the artifacts of a turn number at most eight
      and total at most fifty mebibytes even when staged candidates exceed both. */
  lemma PublishKeeps(shelf: Shelf, current: set<Fence>)
    requires Sound(shelf) && Publish(shelf, current).Some?
    ensures Sound(Publish(shelf, current).value.shelf)
    ensures |Publish(shelf, current).value.shelf.artifacts| <= MAX_PER_TURN
    ensures ArtifactBytes(Publish(shelf, current).value.shelf.artifacts) <= MAX_TOTAL_BYTES
  {
    CommitAllCounts(shelf.candidates);
    ArtifactsOfCounts(shelf.candidates, IsValidated);
    ArtifactBytesAppend(shelf.artifacts, ArtifactsOf(shelf.candidates, IsValidated));
    PublishMatches(shelf.candidates, shelf.artifacts);
  }

  /** Publishing again changes nothing and returns the same artifacts. */
  lemma PublishAgain(shelf: Shelf, current: set<Fence>, later: set<Fence>)
    requires Publish(shelf, current).Some?
    ensures Publish(Publish(shelf, current).value.shelf, later) == Publish(shelf, current)
  {
    var first := Publish(shelf, current).value;
    CommitAllArtifacts(shelf.candidates);
    assert CommitAll(CommitAll(shelf.candidates)) == CommitAll(shelf.candidates);
    assert first.shelf.artifacts + [] == first.shelf.artifacts;
  }

  lemma {:induction false} CommitAllArtifacts(cs: seq<Candidate>)
    ensures ArtifactsOf(CommitAll(cs), IsReviewed) == ArtifactsOf(cs, IsReviewed)
    ensures ArtifactsOf(CommitAll(cs), IsValidated) == []
  {
    if cs != [] {
      CommitAllArtifacts(cs[..|cs| - 1]);
      assert CommitAll(cs)[..|cs| - 1] == CommitAll(cs[..|cs| - 1]);
    }
  }

  /** The list holds the artifacts of exactly the candidates that pass. */
  ghost predicate Lists(cs: seq<Candidate>, p: Candidate -> bool, arts: seq<Artifact>) {
    && (forall i :: 0 <= i < |cs| ==> (p(cs[i]) <==> ArtifactOf(cs[i]) in arts))
    && (forall a :: a in arts ==> Backed(cs, a))
  }

  lemma SameMembers(cs: seq<Candidate>, p: Candidate -> bool, a: seq<Artifact>, b: seq<Artifact>)
    requires Lists(cs, p, a) && Lists(cs, p, b)
    ensures forall x :: x in a ==> x in b
  {
    forall x | x in a ensures x in b {
      assert Backed(cs, x);
      var i :| 0 <= i < |cs| && ArtifactOf(cs[i]) == x;
    }
  }

  lemma CommittedLists(cs: seq<Candidate>, arts: seq<Artifact>)
    requires Matched(CommitAll(cs), arts)
    ensures Lists(cs, IsReviewed, arts)
  {
    forall i | 0 <= i < |cs| ensures IsReviewed(cs[i]) <==> ArtifactOf(cs[i]) in arts {
      assert ArtifactOf(CommitAll(cs)[i]) == ArtifactOf(cs[i]);
    }
    forall a | a in arts ensures Backed(cs, a) {
      assert Backed(CommitAll(cs), a);
      var i :| 0 <= i < |cs| && ArtifactOf(CommitAll(cs)[i]) == a;
      assert ArtifactOf(cs[i]) == a;
    }
  }

  /** What publication returns is the turn's whole set of artifacts, each once: exactly those of the
      reviewed candidates. Staged and rejected candidates stay as they were, without an artifact. */
  lemma PublishedExactly(shelf: Shelf, current: set<Fence>)
    requires Sound(shelf) && Publish(shelf, current).Some?
    ensures var p := Publish(shelf, current).value;
            && |p.published| == |p.shelf.artifacts|
            && (forall a :: a in p.published <==> a in p.shelf.artifacts)
            && forall i :: 0 <= i < |shelf.candidates| ==>
                 && (IsReviewed(shelf.candidates[i]) <==> ArtifactOf(shelf.candidates[i]) in p.published)
                 && (!IsReviewed(shelf.candidates[i]) ==> p.shelf.candidates[i] == shelf.candidates[i])
  {
    var p := Publish(shelf, current).value;
    var cs := shelf.candidates;
    CommitAllCounts(cs);
    ArtifactsOfCounts(cs, IsReviewed);
    ArtifactsOfCounts(cs, IsValidated);
    assert Lists(cs, IsReviewed, p.published) by { ArtifactsOfMembers(cs, IsReviewed); }
    assert Lists(cs, IsReviewed, p.shelf.artifacts) by {
      PublishMatches(cs, shelf.artifacts);
      CommittedLists(cs, p.shelf.artifacts);
    }
    SameMembers(cs, IsReviewed, p.published, p.shelf.artifacts);
    SameMembers(cs, IsReviewed, p.shelf.artifacts, p.published);
  }

  /** Before the first publication nothing is committed. */
  lemma NoArtifactNoCommit(shelf: Shelf)
    requires Sound(shelf) && shelf.artifacts == []
    ensures forall c :: c in shelf.candidates ==> !IsCommitted(c)
  {
    forall i | 0 <= i < |shelf.candidates| ensures !IsCommitted(shelf.candidates[i]) {
      assert ArtifactOf(shelf.candidates[i]) !in shelf.artifacts;
    }
  }

  /** Content that is new to the turn is recorded exactly when the turn's limits leave room for it. */
  lemma NewSubmissionRecordedIff(shelf: Shelf, toolCall: ToolCallId, fact: Fact, fence: Fence)
    requires forall c :: c in shelf.candidates ==> c.id != Submission(toolCall) && c.fact.digest != fact.digest
    ensures var (after, reply) := Submit(shelf, toolCall, fact, fence);
            if Count(shelf.candidates, IsAccepted) + 1 <= MAX_PER_TURN
               && Bytes(shelf.candidates, IsAccepted) + fact.size <= MAX_TOTAL_BYTES then
              reply == Recorded
              && after == shelf.(candidates := shelf.candidates
                                               + [Candidate(Submission(toolCall), fact, Validated(toolCall, fence))])
            else reply == Refused && after == shelf
  {
    var cs := shelf.candidates;
    var staged := Candidate(Submission(toolCall), fact, Staged);
    CountAppend(cs, staged, IsAccepted);
    assert IndexOfId(cs, staged.id) == |cs| && IndexOfDigest(cs, fact.digest) == |cs|;
    assert (cs + [staged])[|cs| := staged.(stage := Validated(toolCall, fence))]
        == cs + [staged.(stage := Validated(toolCall, fence))];
    hide Count, Bytes, IndexOfId, IndexOfDigest;
  }

  /** Submitting the same content again, under the same tool call or another, with whatever fence, changes nothing. */
  lemma ResubmissionIsUnchanged(shelf: Shelf, toolCall: ToolCallId, fact: Fact, fence: Fence, again: ToolCallId, later: Fence)
    requires Sound(shelf) && Submit(shelf, toolCall, fact, fence).1.Recorded?
    requires again == toolCall || forall c :: c in shelf.candidates ==> c.id != Submission(again)
    ensures var after := Submit(shelf, toolCall, fact, fence).0;
            Submit(after, again, fact, later) == (after, Unchanged)
  {
    SubmitKeeps(shelf, toolCall, fact, fence);
    var (after, _) := Submit(shelf, toolCall, fact, fence);
    var at := Locate(shelf.candidates, Candidate(Submission(toolCall), fact, Staged)).value;
    var cs := after.candidates;
    assert DistinctKeys(cs);
    assert cs[at] == Candidate(Submission(toolCall), fact, Validated(toolCall, fence));
    assert Locate(cs, Candidate(Submission(again), fact, Staged)) == Some(at) by {
      hide Sound, Count, Bytes, Matched;
      if again != toolCall {
        forall i | 0 <= i < |cs| ensures cs[i].id != Submission(again) {
          if i != at { assert cs[i] in shelf.candidates; }
        }
      }
    }
    hide Sound, Count, Bytes, Locate, DistinctKeys;
  }

  /** The deduplicated report holds every reported content once, under the name it was first reported with. */
  lemma {:induction false} RequestedOnceEach(reports: seq<Report>)
    ensures var cs := Requested(reports);
            && (forall i, j :: 0 <= i < j < |cs| ==> cs[i].fact != cs[j].fact)
            && (forall k :: 0 <= k < |reports| ==> Describes(cs, reports[k].fact))
            && forall c :: c in cs ==> exists k :: FirstReported(reports, k, c)
  {
    if reports != [] {
      var n := |reports| - 1;
      var earlier, last := Requested(reports[..n]), reports[n];
      RequestedOnceEach(reports[..n]);
      var cs := Requested(reports);
      forall k | 0 <= k < |reports| ensures Describes(cs, reports[k].fact) {
        if k < n {
          assert Describes(earlier, reports[..n][k].fact);
          var i :| 0 <= i < |earlier| && earlier[i].fact == reports[k].fact;
          assert cs[i] == earlier[i];
        } else if !Describes(earlier, last.fact) {
          assert cs[|earlier|].fact == last.fact;
        }
      }
      forall c | c in cs ensures exists k :: FirstReported(reports, k, c) {
        if c in earlier {
          var k :| FirstReported(reports[..n], k, c);
          assert FirstReported(reports, k, c);
        } else {
          forall j | 0 <= j < n ensures reports[j].fact != last.fact {
            assert Describes(earlier, reports[..n][j].fact);
          }
          assert FirstReported(reports, n, c);
        }
      }
    }
  }

  /** The candidate carries the name of the first report of its content. */
  predicate FirstReported(reports: seq<Report>, k: int, c: Candidate) {
    && 0 <= k < |reports| && c == Candidate(Reported(reports[k].name), reports[k].fact, Staged)
    && forall j :: 0 <= j < k ==> reports[j].fact != c.fact
  }
}
