/** The import service as it runs: short transactions on the shared state, the download loop between them,
    and the other processes' commits at the points where the loop is outside a transaction. */
module ArxivImportService {
  import opened Wrappers
  import opened Runs
  import opened ArxivImport
  import opened ArxivImportTheorems

  class ArxivProjectImportService {
    var world: World

    constructor ()
      ensures world == EMPTY_WORLD
    {
      world := EMPTY_WORLD;
    }

    // ---- transactions -------------------------------------------------------------------------------

    /** Says whether the import must stop, after confirming a requested cancellation. */
    method ConfirmCancelIfRequested(r: ReviewId) returns (stop: bool)
      requires r in world.reviews
      modifies this
      ensures (world, stop) == ConfirmIfRequested(old(world), r)
    {
      var v := world.reviews[r];
      if v.status.CancelRequested? {
        var sources := v.sources;
        for i := 0 to |sources|
          invariant |sources| == |v.sources|
          invariant forall j :: 0 <= j < i ==> sources[j] == RejectOpen(v.sources)[j]
          invariant forall j :: i <= j < |sources| ==> sources[j] == v.sources[j]
          invariant world == old(world)
        {
          if sources[i].status.Discovered? {
            sources := sources[i := sources[i].(status := Rejected)];
          }
        }
        assert sources == RejectOpen(v.sources);
        world := WithReview(world, r, AppendNote(v.(sources := sources, status := Cancelled), ReviewCancelled));
        return true;
      }
      return v.status.Cancelled?;
    }

    /** The canonical version with this content, read under the owner-and-hash lock. */
    method GetByOwnerAndHash(owner: OwnerId, hash: Hash) returns (found: Option<VersionId>)
      requires LibrarySound(world.library)
      ensures found.Some? <==> HasContent(world.library, owner, hash)
      ensures found.Some? ==> found.value == ContentOf(world.library, owner, hash) && found.value in world.library.versions
    {
      if x :| x in world.library.versions && IsContent(world.library, x, owner, hash) {
        ContentThere(world.library, owner, hash);
        assert SameContent(world.library.versions[x], world.library.versions[ContentOf(world.library, owner, hash)]);
        return Some(x);
      }
      return None;
    }

    method RegisterDownload(r: ReviewId, i: nat, hash: Hash, size: nat, ids: Fresh) returns (reply: Reply)
      requires Inv(world)
      modifies this
      ensures Registration(world, reply) == Register(old(world), r, i, hash, size, ids)
    {
      assert LibrarySound(world.library);
      hide Inv, LibrarySound, HasContent, ContentOf, Bind;
      if r !in world.reviews || i >= |world.reviews[r].sources| { return RegisterRaised; }
      if world.reviews[r].status.CancelRequested? {
        var _ := ConfirmCancelIfRequested(r);
        return CancelSeen;
      }
      if world.reviews[r].status.Cancelled? { return CancelSeen; }
      var v := world.reviews[r];
      var source := v.sources[i];
      if !source.status.Discovered? { return Bound(source.status.Ready?, None); }
      if !source.identified { return RegisterRaised; }
      var version := GetByOwnerAndHash(v.owner, hash);
      var l := world.library;
      if version.None? {
        if !Unused(l, ids) { return RegisterRaised; }
        l := l.(papers := l.papers[ids.paper := Paper(v.owner, false)]);
        l := l.(ingestions := l.ingestions[ids.run := Ingestion(v.owner, v.project)]);
        l := l.(versions := l.versions[ids.version := Version(v.owner, hash, size, ids.paper, Some(ids.run), true)]);
        l := l.(inProject := l.inProject + {(v.project, ids.paper)});
        l := l.(outbox := l.outbox + [ids.run]);
        world := World(world.reviews[r := Bind(l, v, i, ids.version)], l);
        return Bound(ids.version in l.chunkSets, Some(ids.run));
      }
      var paper := l.versions[version.value].paper;
      if paper !in l.papers || l.papers[paper].owner != v.owner { return RegisterRaised; }
      if l.papers[paper].archived { return PaperArchived; }
      l := l.(inProject := l.inProject + {(v.project, paper)});
      SameBinding(world.library, l, v, i, version.value);
      world := World(world.reviews[r := Bind(l, v, i, version.value)], l);
      return Bound(version.value in l.chunkSets, None);
    }

    method MarkSourceFailed(r: ReviewId, i: nat)
      modifies this
      ensures world == MarkFailed(old(world), r, i)
    {
      if r in world.reviews && i < |world.reviews[r].sources| && world.reviews[r].sources[i].status.Discovered? {
        var v := world.reviews[r];
        v := v.(sources := v.sources[i := v.sources[i].(status := SourceFailed)]);
        world := WithReview(world, r, AppendNote(v, SourceFailedNote));
      }
    }

    method CompleteImport(r: ReviewId, ready: nat) returns (completion: Completion)
      requires r in world.reviews
      modifies this
      ensures (world, completion) == Complete(old(world), r, ready)
    {
      var v := world.reviews[r];
      if v.step.Some? {
        return if v.step.value == |v.sources| then AlreadyDone else StepConflict;
      }
      v := v.(step := Some(|v.sources|));
      if AllSettled(v.sources) && ready > 0 && v.stage.ImportStage? {
        v := v.(stage := MatrixStage);
      }
      world := WithReview(world, r, AppendNote(v, ImportCompleted));
      return Emitted;
    }

    // ---- other processes -------------------------------------------------------------------------------

    method CommitOther(m: Move)
      requires Inv(world)
      modifies this
      ensures world == Commit(old(world), m)
    {
      hide Inv, Register, Complete, ConfirmIfRequested, MarkFailed, MoveRun, Reconciled, Search, Opening;
      match m
      case OpenReview(r, owner, project, sourceLimit, minimumReady) =>
        if r !in world.reviews { world := WithReview(world, r, Opening(owner, project, sourceLimit, minimumReady)); }
      case RunSearch(r, key, found) =>
        if r in world.reviews { world := WithReview(world, r, Search(world.reviews[r], key, found).0); }
      case ConfirmCancel(r) => if r in world.reviews { var _ := ConfirmCancelIfRequested(r); }
      case WriteCache(owner, hash) => world := world.(library := world.library.(stored := world.library.stored + {(owner, hash)}));
      case RegisterSource(r, i, hash, size, ids) =>
        if r in world.reviews && (world.reviews[r].owner, hash) in world.library.stored {
          var _ := RegisterDownload(r, i, hash, size, ids);
        }
      case FailSource(r, i) => MarkSourceFailed(r, i);
      case CompleteImport(r, ready) => if r in world.reviews { var _ := CompleteImport(r, ready); }
      case ArchivePaper(p) =>
        var papers := world.library.papers;
        if p in papers { world := world.(library := world.library.(papers := papers[p := papers[p].(archived := true)])); }
      case FinishIndex(x, c) =>
        var l := world.library;
        if x in l.versions && x !in l.chunkSets && c !in l.chunkSets.Values {
          world := world.(library := l.(chunkSets := l.chunkSets[x := c]));
        }
      case Reconcile(r, outside) => ReconcileRun(r, outside); ReconcileIs(old(world).library, r, outside);
      case _ =>
        if m.review in world.reviews {
          world := WithReview(world, m.review, MoveRun(world.library, world.reviews[m.review], m));
        }
    }

    /** The dependency reconciler's transaction on one review: its sources one after the other, then the dependencies
        on ingestion runs, then the run itself. */
    method ReconcileRun(r: ReviewId, outside: Outside)
      modifies this
      ensures world == if r in old(world).reviews
                       then WithReview(old(world), r, Reconciled(old(world).library, old(world).reviews[r], outside)) else old(world)
    {
      hide ReconcileSource, AdvanceRun, Concluded;
      if r !in world.reviews { return; }
      var v := world.reviews[r];
      if !v.status.WaitingDependency? && !v.status.CancelRequested? && !v.status.Cancelled? {
        assert world.reviews[r := v] == world.reviews;
        return;
      }
      var cancelling := Cancelling(v.status);
      var current := v;
      for i := 0 to |v.sources|
        invariant |current.sources| == |v.sources| && current == ReconcileFirst(world.library, v, outside, cancelling, i)
        invariant world == old(world)
      {
        current := ReconcileSource(world.library, current, i, outside, cancelling);
      }
      var dependencies := current.dependencies;
      for i := 0 to |dependencies|
        invariant |dependencies| == |current.dependencies| && world == old(world)
        invariant forall j :: 0 <= j < i ==> dependencies[j] == AdvanceRun(world.library, current, current.dependencies[j], outside)
        invariant forall j :: i <= j < |dependencies| ==> dependencies[j] == current.dependencies[j]
      {
        dependencies := dependencies[i := AdvanceRun(world.library, current, dependencies[i], outside)];
      }
      assert current.(dependencies := dependencies) == AdvanceRuns(world.library, current, outside);
      world := WithReview(world, r, Concluded(current.(dependencies := dependencies)));
    }

    method Others(moves: seq<Move>)
      requires Inv(world)
      modifies this
      ensures world == Play(old(world), moves) && Inv(world)
    {
      hide Inv, Commit;
      for i := 0 to |moves|
        invariant world == Play(old(world), moves[..i]) && Inv(world)
      {
        assert moves[..i + 1][..i] == moves[..i];
        CommitKeeps(world, moves[i]);
        CommitOther(moves[i]);
      }
      assert moves[..|moves|] == moves;
    }

    // ---- the loop ----------------------------------------------------------------------------------------

    method HandleError(r: ReviewId, i: nat, temporary: bool, t: Turn, tally: Tally) returns (after: Tally, verdict: Verdict)
      requires Inv(world)
      modifies this
      ensures Progress(world, after, verdict) == OnError(old(world), r, i, temporary, t, tally)
      ensures Inv(world)
    {
      hide Inv, Play, ConfirmIfRequested, MarkFailed;
      OnErrorKeeps(world, r, i, temporary, t, tally);
      Others(t.afterError);
      if r !in world.reviews { return tally, Raised; }
      ConfirmKeeps(world, r);
      var stop := ConfirmCancelIfRequested(r);
      if stop { return tally, Stopped; }
      if temporary { return tally, Raised; }
      Others(t.beforeFailure);
      MarkSourceFailed(r, i);
      return tally.(failed := tally.failed + 1), Going;
    }

    method HandleContent(r: ReviewId, i: nat, hash: Hash, size: nat, t: Turn, tally: Tally) returns (after: Tally, verdict: Verdict)
      requires Inv(world)
      modifies this
      ensures Progress(world, after, verdict) == OnContent(old(world), r, i, hash, size, t, tally)
      ensures Inv(world)
    {
      hide Inv, Play, ConfirmIfRequested, Register, OnError;
      OnContentKeeps(world, r, i, hash, size, t, tally);
      Others(t.afterDownload);
      if r !in world.reviews { return tally, Raised; }
      KnownReviews(world, r);
      ConfirmKeeps(world, r);
      var stop := ConfirmCancelIfRequested(r);
      if stop { return tally, Stopped; }
      if !t.storageOk { return tally, Raised; }
      CommitKeeps(world, WriteCache(world.reviews[r].owner, hash));
      CommitOther(WriteCache(world.reviews[r].owner, hash));
      PlayPersists(world, t.afterWrite);
      Others(t.afterWrite);
      if r !in world.reviews { return tally, Raised; }
      KnownReviews(world, r);
      ConfirmKeeps(world, r);
      stop := ConfirmCancelIfRequested(r);
      if stop { return tally, Stopped; }
      PlayPersists(world, t.beforeRegister);
      Others(t.beforeRegister);
      RegisterKeeps(world, r, i, hash, size, t.ids);
      var reply := RegisterDownload(r, i, hash, size, t.ids);
      match reply
      case Bound(ready, _) =>
        return tally.(imported := tally.imported + 1, ready := tally.ready + if ready then 1 else 0), Going;
      case CancelSeen => return tally, Stopped;
      case PaperArchived =>
        after, verdict := HandleError(r, i, false, t, tally);
      case RegisterRaised => return tally, Raised;
    }

    method ImportSource(r: ReviewId, i: nat, source: Source, t: Turn, budget: int, tally: Tally)
      returns (after: Tally, verdict: Verdict)
      requires Inv(world)
      modifies this
      ensures Progress(world, after, verdict) == ImportOne(old(world), r, i, source, t, budget, tally)
      ensures Inv(world)
    {
      hide Inv, Play, ConfirmIfRequested, OnError, OnContent;
      ImportOneKeeps(world, r, i, source, t, budget, tally);
      Others(t.before);
      if r !in world.reviews { return tally, Raised; }
      ConfirmKeeps(world, r);
      var stop := ConfirmCancelIfRequested(r);
      if stop { return tally, Stopped; }
      match source.status
      case Rejected => return tally, Going;
      case Importing => return tally.(imported := tally.imported + 1), Going;
      case Ready => return tally.(imported := tally.imported + 1, ready := tally.ready + 1), Going;
      case SourceFailed => return tally.(failed := tally.failed + 1), Going;
      case Discovered =>
        if !source.identified { return tally, Raised; }
        var downloaded := Fetch(t.download, budget - tally.bytes);
        match downloaded
        case TemporaryError =>
          after, verdict := HandleError(r, i, true, t, tally);
        case PermanentError =>
          after, verdict := HandleError(r, i, false, t, tally);
        case Content(hash, size) =>
          after, verdict := HandleContent(r, i, hash, size, t, tally.(bytes := tally.bytes + size));
    }

    /** Adds up the versions already bound, each one once; false stands for a version of another owner. */
    method CountBytes(owner: OwnerId, sources: seq<Source>) returns (ok: bool, bytes: nat)
      ensures ok == VersionsOwned(world.library, owner, sources)
      ensures ok ==> bytes == ConsumedBytes(world.library, sources)
    {
      var consumed: set<VersionId> := {};
      bytes := 0;
      for i := 0 to |sources|
        invariant consumed == BoundVersions(sources[..i])
        invariant VersionsOwned(world.library, owner, sources[..i])
        invariant bytes == ConsumedBytes(world.library, sources[..i])
      {
        assert sources[..i + 1][..i] == sources[..i];
        assert sources[..i + 1] == sources[..i] + [sources[i]];
        var x := sources[i].version;
        if x.Some? && x.value !in consumed {
          if x.value !in world.library.versions || world.library.versions[x.value].owner != owner {
            assert sources[i] in sources;
            return false, bytes;
          }
          consumed := consumed + {x.value};
          bytes := bytes + world.library.versions[x.value].size;
        }
      }
      assert sources[..|sources|] == sources;
      return true, bytes;
    }

    method ImportSources(r: ReviewId, budget: int, script: Script) returns (tally: Tally, ending: Ending)
      requires Inv(world) && r in world.reviews && |script.turns| == |world.reviews[r].sources|
      modifies this
      ensures Outcome(world, tally, ending) == ImportAll(old(world), r, budget, script)
      ensures tally.ready <= tally.imported
      ensures ending.Completed? ==>
                tally.imported + tally.failed + RejectedIn(old(world).reviews[r].sources) == |old(world).reviews[r].sources|
      ensures tally.bytes <= Max(ConsumedBytes(old(world).library, old(world).reviews[r].sources), budget)
      ensures Inv(world)
    {
      hide Inv, Play, ConfirmIfRequested, ImportOne, Complete, ConsumedBytes, VersionsOwned;
      SummaryAccountsForAll(world, r, budget, script);
      var sources := world.reviews[r].sources;
      var ok, bytes := CountBytes(world.reviews[r].owner, sources);
      if !ok { return Tally(0, 0, 0, 0), ImportFailed; }
      ghost var start := Tally(0, 0, 0, bytes);
      tally := Tally(0, 0, 0, bytes);
      Others(script.afterRead);
      if r !in world.reviews { return tally, ImportFailed; }
      ConfirmKeeps(world, r);
      var stop := ConfirmCancelIfRequested(r);
      if stop { return tally, ImportCancelled; }
      ghost var began := world;
      var verdict := Going;
      var i := 0;
      while i < |sources| && verdict.Going?
        invariant i <= |sources| && Inv(world)
        invariant Progress(world, tally, verdict) == ImportFirst(began, r, sources, script.turns, budget, start, i)
        decreases |sources| - i
      {
        tally, verdict := ImportSource(r, i, sources[i], script.turns[i], budget, tally);
        i := i + 1;
      }
      LoopEnded(began, r, sources, script.turns, budget, start, i);
      if verdict.Stopped? { return tally, ImportCancelled; }
      if verdict.Raised? { return tally, ImportFailed; }
      Others(script.beforeEnd);
      if r !in world.reviews { return tally, ImportFailed; }
      ConfirmKeeps(world, r);
      stop := ConfirmCancelIfRequested(r);
      if stop { return tally, ImportCancelled; }
      Others(script.beforeComplete);
      if r !in world.reviews { return tally, ImportFailed; }
      CompletionKeeps(world, r, tally.ready);
      var completion := CompleteImport(r, tally.ready);
      if completion.StepConflict? { return tally, ImportFailed; }
      return tally, Completed(completion.Emitted?);
    }
  }

  lemma ReconcileIs(l: Library, r: ReviewId, outside: Outside)
    ensures forall v: Review :: MoveRun(l, v, Reconcile(r, outside)) == Reconciled(l, v, outside)
  {
    hide Reconciled;
  }

  lemma SameBinding(l: Library, l': Library, v: Review, i: nat, x: VersionId)
    requires i < |v.sources| && x in l.versions
    requires l'.versions == l.versions && l'.chunkSets == l.chunkSets && l'.ingestions == l.ingestions
    ensures Bind(l', v, i, x) == Bind(l, v, i, x)
  {
    hide Require;
  }

  /** A loop that was left early is where the whole loop ends. */
  lemma {:induction false} LoopEnded(w: World, r: ReviewId, sources: seq<Source>, turns: seq<Turn>, budget: int, start: Tally, k: nat)
    requires k <= |sources| == |turns|
    requires k == |sources| || !ImportFirst(w, r, sources, turns, budget, start, k).verdict.Going?
    ensures ImportFirst(w, r, sources, turns, budget, start, |sources|) == ImportFirst(w, r, sources, turns, budget, start, k)
    decreases |sources| - k
  {
    hide ImportOne;
    if k < |sources| {
      LoopEnded(w, r, sources, turns, budget, start, k + 1);
    }
  }
}
