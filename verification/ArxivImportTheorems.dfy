/** What every interleaving of imports, cancellations and other commits keeps, and what the loop's counters mean. */
module ArxivImportTheorems {
  import opened Wrappers
  import opened Runs
  import opened ArxivImport

  // ---- one review -----------------------------------------------------------------------------------

  lemma NoteAppended(v: Review, note: Note)
    requires NotesSound(v)
    requires note.ImportCompleted? ==> v.step.None?
    ensures var v' := AppendNote(v, note);
            NotesSound(if note.ImportCompleted? then v'.(step := Some(|v.sources|)) else v')
  {
    var v' := AppendNote(v, note);
    if v.step.Some? {
      var i :| 0 <= i < |v.events| && v.events[i].note.ImportCompleted?;
      assert v'.events[i].note.ImportCompleted?;
    }
    if note.ImportCompleted? { assert v'.events[|v.events|].note.ImportCompleted?; }
    forall i, j | 0 <= i < j < |v'.events|
      ensures !(v'.events[i].note.ImportCompleted? && v'.events[j].note.ImportCompleted?)
    {
      if j == |v.events| && note.ImportCompleted? { assert v'.events[i] == v.events[i]; }
    }
    if exists i :: 0 <= i < |v'.events| && v'.events[i].note.ImportCompleted? {
      var i :| 0 <= i < |v'.events| && v'.events[i].note.ImportCompleted?;
      assert i < |v.events| ==> v.events[i].note.ImportCompleted?;
    }
  }

  /** Required dependencies keep their targets distinct and nothing is dropped. */
  lemma RequireKeeps(deps: seq<Dependency>, target: Target, status: DependencyStatus)
    requires DistinctTargets(deps) && ChunkDepsSatisfied(deps)
    requires target.OnChunkSet? ==> status.Satisfied?
    ensures var after := Require(deps, target, status);
            && DistinctTargets(after) && ChunkDepsSatisfied(after)
            && Targets(after) == Targets(deps) + {target} && deps <= after
            && (target.OnChunkSet? ==> Dependency(target, Satisfied) in after)
  {
    var after := Require(deps, target, status);
    if target in Targets(deps) {
      var d :| d in deps && d.target == target;
      assert target.OnChunkSet? ==> d == Dependency(target, Satisfied);
    } else {
      forall i, j | 0 <= i < j < |after| ensures after[i].target != after[j].target {
        if j == |deps| { assert deps[i] in deps; }
      }
      assert after[|deps|] in after;
    }
  }

  /** No target is dropped, and a dependency on a chunk set stays as it is. */
  predicate DependenciesStay(deps: seq<Dependency>, deps': seq<Dependency>) {
    Targets(deps) <= Targets(deps') && forall d :: d in deps && d.target.OnChunkSet? ==> d in deps'
  }

  lemma PrefixStays(deps: seq<Dependency>, deps': seq<Dependency>)
    requires deps <= deps'
    ensures DependenciesStay(deps, deps')
  {
  }

  /** What sources gain when dependencies are added and chunk sets appear. */
  lemma SourceStays(l: Library, l': Library, v: Review, v': Review, i: nat)
    requires i < |v.sources| && SourceSound(l, v, i)
    requires i < |v'.sources| && v'.sources[i] == v.sources[i] && DependenciesStay(v.dependencies, v'.dependencies)
    requires forall x :: x in l.chunkSets ==> x in l'.chunkSets && l'.chunkSets[x] == l.chunkSets[x]
    ensures SourceSound(l', v', i)
  {
  }

  lemma ReviewStays(l: Library, l': Library, v: Review)
    requires ReviewSound(l, v)
    requires forall x :: x in l.chunkSets ==> x in l'.chunkSets && l'.chunkSets[x] == l.chunkSets[x]
    ensures ReviewSound(l', v)
  {
    forall i | 0 <= i < |v.sources| ensures SourceSound(l', v, i) {
      SourceStays(l, l', v, v, i);
    }
  }

  /** What a review waits for when it binds the version: the version, and its chunk set once that is ready, or else
      the ingestion run if it is the owner's in this project. */
  function BindingTargets(l: Library, v: Review, x: VersionId): set<Target>
    requires x in l.versions
  {
    {OnVersion(x)}
    + (if x in l.chunkSets then {OnChunkSet(l.chunkSets[x])}
       else match l.versions[x].run
            case None => {}
            case Some(run) => if run in l.ingestions && l.ingestions[run] == Ingestion(v.owner, v.project) then {OnRun(run)} else {})
  }

  lemma BindKeeps(l: Library, v: Review, i: nat, x: VersionId)
    requires ReviewSound(l, v) && i < |v.sources| && x in l.versions
    ensures ReviewSound(l, Bind(l, v, i, x))
    ensures Targets(Bind(l, v, i, x).dependencies) == Targets(v.dependencies) + BindingTargets(l, v, x)
    ensures v.dependencies <= Bind(l, v, i, x).dependencies
  {
    hide NotesSound, DistinctTargets, ChunkDepsSatisfied, SourceSound, Targets;
    var after := Bind(l, v, i, x);
    var ready := x in l.chunkSets;
    var deps := Require(v.dependencies, OnVersion(x), if ready then Satisfied else Pending);
    RequireKeeps(v.dependencies, OnVersion(x), if ready then Satisfied else Pending);
    if ready {
      RequireKeeps(deps, OnChunkSet(l.chunkSets[x]), Satisfied);
    } else if l.versions[x].run.Some? {
      RequireKeeps(deps, OnRun(l.versions[x].run.value), Pending);
    }
    BindNotes(l, v, i, x);
    PrefixStays(v.dependencies, after.dependencies);
    forall k | 0 <= k < |after.sources| ensures SourceSound(l, after, k) {
      if k == i { BoundSource(l, after, i, x, ready); } else { SourceStays(l, l, v, after, k); }
    }
  }

  lemma BindNotes(l: Library, v: Review, i: nat, x: VersionId)
    requires NotesSound(v) && i < |v.sources| && x in l.versions
    ensures NotesSound(Bind(l, v, i, x))
  {
    hide Require;
    var after := Bind(l, v, i, x);
    NoteAppended(v, if x in l.chunkSets then SourceReady else ImportStarted);
  }

  lemma BoundSource(l: Library, v: Review, i: nat, x: VersionId, ready: bool)
    requires i < |v.sources| && v.sources[i].version == Some(x) && OnVersion(x) in Targets(v.dependencies)
    requires v.sources[i].status == if ready then Ready else Importing
    requires ready ==> x in l.chunkSets && Dependency(OnChunkSet(l.chunkSets[x]), Satisfied) in v.dependencies
    ensures SourceSound(l, v, i)
  {
  }

  /** Sources that are settled without being bound, with one note. */
  lemma SettleKeeps(l: Library, v: Review, sources: seq<Source>, status: Status, note: Note)
    requires ReviewSound(l, v) && !note.ImportCompleted?
    requires |v.sources| <= |sources|
    requires forall i :: 0 <= i < |v.sources| ==>
               sources[i] == v.sources[i] || sources[i].status.Rejected? || sources[i].status.SourceFailed?
    requires forall i :: |v.sources| <= i < |sources| ==> sources[i].status.Discovered? && sources[i].version.None?
    ensures ReviewSound(l, AppendNote(v.(sources := sources, status := status), note))
  {
    hide NotesSound, DistinctTargets, ChunkDepsSatisfied;
    var after := AppendNote(v.(sources := sources, status := status), note);
    assert NotesSound(after) by { SameNotes(v, v.(sources := sources, status := status)); NoteAppended(v.(sources := sources, status := status), note); }
    forall i | 0 <= i < |after.sources| ensures SourceSound(l, after, i) {
      if i < |v.sources| && sources[i] == v.sources[i] { SourceStays(l, l, v, after, i); }
    }
  }

  lemma SameNotes(v: Review, v': Review)
    requires NotesSound(v) && v'.events == v.events && v'.nextEvent == v.nextEvent && v'.step == v.step
    ensures NotesSound(v')
  {
  }

  lemma CompleteKeeps(l: Library, v: Review, stage: Stage)
    requires ReviewSound(l, v) && v.step.None?
    ensures ReviewSound(l, AppendNote(v.(step := Some(|v.sources|), stage := stage), ImportCompleted))
  {
    hide DistinctTargets, ChunkDepsSatisfied;
    var after := AppendNote(v.(step := Some(|v.sources|), stage := stage), ImportCompleted);
    assert NotesSound(after) by {
      NoteAppended(v, ImportCompleted);
      hide NotesSound;
      SameNotes(AppendNote(v, ImportCompleted).(step := Some(|v.sources|)), after);
    }
    hide NotesSound;
    forall i | 0 <= i < |after.sources| ensures SourceSound(l, after, i) {
      SourceStays(l, l, v, after, i);
    }
  }

  // ---- the run of a review ----------------------------------------------------------------------------------

  /** Status and stage are not looked at. */
  lemma MovedKeeps(l: Library, v: Review, status: Status, stage: Stage)
    requires ReviewSound(l, v)
    ensures ReviewSound(l, v.(status := status, stage := stage))
  {
    hide NotesSound, DistinctTargets, ChunkDepsSatisfied;
    var after := v.(status := status, stage := stage);
    SameNotes(v, after);
    PrefixStays(v.dependencies, after.dependencies);
    forall i | 0 <= i < |after.sources| ensures SourceSound(l, after, i) {
      SourceStays(l, l, v, after, i);
    }
  }

  /** A new status and stage, sources that are settled without being bound, and one note. */
  lemma NotedKeeps(l: Library, v: Review, sources: seq<Source>, status: Status, stage: Stage, note: Note)
    requires ReviewSound(l, v) && !note.ImportCompleted? && |sources| == |v.sources|
    requires forall i :: 0 <= i < |v.sources| ==>
               sources[i] == v.sources[i] || sources[i].status.Rejected? || sources[i].status.SourceFailed?
    ensures ReviewSound(l, AppendNote(v.(sources := sources, status := status, stage := stage), note))
  {
    MovedKeeps(l, v, status, stage);
    var moved := v.(status := status, stage := stage);
    hide ReviewSound;
    SettleKeeps(l, moved, sources, status, note);
    assert AppendNote(v.(sources := sources, status := status, stage := stage), note)
        == AppendNote(moved.(sources := sources, status := status), note);
  }

  lemma MoveRunKeeps(l: Library, v: Review, m: Move)
    requires ReviewSound(l, v) && OnTheRun(m)
    ensures ReviewSound(l, MoveRun(l, v, m))
  {
    hide ReviewSound, Reconciled;
    forall status, stage, note: Note | !note.ImportCompleted?
      ensures ReviewSound(l, AppendNote(v.(status := status, stage := stage), note))
    {
      NotedKeeps(l, v, v.sources, status, stage, note);
    }
    match m
    case SelectCandidates(_, selected) =>
      NotedKeeps(l, v, RejectOthers(v.sources, selected), Queued, ImportStage, StatusChanged);
    case AwaitInput(_, selection) =>
      var proposed := AppendNote(v.(status := WaitingInput), OutlineProposed);
      NotedKeeps(l, proposed, proposed.sources, WaitingInput, v.stage, StatusChanged);
    case Reconcile(_, o) => ReconciledKeeps(l, v, o);
    case StartReview(_) => StatusOnly(v, Running, StatusChanged);
    case AttemptFails(_, retry) => StatusOnly(v, if retry then RetryWait else Failed, StatusChanged);
    case RequeueReview(_) => StatusOnly(v, Queued, StatusChanged);
    case FinishReview(_) => StatusOnly(v, Succeeded, StatusChanged);
    case CancelReview(_) => StatusOnly(v, Cancelled, ReviewCancelled); StatusOnly(v, CancelRequested, StatusChanged);
    case ReclaimReview(_) => StatusOnly(v, Cancelled, ReviewCancelled);
    case DecideOutline(_) => StatusOnly(v, Queued, StatusChanged);
    case AwaitDependencies(_) =>
  }

  lemma StatusOnly(v: Review, status: Status, note: Note)
    ensures AppendNote(v.(status := status), note) == AppendNote(v.(status := status, stage := v.stage), note)
  {
  }

  /** The same targets in the same places, and dependencies on chunk sets as they were. */
  predicate Restated(deps: seq<Dependency>, after: seq<Dependency>) {
    && |after| == |deps|
    && forall i :: 0 <= i < |deps| ==> after[i].target == deps[i].target && (deps[i].target.OnChunkSet? ==> after[i] == deps[i])
  }

  lemma RestatedKeeps(deps: seq<Dependency>, after: seq<Dependency>)
    requires Restated(deps, after) && DistinctTargets(deps) && ChunkDepsSatisfied(deps)
    ensures DistinctTargets(after) && ChunkDepsSatisfied(after) && DependenciesStay(deps, after) && Targets(after) == Targets(deps)
  {
    forall d | d in deps ensures d.target in Targets(after) && (d.target.OnChunkSet? ==> d in after) {
      var i :| 0 <= i < |deps| && deps[i] == d;
      assert after[i] in after;
    }
    forall d | d in after ensures d.target in Targets(deps) && (d.target.OnChunkSet? ==> d in deps) {
      var i :| 0 <= i < |after| && after[i] == d;
      assert deps[i] in deps;
    }
  }

  lemma DependenciesStayOn(a: seq<Dependency>, b: seq<Dependency>, c: seq<Dependency>)
    requires DependenciesStay(a, b) && DependenciesStay(b, c)
    ensures DependenciesStay(a, c)
  {
  }

  lemma ReconcileSourceKeeps(l: Library, v: Review, i: nat, o: Outside, cancelling: bool)
    requires ReviewSound(l, v) && i < |v.sources|
    ensures ReviewSound(l, ReconcileSource(l, v, i, o, cancelling))
  {
    var s := v.sources[i];
    if (s.status.Discovered? || s.status.Importing?) && !(cancelling && s.status.Discovered?) {
      match Evaluate(l, v, i, o)
      case BecomesReady =>
        var x := s.version.value;
        var resolved := Resolve(v.dependencies, OnVersion(x), Satisfied);
        var deps := Require(resolved, OnChunkSet(l.chunkSets[x]), Satisfied);
        RestatedKeeps(v.dependencies, resolved);
        RequireKeeps(resolved, OnChunkSet(l.chunkSets[x]), Satisfied);
        PrefixStays(resolved, deps);
        DependenciesStayOn(v.dependencies, resolved, deps);
        assert OnVersion(x) in Targets(deps);
        DependentKeeps(l, v, i, s.(status := Ready), deps, SourceReady);
      case Fails =>
        var deps := if s.version.Some? then Resolve(v.dependencies, OnVersion(s.version.value), Unmet) else v.dependencies;
        RestatedKeeps(v.dependencies, deps);
        DependentKeeps(l, v, i, s.(status := SourceFailed), deps, SourceFailedNote);
      case StaysAsItIs =>
    } else if s.status.Discovered? {
      RejectedKeeps(l, v, i);
    }
  }

  lemma RejectedKeeps(l: Library, v: Review, i: nat)
    requires ReviewSound(l, v) && i < |v.sources|
    ensures ReviewSound(l, v.(sources := v.sources[i := v.sources[i].(status := Rejected)]))
  {
    hide NotesSound, DistinctTargets, ChunkDepsSatisfied;
    var after := v.(sources := v.sources[i := v.sources[i].(status := Rejected)]);
    SameNotes(v, after);
    PrefixStays(v.dependencies, after.dependencies);
    forall k | 0 <= k < |after.sources| ensures SourceSound(l, after, k) {
      if k != i { SourceStays(l, l, v, after, k); }
    }
  }

  /** One source moves on, with its dependencies and a note. */
  lemma DependentKeeps(l: Library, v: Review, i: nat, source: Source, deps: seq<Dependency>, note: Note)
    requires ReviewSound(l, v) && i < |v.sources| && !note.ImportCompleted?
    requires DistinctTargets(deps) && ChunkDepsSatisfied(deps) && DependenciesStay(v.dependencies, deps)
    requires SourceSound(l, v.(sources := v.sources[i := source], dependencies := deps), i)
    ensures ReviewSound(l, AppendNote(v.(sources := v.sources[i := source], dependencies := deps), note))
  {
    hide NotesSound, DistinctTargets, ChunkDepsSatisfied, DependenciesStay;
    var changed := v.(sources := v.sources[i := source], dependencies := deps);
    SameNotes(v, changed);
    NoteAppended(changed, note);
    var after := AppendNote(changed, note);
    forall k | 0 <= k < |after.sources| ensures SourceSound(l, after, k) {
      if k == i { SourceUnnoted(l, changed, note, i); } else { SourceStays(l, l, v, after, k); }
    }
  }

  lemma SourceUnnoted(l: Library, v: Review, note: Note, i: nat)
    requires i < |v.sources| && SourceSound(l, v, i)
    ensures SourceSound(l, AppendNote(v, note), i)
  {
  }

  lemma {:induction false} ReconcileFirstKeeps(l: Library, v: Review, o: Outside, cancelling: bool, k: nat)
    requires ReviewSound(l, v) && k <= |v.sources|
    ensures ReviewSound(l, ReconcileFirst(l, v, o, cancelling, k))
  {
    hide ReviewSound, ReconcileSource;
    if k > 0 {
      ReconcileFirstKeeps(l, v, o, cancelling, k - 1);
      ReconcileSourceKeeps(l, ReconcileFirst(l, v, o, cancelling, k - 1), k - 1, o, cancelling);
    }
  }

  lemma AdvanceRunsKeeps(l: Library, v: Review, o: Outside)
    requires ReviewSound(l, v)
    ensures ReviewSound(l, AdvanceRuns(l, v, o))
  {
    hide NotesSound, DistinctTargets, ChunkDepsSatisfied, DependenciesStay;
    var after := AdvanceRuns(l, v, o);
    SameNotes(v, after);
    RestatedKeeps(v.dependencies, after.dependencies);
    forall i | 0 <= i < |after.sources| ensures SourceSound(l, after, i) {
      SourceStays(l, l, v, after, i);
    }
  }

  lemma ConcludedKeeps(l: Library, v: Review)
    requires ReviewSound(l, v)
    ensures ReviewSound(l, Concluded(v))
  {
    hide ReviewSound, AllSettled;
    NotedKeeps(l, v, v.sources, Cancelled, v.stage, ReviewCancelled);
    NotedKeeps(l, v, v.sources, Queued, if v.stage.ImportStage? || v.stage.WaitStage? then MatrixStage else v.stage, StatusChanged);
    NotedKeeps(l, v, v.sources, Failed, v.stage, StatusChanged);
    StatusOnly(v, Cancelled, ReviewCancelled);
    StatusOnly(v, Failed, StatusChanged);
  }

  lemma ReconciledKeeps(l: Library, v: Review, o: Outside)
    requires ReviewSound(l, v)
    ensures ReviewSound(l, Reconciled(l, v, o))
  {
    hide ReviewSound, Concluded, AdvanceRuns;
    if v.status.WaitingDependency? || Cancelling(v.status) {
      var settled := ReconcileFirst(l, v, o, Cancelling(v.status), |v.sources|);
      ReconcileFirstKeeps(l, v, o, Cancelling(v.status), |v.sources|);
      AdvanceRunsKeeps(l, settled, o);
      ConcludedKeeps(l, AdvanceRuns(l, settled, o));
    }
  }

  // ---- one commit -------------------------------------------------------------------------------------------

  /** A commit that changes one review and leaves the library alone. */
  lemma ReviewChanged(w: World, r: ReviewId, v: Review)
    requires Inv(w) && ReviewSound(w.library, v)
    ensures Inv(WithReview(w, r, v))
  {
    hide LibrarySound, ReviewSound;
  }

  /** A commit that changes the library and leaves the reviews alone. */
  lemma LibraryChanged(w: World, l': Library)
    requires Inv(w) && LibrarySound(l')
    requires forall x :: x in w.library.chunkSets ==> x in l'.chunkSets && l'.chunkSets[x] == w.library.chunkSets[x]
    ensures Inv(w.(library := l'))
  {
    hide LibrarySound, ReviewSound;
    forall r | r in w.reviews ensures ReviewSound(l', w.reviews[r]) {
      ReviewStays(w.library, l', w.reviews[r]);
    }
  }

  lemma AddContentKeeps(l: Library, v: Review, hash: Hash, size: nat, ids: Fresh)
    requires LibrarySound(l) && !HasContent(l, v.owner, hash) && Unused(l, ids) && (v.owner, hash) in l.stored
    ensures LibrarySound(AddContent(l, v, hash, size, ids))
  {
    AddContentOnce(l, v, hash, size, ids);
    AddContentRuns(l, v, hash, size, ids);
    AddContentOutbox(l, v, hash, size, ids);
  }

  /** One canonical version for each owner and content. */
  lemma AddContentOnce(l: Library, v: Review, hash: Hash, size: nat, ids: Fresh)
    requires LibrarySound(l) && !HasContent(l, v.owner, hash) && Unused(l, ids)
    ensures var l' := AddContent(l, v, hash, size, ids);
            forall x, y :: x in l'.versions && y in l'.versions && SameContent(l'.versions[x], l'.versions[y]) ==> x == y
  {
    assert forall x :: x in l.versions ==> !IsContent(l, x, v.owner, hash);
  }

  /** Stored content and an ingestion run of its own for each version. */
  lemma AddContentRuns(l: Library, v: Review, hash: Hash, size: nat, ids: Fresh)
    requires LibrarySound(l) && Unused(l, ids) && (v.owner, hash) in l.stored
    ensures var l' := AddContent(l, v, hash, size, ids);
            && (forall x :: x in l'.versions ==> (l'.versions[x].owner, l'.versions[x].hash) in l'.stored)
            && (forall x :: x in l'.versions && l'.versions[x].run.Some? ==> l'.versions[x].run.value in l'.ingestions)
            && (forall x, y :: x in l'.versions && y in l'.versions && l'.versions[x].run.Some? && l'.versions[x].run == l'.versions[y].run
                  ==> x == y)
            && (forall x :: x in l'.chunkSets ==> x in l'.versions)
  {
    hide SameContent;
  }

  /** One outbox entry for each ingestion run. */
  lemma AddContentOutbox(l: Library, v: Review, hash: Hash, size: nat, ids: Fresh)
    requires LibrarySound(l) && Unused(l, ids)
    ensures var l' := AddContent(l, v, hash, size, ids);
            && (forall i, j :: 0 <= i < j < |l'.outbox| ==> l'.outbox[i] != l'.outbox[j])
            && (forall run :: run in l'.ingestions <==> run in l'.outbox)
  {
    hide SameContent;
  }

  lemma ConfirmKeeps(w: World, r: ReviewId)
    requires Inv(w) && r in w.reviews
    ensures Inv(ConfirmIfRequested(w, r).0)
  {
    hide LibrarySound, ReviewSound;
    if w.reviews[r].status.CancelRequested? {
      var v := w.reviews[r];
      SettleKeeps(w.library, v, RejectOpen(v.sources), Cancelled, ReviewCancelled);
      ReviewChanged(w, r, Confirmed(v));
    }
  }

  lemma RegisterKeeps(w: World, r: ReviewId, i: nat, hash: Hash, size: nat, ids: Fresh)
    requires Inv(w)
    requires r in w.reviews ==> (w.reviews[r].owner, hash) in w.library.stored
    ensures Inv(Register(w, r, i, hash, size, ids).world)
  {
    hide LibrarySound, ReviewSound, Bind, HasContent, ContentOf;
    if r in w.reviews && i < |w.reviews[r].sources| {
      var v, l := w.reviews[r], w.library;
      if v.status.CancelRequested? {
        ConfirmKeeps(w, r);
      } else if v.sources[i].status.Discovered? && v.sources[i].identified && !v.status.Cancelled? {
        if HasContent(l, v.owner, hash) {
          var x := ContentOf(l, v.owner, hash);
          ContentThere(l, v.owner, hash);
          BindKeeps(l, v, i, x);
          ReviewChanged(w, r, Bind(l, v, i, x));
          var l' := l.(inProject := l.inProject + {(v.project, l.versions[x].paper)});
          assert LibrarySound(l') by { SameLibrary(l, l'); }
          LibraryChanged(WithReview(w, r, Bind(l, v, i, x)), l');
        } else if Unused(l, ids) {
          var added := AddContent(l, v, hash, size, ids);
          AddContentKeeps(l, v, hash, size, ids);
          LibraryChanged(w, added);
          BindKeeps(added, v, i, ids.version);
          ReviewChanged(w.(library := added), r, Bind(added, v, i, ids.version));
        }
      }
    }
  }

  lemma ContentThere(l: Library, owner: OwnerId, hash: Hash)
    requires HasContent(l, owner, hash)
    ensures ContentOf(l, owner, hash) in l.versions
    ensures IsContent(l, ContentOf(l, owner, hash), owner, hash)
  {
  }

  lemma SameLibrary(l: Library, l': Library)
    requires LibrarySound(l) && l' == l.(inProject := l'.inProject, papers := l'.papers)
    ensures LibrarySound(l')
  {
  }

  lemma MarkFailedKeeps(w: World, r: ReviewId, i: nat)
    requires Inv(w)
    ensures Inv(MarkFailed(w, r, i))
  {
    hide LibrarySound, ReviewSound;
    if r in w.reviews && i < |w.reviews[r].sources| && w.reviews[r].sources[i].status.Discovered? {
      var v := w.reviews[r];
      var sources := v.sources[i := v.sources[i].(status := SourceFailed)];
      SettleKeeps(w.library, v, sources, v.status, SourceFailedNote);
      ReviewChanged(w, r, AppendNote(v.(sources := sources, status := v.status), SourceFailedNote));
    }
  }

  lemma SearchKeeps(l: Library, v: Review, key: Key, found: seq<bool>)
    requires ReviewSound(l, v)
    ensures ReviewSound(l, Search(v, key, found).0)
    ensures var (after, reply) := Search(v, key, found);
            && (if reply.Found? then
                  && v.search.None? && after.search == Some(key) && |after.sources| == |v.sources| + |found|
                  && v.sources <= after.sources
                  && forall i :: 0 <= i < |found| ==> after.sources[|v.sources| + i] == Source(Discovered, None, found[i])
                else after == v)
            && (forall again, more :: Search(after, again, more)
                                      == (after, if after.search == Some(again) then Replayed else SearchConflict))
  {
    hide NotesSound, DistinctTargets, ChunkDepsSatisfied;
    if v.search.None? {
      var after := Search(v, key, found).0;
      assert ReviewSound(l, AppendNote(v.(sources := after.sources, status := v.status), SearchCompleted)) by {
        hide ReviewSound;
        SettleKeeps(l, v, after.sources, v.status, SearchCompleted);
      }
      assert NotesSound(after) by { SameNotes(AppendNote(v.(sources := after.sources, status := v.status), SearchCompleted), after); }
      forall i | 0 <= i < |after.sources| ensures SourceSound(l, after, i) {
        SourceStays(l, l, AppendNote(v.(sources := after.sources, status := v.status), SearchCompleted), after, i);
      }
    }
  }

  lemma CommitKeeps(w: World, m: Move)
    requires Inv(w)
    ensures Inv(Commit(w, m))
  {
    hide LibrarySound, ReviewSound, Register, MarkFailed, Complete, ConfirmIfRequested, Search, MoveRun;
    match m
    case OpenReview(r, owner, project, sourceLimit, minimumReady) =>
      if r !in w.reviews { OpenKeeps(w, r, owner, project, sourceLimit, minimumReady); }
    case RunSearch(r, key, found) =>
      if r in w.reviews {
        SearchKeeps(w.library, w.reviews[r], key, found);
        ReviewChanged(w, r, Search(w.reviews[r], key, found).0);
      }
    case ConfirmCancel(r) => if r in w.reviews { ConfirmKeeps(w, r); }
    case WriteCache(owner, hash) => StoredKeeps(w.library, owner, hash); LibraryChanged(w, Commit(w, m).library);
    case RegisterSource(r, i, hash, size, ids) =>
      if r in w.reviews && (w.reviews[r].owner, hash) in w.library.stored { RegisterKeeps(w, r, i, hash, size, ids); }
    case FailSource(r, i) => MarkFailedKeeps(w, r, i);
    case CompleteImport(r, ready) => if r in w.reviews { CompletionKeeps(w, r, ready); }
    case ArchivePaper(p) => SameLibrary(w.library, Commit(w, m).library); LibraryChanged(w, Commit(w, m).library);
    case FinishIndex(x, c) => IndexKeeps(w, x, c);
    case _ =>
      if m.review in w.reviews {
        MoveRunKeeps(w.library, w.reviews[m.review], m);
        ReviewChanged(w, m.review, MoveRun(w.library, w.reviews[m.review], m));
      }
  }

  lemma OpenKeeps(w: World, r: ReviewId, owner: OwnerId, project: ProjectId, sourceLimit: nat, minimumReady: nat)
    requires Inv(w) && r !in w.reviews
    ensures Inv(WithReview(w, r, Opening(owner, project, sourceLimit, minimumReady)))
  {
    hide LibrarySound;
    assert ReviewSound(w.library, Opening(owner, project, sourceLimit, minimumReady));
    hide ReviewSound;
    ReviewChanged(w, r, Opening(owner, project, sourceLimit, minimumReady));
  }

  lemma StoredKeeps(l: Library, owner: OwnerId, hash: Hash)
    requires LibrarySound(l)
    ensures LibrarySound(l.(stored := l.stored + {(owner, hash)}))
  {
  }

  lemma CompletionKeeps(w: World, r: ReviewId, ready: nat)
    requires Inv(w) && r in w.reviews
    ensures Inv(Complete(w, r, ready).0)
  {
    hide LibrarySound, ReviewSound, AllSettled;
    var v := w.reviews[r];
    if v.step.None? {
      var stage := if AllSettled(v.sources) && ready > 0 && v.stage.ImportStage? then MatrixStage else v.stage;
      CompleteKeeps(w.library, v, stage);
      ReviewChanged(w, r, AppendNote(v.(step := Some(|v.sources|), stage := stage), ImportCompleted));
    }
  }

  lemma ChunkSetKeeps(l: Library, x: VersionId, c: ChunkSetId)
    requires LibrarySound(l) && x in l.versions
    ensures LibrarySound(l.(chunkSets := l.chunkSets[x := c]))
  {
    hide SameContent;
  }

  lemma IndexKeeps(w: World, x: VersionId, c: ChunkSetId)
    requires Inv(w)
    ensures Inv(Commit(w, FinishIndex(x, c)))
  {
    hide ReviewSound, LibrarySound;
    var l := w.library;
    if x in l.versions && x !in l.chunkSets && c !in l.chunkSets.Values {
      var l' := l.(chunkSets := l.chunkSets[x := c]);
      ChunkSetKeeps(l, x, c);
      hide LibrarySound;
      LibraryChanged(w, l');
    }
  }

  lemma {:induction false} PlayKeeps(w: World, moves: seq<Move>)
    requires Inv(w)
    ensures Inv(Play(w, moves))
  {
    hide Inv, Commit;
    if moves != [] {
      PlayKeeps(w, moves[..|moves| - 1]);
      CommitKeeps(Play(w, moves[..|moves| - 1]), moves[|moves| - 1]);
    }
  }

  /** Over any sequence of commits the library has one canonical version for each owner and content, each with at
      most one ingestion run and that with exactly one outbox entry; dependency targets are distinct, bound
      sources have their dependencies, and a completed import has exactly one completion event. */
  lemma EveryRunKeeps(moves: seq<Move>)
    ensures Inv(Play(EMPTY_WORLD, moves))
  {
    PlayKeeps(EMPTY_WORLD, moves);
  }

  // ---- cancellation -------------------------------------------------------------------------------------------

  /** A confirmed cancellation leaves no open candidate, changes no other source and nothing else of the
      world, and happens once. */
  lemma ConfirmationRejectsExactlyTheOpen(w: World, r: ReviewId)
    requires r in w.reviews && w.reviews[r].status.CancelRequested?
    ensures var (w', stop) := ConfirmIfRequested(w, r);
            && stop && r in w'.reviews && w'.library == w.library && w'.reviews.Keys == w.reviews.Keys
            && w'.reviews[r].status.Cancelled? && |w'.reviews[r].sources| == |w.reviews[r].sources|
            && (forall i :: 0 <= i < |w.reviews[r].sources| ==>
                  && !w'.reviews[r].sources[i].status.Discovered?
                  && (w'.reviews[r].sources[i] != w.reviews[r].sources[i] <==> w.reviews[r].sources[i].status.Discovered?))
            && |w'.reviews[r].events| == |w.reviews[r].events| + 1
            && w'.reviews[r].dependencies == w.reviews[r].dependencies
            && ConfirmIfRequested(w', r) == (w', true)
  {
  }

  // ---- registering the same content twice -------------------------------------------------------------------

  /** Content that the owner already has, in whatever project or review, adds no version, no run and no outbox
      entry, and binds the source to the version that is there. */
  lemma KnownContentIsReused(w: World, r: ReviewId, i: nat, hash: Hash, size: nat, ids: Fresh, x: VersionId)
    requires Inv(w) && r in w.reviews && i < |w.reviews[r].sources|
    requires x in w.library.versions && IsContent(w.library, x, w.reviews[r].owner, hash)
    ensures var out := Register(w, r, i, hash, size, ids);
            && out.world.library.versions == w.library.versions
            && out.world.library.ingestions == w.library.ingestions
            && out.world.library.outbox == w.library.outbox
            && (out.reply.Bound? ==> out.reply.created.None?)
            && (out.reply.Bound? && w.reviews[r].sources[i].status.Discovered? ==>
                  r in out.world.reviews && i < |out.world.reviews[r].sources|
                  && out.world.reviews[r].sources[i].version == Some(x))
  {
    OnlyContent(w.library, w.reviews[r].owner, hash, x) by { hide ReviewSound; }
    hide Inv, Register, HasContent, IsContent;
    KnownAddsNothing(w, r, i, hash, size, ids);
    KnownBinds(w, r, i, hash, size, ids, x);
  }

  lemma KnownAddsNothing(w: World, r: ReviewId, i: nat, hash: Hash, size: nat, ids: Fresh)
    requires r in w.reviews && i < |w.reviews[r].sources| && HasContent(w.library, w.reviews[r].owner, hash)
    ensures var out := Register(w, r, i, hash, size, ids);
            && out.world.library.versions == w.library.versions
            && out.world.library.ingestions == w.library.ingestions
            && out.world.library.outbox == w.library.outbox
            && (out.reply.Bound? ==> out.reply.created.None?)
  {
    ContentThere(w.library, w.reviews[r].owner, hash);
    hide HasContent, ContentOf, Bind, Confirmed, IsContent;
  }

  lemma KnownBinds(w: World, r: ReviewId, i: nat, hash: Hash, size: nat, ids: Fresh, x: VersionId)
    requires r in w.reviews && i < |w.reviews[r].sources| && HasContent(w.library, w.reviews[r].owner, hash)
    requires x in w.library.versions && ContentOf(w.library, w.reviews[r].owner, hash) == x
    ensures var out := Register(w, r, i, hash, size, ids);
            out.reply.Bound? && w.reviews[r].sources[i].status.Discovered? ==>
              r in out.world.reviews && i < |out.world.reviews[r].sources| && out.world.reviews[r].sources[i].version == Some(x)
  {
    BindsTo(w.library, w.reviews[r], i, x);
    hide HasContent, ContentOf, Bind, Confirmed, IsContent;
  }

  lemma BindsTo(l: Library, v: Review, i: nat, x: VersionId)
    requires i < |v.sources| && x in l.versions
    ensures |Bind(l, v, i, x).sources| == |v.sources| && Bind(l, v, i, x).sources[i].version == Some(x)
  {
    hide Require;
  }

  lemma OnlyContent(l: Library, owner: OwnerId, hash: Hash, x: VersionId)
    requires LibrarySound(l) && x in l.versions && IsContent(l, x, owner, hash)
    ensures HasContent(l, owner, hash) && ContentOf(l, owner, hash) == x
  {
    assert HasContent(l, owner, hash);
    ContentThere(l, owner, hash);
    assert SameContent(l.versions[x], l.versions[ContentOf(l, owner, hash)]);
    hide ContentOf;
  }

  /** New content becomes one canonical version of a new paper in the project, with one ingestion run and one outbox
      entry, and the source waits for that version and that run. */
  lemma NewContentIsAdded(w: World, r: ReviewId, i: nat, hash: Hash, size: nat, ids: Fresh)
    requires Inv(w) && r in w.reviews && i < |w.reviews[r].sources|
    requires !w.reviews[r].status.CancelRequested? && !w.reviews[r].status.Cancelled?
    requires w.reviews[r].sources[i].status.Discovered? && w.reviews[r].sources[i].identified
    requires !HasContent(w.library, w.reviews[r].owner, hash) && Unused(w.library, ids)
    ensures var out := Register(w, r, i, hash, size, ids); var l, l' := w.library, out.world.library;
            && out.reply == Bound(false, Some(ids.run))
            && ids.version in l'.versions && IsContent(l', ids.version, w.reviews[r].owner, hash)
            && l'.versions.Keys == l.versions.Keys + {ids.version} && l'.ingestions.Keys == l.ingestions.Keys + {ids.run}
            && l'.outbox == l.outbox + [ids.run] && (w.reviews[r].project, l'.versions[ids.version].paper) in l'.inProject
            && r in out.world.reviews && i < |out.world.reviews[r].sources|
            && out.world.reviews[r].sources[i].status.Importing? && out.world.reviews[r].sources[i].version == Some(ids.version)
            && {OnVersion(ids.version), OnRun(ids.run)} <= Targets(out.world.reviews[r].dependencies)
            && Targets(w.reviews[r].dependencies) <= Targets(out.world.reviews[r].dependencies)
  {
    var v, l := w.reviews[r], w.library;
    assert ids.version !in l.chunkSets by { assert LibrarySound(l); }
    assert DistinctTargets(v.dependencies) && ChunkDepsSatisfied(v.dependencies) by { assert ReviewSound(l, v); }
    hide Inv, HasContent, Require;
    RequireKeeps(v.dependencies, OnVersion(ids.version), Pending);
    RequireKeeps(Require(v.dependencies, OnVersion(ids.version), Pending), OnRun(ids.run), Pending);
    hide Targets;
  }

  // ---- what "imported" means ----------------------------------------------------------------------------------

  /** The status a source has in the store. */
  function StatusIn(w: World, r: ReviewId, i: nat): SourceStatus
    requires r in w.reviews && i < |w.reviews[r].sources|
  {
    w.reviews[r].sources[i].status
  }

  /** A registration that the loop counts as imported leaves the source importing or ready exactly when nobody
      had failed or rejected it meanwhile; otherwise the loop counts as imported what the store does not. */
  lemma ImportedMeans(w: World, r: ReviewId, i: nat, hash: Hash, size: nat, ids: Fresh)
    requires r in w.reviews && i < |w.reviews[r].sources| && Register(w, r, i, hash, size, ids).reply.Bound?
    ensures var after := Register(w, r, i, hash, size, ids);
            && r in after.world.reviews && i < |after.world.reviews[r].sources|
            && ((StatusIn(after.world, r, i).Importing? || StatusIn(after.world, r, i).Ready?)
                <==> !StatusIn(w, r, i).SourceFailed? && !StatusIn(w, r, i).Rejected?)
            && (after.reply.ready <==> StatusIn(after.world, r, i).Ready?)
  {
    hide HasContent, Require;
    if HasContent(w.library, w.reviews[r].owner, hash) { ContentThere(w.library, w.reviews[r].owner, hash); }
    hide ContentOf;
  }

  // ---- the loop -------------------------------------------------------------------------------------------------

  function RejectedIn(sources: seq<Source>): nat {
    if sources == [] then 0
    else RejectedIn(sources[..|sources| - 1]) + if sources[|sources| - 1].status.Rejected? then 1 else 0
  }

  function Max(a: int, b: int): int {
    if a < b then b else a
  }

  /** One source adds one to exactly one of the counters unless it was rejected or the loop ends, and the bytes
      stay within the budget whatever the gateway is asked for. */
  lemma OneSourceCounts(w: World, r: ReviewId, i: nat, source: Source, t: Turn, budget: int, tally: Tally)
    ensures var p := ImportOne(w, r, i, source, t, budget, tally);
            && (if p.verdict.Going? then
                  p.tally.imported + p.tally.failed + (if source.status.Rejected? then 1 else 0) == tally.imported + tally.failed + 1
                else p.tally.imported == tally.imported && p.tally.failed == tally.failed)
            && p.tally.ready - tally.ready <= p.tally.imported - tally.imported
            && tally.bytes <= p.tally.bytes <= Max(tally.bytes, budget)
  {
    hide Play, ConfirmIfRequested, Register, MarkFailed, Commit;
  }

  /** Over any script the counters account for each source the loop has passed, ready ones are imported, and the
      counted bytes never exceed the larger of what was there at the start and the budget. */
  lemma {:induction false} CountersConserveSources(w: World, r: ReviewId, sources: seq<Source>, turns: seq<Turn>, budget: int,
                                                   bytes: int, k: nat)
    requires k <= |sources| == |turns|
    ensures var p := ImportFirst(w, r, sources, turns, budget, Tally(0, 0, 0, bytes), k);
            && p.tally.imported + p.tally.failed + RejectedIn(sources[..k]) <= k
            && (p.verdict.Going? ==> p.tally.imported + p.tally.failed + RejectedIn(sources[..k]) == k)
            && p.tally.ready <= p.tally.imported
            && bytes <= p.tally.bytes <= Max(bytes, budget)
  {
    hide ImportOne;
    if k > 0 {
      CountersConserveSources(w, r, sources, turns, budget, bytes, k - 1);
      var done := ImportFirst(w, r, sources, turns, budget, Tally(0, 0, 0, bytes), k - 1);
      assert sources[..k][..k - 1] == sources[..k - 1];
      OneSourceCounts(done.world, r, k - 1, sources[k - 1], turns[k - 1], budget, done.tally);
    }
  }

  lemma OnErrorKeeps(w: World, r: ReviewId, i: nat, temporary: bool, t: Turn, tally: Tally)
    requires Inv(w)
    ensures Inv(OnError(w, r, i, temporary, t, tally).world)
  {
    hide Inv, Play, ConfirmIfRequested, MarkFailed;
    PlayKeeps(w, t.afterError);
    var w1 := Play(w, t.afterError);
    if r in w1.reviews {
      KnownReviews(w1, r);
      ConfirmKeeps(w1, r);
      var w2 := ConfirmIfRequested(w1, r).0;
      PlayKeeps(w2, t.beforeFailure);
      MarkFailedKeeps(Play(w2, t.beforeFailure), r, i);
    }
  }

  lemma KnownReviews(w: World, r: ReviewId)
    requires r in w.reviews
    ensures r in ConfirmIfRequested(w, r).0.reviews
    ensures ConfirmIfRequested(w, r).0.reviews[r].owner == w.reviews[r].owner
    ensures ConfirmIfRequested(w, r).0.library == w.library
  {
  }

  /** Reviews keep their owner, their sources move on, and what is stored stays stored. */
  ghost predicate Persists(w: World, w': World) {
    && w.library.stored <= w'.library.stored
    && forall r :: r in w.reviews ==> r in w'.reviews && SameReview(w.reviews[r], w'.reviews[r])
  }

  /** An open candidate may become anything, an import becomes ready or fails, everything else is final. */
  predicate StatusEvolves(a: SourceStatus, b: SourceStatus) {
    a == b || a.Discovered? || (a.Importing? && (b.Ready? || b.SourceFailed?))
  }

  /** Sources are only added, and each one moves on. */
  predicate SourcesEvolve(a: seq<Source>, b: seq<Source>) {
    |a| <= |b| && forall i :: 0 <= i < |a| ==> StatusEvolves(a[i].status, b[i].status)
  }

  predicate SameReview(v: Review, v': Review) {
    v'.owner == v.owner && (v.step.Some? ==> v'.step == v.step) && SourcesEvolve(v.sources, v'.sources)
  }

  lemma ReviewPersists(w: World, r: ReviewId, v: Review, l: Library)
    requires r in w.reviews && SameReview(w.reviews[r], v) && w.library.stored <= l.stored
    ensures Persists(w, World(w.reviews[r := v], l))
  {
    hide SourcesEvolve;
    assert forall q :: q in w.reviews ==> SameReview(w.reviews[q], w.reviews[q]) by { AllSame(w); }
  }

  lemma AllSame(w: World)
    ensures forall q :: q in w.reviews ==> SameReview(w.reviews[q], w.reviews[q])
    ensures forall w': World :: w.library.stored <= w'.library.stored && w'.reviews == w.reviews ==> Persists(w, w')
  {
  }

  lemma BindSame(l: Library, v: Review, i: nat, x: VersionId)
    requires i < |v.sources| && x in l.versions && v.sources[i].status.Discovered?
    ensures SameReview(v, Bind(l, v, i, x))
  {
    hide Require;
  }

  lemma RegisterPersists(w: World, r: ReviewId, i: nat, hash: Hash, size: nat, ids: Fresh)
    ensures Persists(w, Register(w, r, i, hash, size, ids).world)
  {
    hide Persists, SameReview, HasContent, ContentOf, Bind, Confirmed;
    AllSame(w);
    if r in w.reviews && i < |w.reviews[r].sources| {
      var v, l := w.reviews[r], w.library;
      ConfirmedSame(v);
      ReviewPersists(w, r, Confirmed(v), l);
      if v.sources[i].status.Discovered? {
        if HasContent(l, v.owner, hash) {
          ContentThere(l, v.owner, hash);
          var x := ContentOf(l, v.owner, hash);
          BindSame(l, v, i, x);
          ReviewPersists(w, r, Bind(l, v, i, x), l.(inProject := l.inProject + {(v.project, l.versions[x].paper)}));
        } else {
          var added := AddContent(l, v, hash, size, ids);
          BindSame(added, v, i, ids.version);
          ReviewPersists(w, r, Bind(added, v, i, ids.version), added);
        }
      }
    }
  }

  lemma ConfirmedSame(v: Review)
    ensures SameReview(v, Confirmed(v))
  {
  }

  lemma ReconcileSourceEvolves(l: Library, v: Review, i: nat, o: Outside, cancelling: bool)
    requires i < |v.sources|
    ensures SameReview(v, ReconcileSource(l, v, i, o, cancelling))
  {
    hide Evaluate, Require, Resolve;
  }

  lemma {:induction false} ReconcileFirstEvolves(l: Library, v: Review, o: Outside, cancelling: bool, k: nat)
    requires k <= |v.sources|
    ensures SameReview(v, ReconcileFirst(l, v, o, cancelling, k))
  {
    hide ReconcileSource;
    if k > 0 {
      ReconcileFirstEvolves(l, v, o, cancelling, k - 1);
      ReconcileSourceEvolves(l, ReconcileFirst(l, v, o, cancelling, k - 1), k - 1, o, cancelling);
    }
  }

  lemma MoveRunPersists(l: Library, v: Review, m: Move)
    requires OnTheRun(m)
    ensures SameReview(v, MoveRun(l, v, m))
  {
    hide ReconcileFirst, AllSettled, ReadyCount;
    ReconcileFirstEvolves(l, v, if m.Reconcile? then m.outside else Outside({}, {}, map[]), Cancelling(v.status), |v.sources|);
  }

  lemma SearchSame(v: Review, key: Key, found: seq<bool>)
    ensures SameReview(v, Search(v, key, found).0)
  {
  }

  lemma CompletePersists(w: World, r: ReviewId, ready: nat)
    requires r in w.reviews
    ensures Persists(w, Complete(w, r, ready).0)
  {
    hide AllSettled;
  }

  lemma OpenPersists(w: World, r: ReviewId, v: Review)
    requires r !in w.reviews
    ensures Persists(w, WithReview(w, r, v))
  {
  }

  lemma CommitPersists(w: World, m: Move)
    ensures Persists(w, Commit(w, m))
  {
    hide Persists, SameReview, Register, MoveRun, Opening, Search, Complete, ConfirmIfRequested, MarkFailed;
    AllSame(w);
    match m
    case OpenReview(r, owner, project, sourceLimit, minimumReady) =>
      if r !in w.reviews { OpenPersists(w, r, Opening(owner, project, sourceLimit, minimumReady)); }
    case RunSearch(r, key, found) =>
      if r in w.reviews {
        SearchSame(w.reviews[r], key, found);
        ReviewPersists(w, r, Search(w.reviews[r], key, found).0, w.library);
      }
    case ConfirmCancel(r) => if r in w.reviews { ConfirmPersists(w, r); }
    case WriteCache(_, _) =>
    case RegisterSource(r, i, hash, size, ids) => RegisterPersists(w, r, i, hash, size, ids);
    case FailSource(r, i) => MarkFailedPersists(w, r, i);
    case CompleteImport(r, ready) => if r in w.reviews { CompletePersists(w, r, ready); }
    case ArchivePaper(_) =>
    case FinishIndex(_, _) =>
    case _ =>
      if m.review in w.reviews {
        MoveRunPersists(w.library, w.reviews[m.review], m);
        ReviewPersists(w, m.review, MoveRun(w.library, w.reviews[m.review], m), w.library);
      }
  }

  lemma {:induction false} PlayPersists(w: World, moves: seq<Move>)
    ensures Persists(w, Play(w, moves))
  {
    hide Commit;
    if moves != [] {
      PlayPersists(w, moves[..|moves| - 1]);
      CommitPersists(Play(w, moves[..|moves| - 1]), moves[|moves| - 1]);
    }
  }

  /** The i-th event, and no other, announces the completed import. */
  predicate OnlyCompletion(events: seq<ReviewEvent>, i: int) {
    0 <= i < |events| && forall j :: 0 <= j < |events| ==> (events[j].note.ImportCompleted? <==> j == i)
  }

  /** The import step completes once: whatever is committed later, nobody completes it or announces it again. */
  lemma CompletedOnce(w: World, r: ReviewId, moves: seq<Move>, ready: nat)
    requires Inv(w) && r in w.reviews && w.reviews[r].step.Some?
    ensures var later := Play(w, moves);
            && r in later.reviews && !Complete(later, r, ready).1.Emitted? && Complete(later, r, ready).0 == later
            && exists i :: OnlyCompletion(later.reviews[r].events, i)
  {
    PlayPersists(w, moves);
    PlayKeeps(w, moves);
    var later := Play(w, moves);
    hide Play, LibrarySound, Persists;
    assert r in later.reviews && later.reviews[r].step.Some? by { assert Persists(w, later); PersistsStep(w, later, r); }
    assert NotesSound(later.reviews[r]) by { assert ReviewSound(later.library, later.reviews[r]); }
    var events := later.reviews[r].events;
    var i :| 0 <= i < |events| && events[i].note.ImportCompleted?;
    assert OnlyCompletion(events, i);
  }

  lemma PersistsStep(w: World, w': World, r: ReviewId)
    requires Persists(w, w') && r in w.reviews && w.reviews[r].step.Some?
    ensures r in w'.reviews && w'.reviews[r].step == w.reviews[r].step
  {
  }

  lemma OnContentKeeps(w: World, r: ReviewId, i: nat, hash: Hash, size: nat, t: Turn, tally: Tally)
    requires Inv(w)
    ensures Inv(OnContent(w, r, i, hash, size, t, tally).world)
  {
    hide Inv, Play, ConfirmIfRequested, Register, OnError;
    PlayKeeps(w, t.afterDownload);
    var w1 := Play(w, t.afterDownload);
    if r in w1.reviews {
      KnownReviews(w1, r);
      ConfirmKeeps(w1, r);
      var w2 := ConfirmIfRequested(w1, r).0;
      var owner := w2.reviews[r].owner;
      CommitKeeps(w2, WriteCache(owner, hash));
      var cached := Commit(w2, WriteCache(owner, hash));
      PlayKeeps(cached, t.afterWrite);
      PlayPersists(cached, t.afterWrite);
      var w3 := Play(cached, t.afterWrite);
      if r in w3.reviews {
        KnownReviews(w3, r);
        ConfirmKeeps(w3, r);
        var w4 := ConfirmIfRequested(w3, r).0;
        PlayKeeps(w4, t.beforeRegister);
        PlayPersists(w4, t.beforeRegister);
        RegisterKeeps(Play(w4, t.beforeRegister), r, i, hash, size, t.ids);
        var out := Register(Play(w4, t.beforeRegister), r, i, hash, size, t.ids);
        OnErrorKeeps(out.world, r, i, false, t, tally);
      }
    }
  }

  lemma ImportOneKeeps(w: World, r: ReviewId, i: nat, source: Source, t: Turn, budget: int, tally: Tally)
    requires Inv(w)
    ensures Inv(ImportOne(w, r, i, source, t, budget, tally).world)
  {
    hide Inv, Play, ConfirmIfRequested, OnError, OnContent;
    PlayKeeps(w, t.before);
    var w0 := Play(w, t.before);
    if r in w0.reviews {
      KnownReviews(w0, r);
      ConfirmKeeps(w0, r);
      var w1 := ConfirmIfRequested(w0, r).0;
      OnErrorKeeps(w1, r, i, true, t, tally);
      OnErrorKeeps(w1, r, i, false, t, tally);
      match Fetch(t.download, budget - tally.bytes)
      case Content(hash, size) => OnContentKeeps(w1, r, i, hash, size, t, tally.(bytes := tally.bytes + size));
      case _ =>
    }
  }

  /** The loop itself, interrupted or not and run any number of times, keeps the library and every review sound. */
  lemma {:induction false} ImportKeeps(w: World, r: ReviewId, sources: seq<Source>, turns: seq<Turn>, budget: int, start: Tally,
                                       k: nat)
    requires Inv(w) && k <= |sources| == |turns|
    ensures Inv(ImportFirst(w, r, sources, turns, budget, start, k).world)
  {
    hide Inv, ImportOne;
    if k > 0 {
      ImportKeeps(w, r, sources, turns, budget, start, k - 1);
      var done := ImportFirst(w, r, sources, turns, budget, start, k - 1);
      ImportOneKeeps(done.world, r, k - 1, sources[k - 1], turns[k - 1], budget, done.tally);
    }
  }

  // ---- an undisturbed import ------------------------------------------------------------------------------------------

  predicate Undisturbed(t: Turn) {
    && t.before == [] && t.afterDownload == [] && t.afterWrite == [] && t.beforeRegister == [] && t.afterError == []
    && t.beforeFailure == []
  }

  predicate Active(w: World, r: ReviewId) {
    r in w.reviews && !w.reviews[r].status.CancelRequested? && !w.reviews[r].status.Cancelled?
  }

  predicate IsImported(s: SourceStatus) { s.Importing? || s.Ready? }

  function CountStatus(sources: seq<Source>, p: SourceStatus -> bool): nat {
    if sources == [] then 0
    else CountStatus(sources[..|sources| - 1], p) + if p(sources[|sources| - 1].status) then 1 else 0
  }

  /** What an undisturbed step does to the review: it settles this source and no other. */
  lemma UndisturbedOne(w: World, r: ReviewId, i: nat, t: Turn, budget: int, tally: Tally)
    requires Active(w, r) && i < |w.reviews[r].sources| && Undisturbed(t)
    ensures var p := ImportOne(w, r, i, w.reviews[r].sources[i], t, budget, tally);
            p.verdict.Going? ==>
              && Active(p.world, r)
              && |p.world.reviews[r].sources| == |w.reviews[r].sources|
              && (forall j :: 0 <= j < |w.reviews[r].sources| && j != i ==> p.world.reviews[r].sources[j] == w.reviews[r].sources[j])
              && var after := p.world.reviews[r].sources[i].status;
                 && !after.Discovered?
                 && p.tally.imported == tally.imported + (if IsImported(after) then 1 else 0)
                 && p.tally.ready == tally.ready + (if after.Ready? then 1 else 0)
                 && p.tally.failed == tally.failed + (if after.SourceFailed? then 1 else 0)
  {
    hide Require, HasContent, ContentOf, Commit;
    assert forall x :: Play(x, []) == x;
    var source := w.reviews[r].sources[i];
    if source.status.Discovered? && source.identified {
      match Fetch(t.download, budget - tally.bytes)
      case Content(hash, size) => UndisturbedContent(w, r, i, hash, size, t, tally.(bytes := tally.bytes + size));
      case TemporaryError =>
      case PermanentError => UndisturbedError(w, r, i, t, tally);
    }
    hide OnError, OnContent, Play, Fetch;
  }

  lemma UndisturbedError(w: World, r: ReviewId, i: nat, t: Turn, tally: Tally)
    requires Active(w, r) && i < |w.reviews[r].sources| && Undisturbed(t) && w.reviews[r].sources[i].status.Discovered?
    ensures var p := OnError(w, r, i, false, t, tally);
            && p.verdict.Going? && Active(p.world, r) && |p.world.reviews[r].sources| == |w.reviews[r].sources|
            && (forall j :: 0 <= j < |w.reviews[r].sources| && j != i ==> p.world.reviews[r].sources[j] == w.reviews[r].sources[j])
            && p.world.reviews[r].sources[i].status.SourceFailed?
            && p.tally == tally.(failed := tally.failed + 1)
  {
    assert forall x :: Play(x, []) == x;
  }

  lemma UndisturbedContent(w: World, r: ReviewId, i: nat, hash: Hash, size: nat, t: Turn, tally: Tally)
    requires Active(w, r) && i < |w.reviews[r].sources| && Undisturbed(t) && w.reviews[r].sources[i].status.Discovered?
    ensures var p := OnContent(w, r, i, hash, size, t, tally);
            p.verdict.Going? ==>
              && Active(p.world, r) && |p.world.reviews[r].sources| == |w.reviews[r].sources|
              && (forall j :: 0 <= j < |w.reviews[r].sources| && j != i ==> p.world.reviews[r].sources[j] == w.reviews[r].sources[j])
              && var after := p.world.reviews[r].sources[i].status;
                 && !after.Discovered?
                 && p.tally.imported == tally.imported + (if IsImported(after) then 1 else 0)
                 && p.tally.ready == tally.ready + (if after.Ready? then 1 else 0)
                 && p.tally.failed == tally.failed + (if after.SourceFailed? then 1 else 0)
  {
    assert forall x :: Play(x, []) == x;
    var cached := Commit(w, WriteCache(w.reviews[r].owner, hash));
    assert cached.reviews == w.reviews;
    RegisterSettles(cached, r, i, hash, size, t.ids);
    hide Commit, Register, Play;
    if Register(cached, r, i, hash, size, t.ids).reply.PaperArchived? {
      UndisturbedError(cached, r, i, t, tally);
    }
    hide OnError;
  }

  /** A registration that binds leaves the other sources alone; one that meets an archived paper changes nothing. */
  lemma RegisterSettles(w: World, r: ReviewId, i: nat, hash: Hash, size: nat, ids: Fresh)
    requires Active(w, r) && i < |w.reviews[r].sources| && w.reviews[r].sources[i].status.Discovered?
    ensures var out := Register(w, r, i, hash, size, ids);
            && !out.reply.CancelSeen?
            && (out.reply.PaperArchived? ==> out.world == w)
            && (out.reply.Bound? ==>
                  && Active(out.world, r) && |out.world.reviews[r].sources| == |w.reviews[r].sources|
                  && (forall j :: 0 <= j < |w.reviews[r].sources| && j != i ==> out.world.reviews[r].sources[j] == w.reviews[r].sources[j])
                  && out.world.reviews[r].sources[i].status == if out.reply.ready then Ready else Importing)
  {
    hide HasContent, Require;
    if HasContent(w.library, w.reviews[r].owner, hash) { ContentThere(w.library, w.reviews[r].owner, hash); }
    hide ContentOf;
  }

  /** When nobody interferes, the summary's counters are exactly the statuses the sources have in the store. */
  lemma {:induction false} UndisturbedSummaryIsExact(w: World, r: ReviewId, sources: seq<Source>, turns: seq<Turn>, budget: int,
                                                     bytes: int, k: nat)
    requires Active(w, r) && sources == w.reviews[r].sources && k <= |sources| == |turns|
    requires forall i :: 0 <= i < |turns| ==> Undisturbed(turns[i])
    ensures var p := ImportFirst(w, r, sources, turns, budget, Tally(0, 0, 0, bytes), k);
            p.verdict.Going? ==>
              && Active(p.world, r) && |p.world.reviews[r].sources| == |sources|
              && (forall j :: k <= j < |sources| ==> p.world.reviews[r].sources[j] == sources[j])
              && var done := p.world.reviews[r].sources[..k];
                 && (forall s :: s in done ==> !s.status.Discovered?)
                 && p.tally.imported == CountStatus(done, IsImported)
                 && p.tally.ready == CountStatus(done, (s: SourceStatus) => s.Ready?)
                 && p.tally.failed == CountStatus(done, (s: SourceStatus) => s.SourceFailed?)
  {
    hide ImportOne;
    if k > 0 {
      UndisturbedSummaryIsExact(w, r, sources, turns, budget, bytes, k - 1);
      var before := ImportFirst(w, r, sources, turns, budget, Tally(0, 0, 0, bytes), k - 1);
      var p := ImportFirst(w, r, sources, turns, budget, Tally(0, 0, 0, bytes), k);
      if p.verdict.Going? {
        UndisturbedOne(before.world, r, k - 1, turns[k - 1], budget, before.tally);
        var was, now := before.world.reviews[r].sources, p.world.reviews[r].sources;
        assert now[..k][..k - 1] == was[..k - 1];
        assert now[..k] == now[..k - 1] + [now[k - 1]];
      }
    }
  }

  /** A permanent failure that the loop counts leaves the source failed exactly when nobody had bound or rejected it
      meanwhile. */
  lemma FailedMeans(w: World, r: ReviewId, i: nat)
    requires r in w.reviews && i < |w.reviews[r].sources|
    ensures var after := MarkFailed(w, r, i);
            && r in after.reviews && i < |after.reviews[r].sources|
            && (StatusIn(after, r, i).SourceFailed? <==> StatusIn(w, r, i).Discovered? || StatusIn(w, r, i).SourceFailed?)
  {
  }

  // ---- a disturbed import ---------------------------------------------------------------------------------------------

  ghost predicate Reachable(w: World) {
    exists moves :: w == Play(EMPTY_WORLD, moves)
  }

  lemma CommitReachable(w: World, m: Move)
    requires Reachable(w)
    ensures Reachable(Commit(w, m))
  {
    hide Commit;
    var moves :| w == Play(EMPTY_WORLD, moves);
    assert (moves + [m])[..|moves|] == moves;
    assert Commit(w, m) == Play(EMPTY_WORLD, moves + [m]);
  }

  /** A review whose search found one paper. */
  lemma SearchedExample() returns (w: World)
    ensures Reachable(w) && Active(w, "r") && w.library == EMPTY_WORLD.library
    ensures w.reviews["r"].sources == [Source(Discovered, None, true)] && w.reviews["r"].status.Running?
    ensures w.reviews["r"].owner == "o" && w.reviews["r"].dependencies == [] && w.reviews["r"].stage.ImportStage?
  {
    var begun := Commit(EMPTY_WORLD, OpenReview("r", "o", "p", 3, 1));
    var started := Commit(begun, StartReview("r"));
    w := Commit(started, RunSearch("r", "key", [true]));
    assert Reachable(EMPTY_WORLD) by { assert EMPTY_WORLD == Play(EMPTY_WORLD, []); }
    CommitReachable(EMPTY_WORLD, OpenReview("r", "o", "p", 3, 1));
    CommitReachable(begun, StartReview("r"));
    CommitReachable(started, RunSearch("r", "key", [true]));
    hide Reachable;
    assert w.reviews["r"].sources == [] + [Source(Discovered, None, true)];
  }

  /** One turn of the loop in a reachable world, over the one source of a review. */
  ghost predicate OneTurn(w: World, r: ReviewId, t: Turn, p: Progress) {
    && Reachable(w) && Active(w, r) && |w.reviews[r].sources| == 1
    && p == ImportOne(w, r, 0, w.reviews[r].sources[0], t, 1, Tally(0, 0, 0, 0))
    && p.verdict.Going? && r in p.world.reviews && |p.world.reviews[r].sources| == 1
  }

  /** When another execution settles an open source first, the loop can count as imported what has failed, and as
      failed what was imported; and an import it had read before is counted though its ingestion has failed since. */
  lemma DisturbedSummaryCanLie()
    ensures exists w, r, t, p ::
              OneTurn(w, r, t, p) && StatusIn(w, r, 0).Discovered? && p.tally == Tally(1, 0, 0, 1) && StatusIn(p.world, r, 0).SourceFailed?
    ensures exists w, r, t, p ::
              OneTurn(w, r, t, p) && StatusIn(w, r, 0).Discovered? && p.tally == Tally(0, 0, 1, 0) && StatusIn(p.world, r, 0).Importing?
    ensures exists w, r, t, p ::
              OneTurn(w, r, t, p) && StatusIn(w, r, 0).Importing? && p.tally == Tally(1, 0, 0, 0) && StatusIn(p.world, r, 0).SourceFailed?
  {
    var w := SearchedExample();
    var ids := Fresh("a", "b", "c");
    var late := Turn([], Content("h", 1), [], true, [], [FailSource("r", 0)], ids, [], []);
    FailedFirst(w, late);
    var p := ImportOne(w, "r", 0, w.reviews["r"].sources[0], late, 1, Tally(0, 0, 0, 0));
    assert OneTurn(w, "r", late, p);
    var bound := Turn([], PermanentError, [], true, [], [], ids, [],
                      [WriteCache("o", "h"), RegisterSource("r", 0, "h", 1, ids)]);
    BoundFirst(w, bound);
    var q := ImportOne(w, "r", 0, w.reviews["r"].sources[0], bound, 1, Tally(0, 0, 0, 0));
    assert OneTurn(w, "r", bound, q);
    SnapshotExample(w, ids);
  }

  /** The source is bound, the run waits for its ingestion and that fails, all after a slow call has read the source. */
  lemma SnapshotExample(w: World, ids: Fresh)
    requires Searched(w) && Reachable(w)
    ensures exists x, r, t, p ::
              OneTurn(x, r, t, p) && StatusIn(x, r, 0).Importing? && p.tally == Tally(1, 0, 0, 0) && StatusIn(p.world, r, 0).SourceFailed?
  {
    var cached := Commit(w, WriteCache("o", "h"));
    var bound := Commit(cached, RegisterSource("r", 0, "h", 1, ids));
    CommitReachable(w, WriteCache("o", "h"));
    CommitReachable(cached, RegisterSource("r", 0, "h", 1, ids));
    BoundExample(w, ids);
    hide Reachable, Register, Commit, Play, Searched;
    StalledImport(bound, ids);
  }

  predicate BoundTo(w: World, ids: Fresh) {
    && "r" in w.reviews && |w.reviews["r"].sources| == 1 && w.reviews["r"].sources[0].status.Importing?
    && w.reviews["r"].status.Running? && w.reviews["r"].stage.ImportStage?
    && w.reviews["r"].sources[0].version == Some(ids.version) && ids.version !in w.library.chunkSets
    && ids.version in w.library.versions && w.library.versions[ids.version].run == Some(ids.run)
  }

  lemma StalledImport(bound: World, ids: Fresh)
    requires Reachable(bound) && BoundTo(bound, ids)
    ensures exists x, r, t, p ::
              OneTurn(x, r, t, p) && StatusIn(x, r, 0).Importing? && p.tally == Tally(1, 0, 0, 0) && StatusIn(p.world, r, 0).SourceFailed?
  {
    hide Reachable, Commit, Play;
    var o := Outside({}, {ids.version}, map[]);
    var t := Turn([AwaitDependencies("r"), Reconcile("r", o)], PermanentError, [], true, [], [], ids, [], []);
    var reconciled := Commit(Commit(bound, AwaitDependencies("r")), Reconcile("r", o));
    PlayTwo(bound, AwaitDependencies("r"), Reconcile("r", o));
    StalledExample(bound, o, ids);
    var p := ImportOne(bound, "r", 0, bound.reviews["r"].sources[0], t, 1, Tally(0, 0, 0, 0));
    StalledTurn(bound, reconciled, t);
    assert OneTurn(bound, "r", t, p);
  }

  /** A slow call meets a source it had read as importing. */
  lemma StalledTurn(w: World, later: World, t: Turn)
    requires "r" in w.reviews && |w.reviews["r"].sources| == 1 && w.reviews["r"].sources[0].status.Importing?
    requires later == Play(w, t.before) && "r" in later.reviews && !Cancelling(later.reviews["r"].status)
    ensures ImportOne(w, "r", 0, w.reviews["r"].sources[0], t, 1, Tally(0, 0, 0, 0)) == Progress(later, Tally(1, 0, 0, 0), Going)
  {
    hide Play;
  }

  lemma StalledExample(bound: World, o: Outside, ids: Fresh)
    requires BoundTo(bound, ids)
    requires o == Outside({}, {ids.version}, map[])
    ensures var after := Commit(Commit(bound, AwaitDependencies("r")), Reconcile("r", o));
            && "r" in after.reviews && |after.reviews["r"].sources| == 1 && after.reviews["r"].sources[0].status.SourceFailed?
            && !Cancelling(after.reviews["r"].status)
  {
    var v := AwaitIngestion(bound.reviews["r"]);
    assert Commit(bound, AwaitDependencies("r")).reviews["r"] == v;
    assert Evaluate(bound.library, v, 0, o) == Fails;
    hide Evaluate, Resolve;
    assert ReconcileFirst(bound.library, v, o, false, 1) == ReconcileSource(bound.library, v, 0, o, false);
  }

  predicate Searched(w: World) {
    && Active(w, "r") && w.library == EMPTY_WORLD.library && w.reviews["r"].owner == "o" && w.reviews["r"].dependencies == []
    && w.reviews["r"].sources == [Source(Discovered, None, true)] && w.reviews["r"].status.Running? && w.reviews["r"].stage.ImportStage?
  }

  lemma FailedFirst(w: World, t: Turn)
    requires Searched(w) && t == Turn([], Content("h", 1), [], true, [], [FailSource("r", 0)], t.ids, [], [])
    ensures var p := ImportOne(w, "r", 0, w.reviews["r"].sources[0], t, 1, Tally(0, 0, 0, 0));
            && p.verdict.Going? && p.tally == Tally(1, 0, 0, 1)
            && "r" in p.world.reviews && |p.world.reviews["r"].sources| == 1
            && p.world.reviews["r"].sources[0].status.SourceFailed?
  {
    assert forall x :: Play(x, []) == x;
    var cached := Commit(w, WriteCache(w.reviews["r"].owner, "h"));
    assert [FailSource("r", 0)][..0] == [];
    assert Play(cached, [FailSource("r", 0)]) == MarkFailed(cached, "r", 0);
    var failed := MarkFailed(cached, "r", 0);
    assert failed.reviews["r"].sources[0].status.SourceFailed? && failed.reviews["r"].status == w.reviews["r"].status;
    assert Register(failed, "r", 0, "h", 1, t.ids) == Registration(failed, Bound(false, None));
    hide Play, Commit, Register, MarkFailed;
  }

  lemma BoundFirst(w: World, t: Turn)
    requires Searched(w)
    requires t == Turn([], PermanentError, [], true, [], [], t.ids, [], [WriteCache("o", "h"), RegisterSource("r", 0, "h", 1, t.ids)])
    ensures var p := ImportOne(w, "r", 0, w.reviews["r"].sources[0], t, 1, Tally(0, 0, 0, 0));
            && p.verdict.Going? && p.tally == Tally(0, 0, 1, 0)
            && "r" in p.world.reviews && |p.world.reviews["r"].sources| == 1
            && p.world.reviews["r"].sources[0].status.Importing?
  {
    var cached := Commit(w, WriteCache("o", "h"));
    var bound := Commit(cached, RegisterSource("r", 0, "h", 1, t.ids));
    PlayTwo(w, WriteCache("o", "h"), RegisterSource("r", 0, "h", 1, t.ids));
    BoundExample(w, t.ids);
    assert Play(w, []) == w;
    hide Commit, Play;
    assert MarkFailed(bound, "r", 0) == bound;
    assert OnError(w, "r", 0, false, t, Tally(0, 0, 0, 0)) == Progress(bound, Tally(0, 0, 1, 0), Going);
    hide OnError;
  }

  lemma PlayTwo(w: World, a: Move, b: Move)
    ensures Play(w, [a, b]) == Commit(Commit(w, a), b)
  {
    hide Commit;
    assert [a, b][..1] == [a] && [a][..0] == [];
    assert Play(w, [a]) == Commit(w, a);
  }

  lemma BoundExample(w: World, ids: Fresh)
    requires Searched(w)
    ensures var bound := Commit(Commit(w, WriteCache("o", "h")), RegisterSource("r", 0, "h", 1, ids));
            BoundTo(bound, ids)
  {
    var cached := Commit(w, WriteCache("o", "h"));
    assert !HasContent(cached.library, "o", "h");
    hide Require, ContentOf;
  }

  // ---- one call of the import -----------------------------------------------------------------------------------------

  /** The summary of a call that completes accounts for every source there was at its start, ready ones are imported,
      and the bytes never exceed the larger of what was bound before and the budget. */
  lemma SummaryAccountsForAll(w: World, r: ReviewId, budget: int, script: Script)
    requires r in w.reviews && |script.turns| == |w.reviews[r].sources|
    ensures var out := ImportAll(w, r, budget, script); var sources := w.reviews[r].sources;
            && out.tally.ready <= out.tally.imported
            && out.tally.imported + out.tally.failed + RejectedIn(sources) <= |sources|
            && (out.ending.Completed? ==> out.tally.imported + out.tally.failed + RejectedIn(sources) == |sources|)
            && out.tally.bytes <= Max(ConsumedBytes(w.library, sources), budget)
  {
    hide ImportFirst, Play, ConfirmIfRequested, Complete, RejectedIn, ConsumedBytes, VersionsOwned;
    var sources := w.reviews[r].sources;
    var bytes := ConsumedBytes(w.library, sources);
    RejectedAtMost(sources);
    assert sources[..|sources|] == sources;
    var w1 := Play(w, script.afterRead);
    if r in w1.reviews {
      var w2 := ConfirmIfRequested(w1, r).0;
      CountersConserveSources(w2, r, sources, script.turns, budget, bytes, |sources|);
    }
  }

  lemma {:induction false} RejectedAtMost(sources: seq<Source>)
    ensures RejectedIn(sources) <= |sources|
  {
    if sources != [] { RejectedAtMost(sources[..|sources| - 1]); }
  }

  lemma PersistsOn(a: World, b: World, c: World)
    requires Persists(a, b) && Persists(b, c)
    ensures Persists(a, c)
  {
  }

  lemma ConfirmPersists(w: World, r: ReviewId)
    requires r in w.reviews
    ensures Persists(w, ConfirmIfRequested(w, r).0) && r in ConfirmIfRequested(w, r).0.reviews
  {
  }

  lemma MarkFailedPersists(w: World, r: ReviewId, i: nat)
    ensures Persists(w, MarkFailed(w, r, i))
  {
  }

  lemma OnErrorPersists(w: World, r: ReviewId, i: nat, temporary: bool, t: Turn, tally: Tally)
    ensures Persists(w, OnError(w, r, i, temporary, t, tally).world)
  {
    hide Persists, Play, ConfirmIfRequested, MarkFailed;
    PlayPersists(w, t.afterError);
    var w1 := Play(w, t.afterError);
    if r in w1.reviews {
      ConfirmPersists(w1, r);
      var w2 := ConfirmIfRequested(w1, r).0;
      PersistsOn(w, w1, w2);
      PlayPersists(w2, t.beforeFailure);
      var w3 := Play(w2, t.beforeFailure);
      PersistsOn(w, w2, w3);
      MarkFailedPersists(w3, r, i);
      PersistsOn(w, w3, MarkFailed(w3, r, i));
    }
  }

  lemma OnContentPersists(w: World, r: ReviewId, i: nat, hash: Hash, size: nat, t: Turn, tally: Tally)
    ensures Persists(w, OnContent(w, r, i, hash, size, t, tally).world)
  {
    hide Persists, Play, ConfirmIfRequested, Register, OnError, Commit;
    PlayPersists(w, t.afterDownload);
    var w1 := Play(w, t.afterDownload);
    if r in w1.reviews {
      ConfirmPersists(w1, r);
      var w2 := ConfirmIfRequested(w1, r).0;
      PersistsOn(w, w1, w2);
      var cached := Commit(w2, WriteCache(w2.reviews[r].owner, hash));
      CommitPersists(w2, WriteCache(w2.reviews[r].owner, hash));
      PersistsOn(w, w2, cached);
      PlayPersists(cached, t.afterWrite);
      var w3 := Play(cached, t.afterWrite);
      PersistsOn(w, cached, w3);
      if r in w3.reviews {
        ConfirmPersists(w3, r);
        var w4 := ConfirmIfRequested(w3, r).0;
        PersistsOn(w, w3, w4);
        PlayPersists(w4, t.beforeRegister);
        var w5 := Play(w4, t.beforeRegister);
        PersistsOn(w, w4, w5);
        RegisterPersists(w5, r, i, hash, size, t.ids);
        var w6 := Register(w5, r, i, hash, size, t.ids).world;
        PersistsOn(w, w5, w6);
        OnErrorPersists(w6, r, i, false, t, tally);
        PersistsOn(w, w6, OnError(w6, r, i, false, t, tally).world);
      }
    }
  }

  lemma ImportOnePersists(w: World, r: ReviewId, i: nat, source: Source, t: Turn, budget: int, tally: Tally)
    ensures Persists(w, ImportOne(w, r, i, source, t, budget, tally).world)
  {
    hide Persists, Play, ConfirmIfRequested, OnError, OnContent;
    PlayPersists(w, t.before);
    var w0 := Play(w, t.before);
    if r in w0.reviews {
      ConfirmPersists(w0, r);
      var w1 := ConfirmIfRequested(w0, r).0;
      PersistsOn(w, w0, w1);
      OnErrorPersists(w1, r, i, true, t, tally);
      OnErrorPersists(w1, r, i, false, t, tally);
      PersistsOn(w, w1, OnError(w1, r, i, true, t, tally).world);
      PersistsOn(w, w1, OnError(w1, r, i, false, t, tally).world);
      match Fetch(t.download, budget - tally.bytes)
      case Content(hash, size) =>
        var spent := tally.(bytes := tally.bytes + size);
        OnContentPersists(w1, r, i, hash, size, t, spent);
        PersistsOn(w, w1, OnContent(w1, r, i, hash, size, t, spent).world);
      case _ =>
    }
  }

  lemma {:induction false} ImportFirstPersists(w: World, r: ReviewId, sources: seq<Source>, turns: seq<Turn>, budget: int,
                                               start: Tally, k: nat)
    requires k <= |sources| == |turns|
    ensures Persists(w, ImportFirst(w, r, sources, turns, budget, start, k).world)
  {
    hide ImportOne;
    if k > 0 {
      ImportFirstPersists(w, r, sources, turns, budget, start, k - 1);
      hide Persists;
      var done := ImportFirst(w, r, sources, turns, budget, start, k - 1);
      ImportOnePersists(done.world, r, k - 1, sources[k - 1], turns[k - 1], budget, done.tally);
      PersistsOn(w, done.world, ImportOne(done.world, r, k - 1, sources[k - 1], turns[k - 1], budget, done.tally).world);
    }
  }

  /** A call that emits the completion finds the step open and leaves it completed. */
  lemma EmissionCloses(w: World, r: ReviewId, budget: int, script: Script)
    requires r in w.reviews && |script.turns| == |w.reviews[r].sources|
    ensures var out := ImportAll(w, r, budget, script);
            out.ending == Completed(true) ==>
              w.reviews[r].step.None? && r in out.world.reviews && out.world.reviews[r].step.Some?
  {
    hide Persists, Play, ConfirmIfRequested, ImportFirst, ConsumedBytes, VersionsOwned, AllSettled;
    var out := ImportAll(w, r, budget, script);
    if out.ending == Completed(true) {
      var sources := w.reviews[r].sources;
      var start := Tally(0, 0, 0, ConsumedBytes(w.library, sources));
      var w1 := Play(w, script.afterRead);
      PlayPersists(w, script.afterRead);
      ConfirmPersists(w1, r);
      var w2 := ConfirmIfRequested(w1, r).0;
      PersistsOn(w, w1, w2);
      var loop := ImportFirst(w2, r, sources, script.turns, budget, start, |sources|);
      ImportFirstPersists(w2, r, sources, script.turns, budget, start, |sources|);
      PersistsOn(w, w2, loop.world);
      var w3 := Play(loop.world, script.beforeEnd);
      PlayPersists(loop.world, script.beforeEnd);
      PersistsOn(w, loop.world, w3);
      ConfirmPersists(w3, r);
      var w4 := ConfirmIfRequested(w3, r).0;
      PersistsOn(w, w3, w4);
      var w5 := Play(w4, script.beforeComplete);
      PlayPersists(w4, script.beforeComplete);
      PersistsOn(w, w4, w5);
      if w.reviews[r].step.Some? { PersistsStep(w, w5, r); }
    }
  }

  /** Of all calls for a review, whatever is committed between them, at most one emits the completion. */
  lemma OnlyOneCallEmits(w: World, r: ReviewId, budget: int, script: Script, between: seq<Move>, later: Script)
    requires r in w.reviews && |script.turns| == |w.reviews[r].sources|
    requires ImportAll(w, r, budget, script).ending == Completed(true)
    ensures var w' := Play(ImportAll(w, r, budget, script).world, between);
            && r in w'.reviews
            && (|later.turns| == |w'.reviews[r].sources| ==> ImportAll(w', r, budget, later).ending != Completed(true))
  {
    hide ImportAll, Play;
    var after := ImportAll(w, r, budget, script).world;
    EmissionCloses(w, r, budget, script);
    PlayPersists(after, between);
    var w' := Play(after, between);
    PersistsStep(after, w', r);
    hide Persists;
    if |later.turns| == |w'.reviews[r].sources| { EmissionCloses(w', r, budget, later); }
  }
}
