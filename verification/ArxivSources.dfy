/** How each source of a review moves: bound, rejected, failed or made ready, by whom and when. */
module ArxivSources {
  import opened Wrappers
  import opened Runs
  import opened ArxivImport
  import opened ArxivImportTheorems
  import opened ArxivAnswers

  // ---- the reconciler, source by source ----------------------------------------------------------------------

  /** The version is the owner's and the project still has it. */
  predicate Placed(l: Library, v: Review, x: VersionId, o: Outside) {
    x in l.versions && l.versions[x].owner == v.owner && x !in o.misplaced
  }

  /** Its ingestion is the owner's, under way, and one the review waits for if it belongs to the review's project. */
  predicate Awaited(l: Library, v: Review, x: VersionId, o: Outside)
    requires x in l.versions
  {
    && x !in o.stalled
    && l.versions[x].run.Some? && l.versions[x].run.value in l.ingestions
    && var run := l.versions[x].run.value;
       l.ingestions[run].owner == v.owner && (l.ingestions[run].project == v.project ==> OnRun(run) in Targets(v.dependencies))
  }

  /** What becomes of one source: an open one of a cancelled review is rejected and any other open one fails; one that is being
      imported is ready once its version has a chunk set, and fails unless the version is still awaited. */
  function SettledStatus(l: Library, v: Review, i: nat, o: Outside): SourceStatus
    requires i < |v.sources|
  {
    var s := v.sources[i];
    if s.status.Discovered? then if Cancelling(v.status) then Rejected else SourceFailed
    else if !s.status.Importing? || s.version.None? then s.status
    else if !Placed(l, v, s.version.value, o) then SourceFailed
    else if s.version.value in l.chunkSets then Ready
    else if Awaited(l, v, s.version.value, o) then Importing
    else SourceFailed
  }

  /** A review in the middle of a reconciliation knows the same versions and runs as before. */
  ghost predicate SameView(v: Review, v': Review) {
    && v'.owner == v.owner && v'.project == v.project && v'.status == v.status && |v'.sources| == |v.sources|
    && forall t: Target :: !t.OnChunkSet? ==> (t in Targets(v'.dependencies) <==> t in Targets(v.dependencies))
  }

  lemma StepView(l: Library, v: Review, i: nat, o: Outside, cancelling: bool)
    requires i < |v.sources|
    ensures SameView(v, ReconcileSource(l, v, i, o, cancelling))
    ensures forall j :: 0 <= j < |v.sources| && j != i ==> ReconcileSource(l, v, i, o, cancelling).sources[j] == v.sources[j]
  {
    forall deps: seq<Dependency>, target: Target, status: DependencyStatus ensures Targets(Resolve(deps, target, status)) == Targets(deps) {
      ResolveTargets(deps, target, status);
    }
    hide Evaluate, Resolve;
  }

  lemma ResolveTargets(deps: seq<Dependency>, target: Target, status: DependencyStatus)
    ensures Targets(Resolve(deps, target, status)) == Targets(deps)
  {
    var after := Resolve(deps, target, status);
    forall d | d in deps ensures d.target in Targets(after) {
      var i :| 0 <= i < |deps| && deps[i] == d;
      assert after[i].target == d.target;
    }
    forall d | d in after ensures d.target in Targets(deps) {
      var i :| 0 <= i < |after| && after[i] == d;
      assert deps[i].target == d.target;
    }
  }

  /** The evaluation in the middle of a reconciliation, by what the review knew before it. */
  lemma EvaluatedAs(l: Library, v: Review, v': Review, i: nat, o: Outside)
    requires ReviewSound(l, v) && SameView(v, v') && i < |v.sources| && v'.sources[i] == v.sources[i]
    requires v.sources[i].status.Discovered? || v.sources[i].status.Importing?
    ensures var s := v.sources[i]; var e := Evaluate(l, v', i, o);
            && (s.status.Discovered? ==> e == Fails)
            && (s.status.Importing? ==>
                  && s.version.Some?
                  && (e == BecomesReady <==> Placed(l, v, s.version.value, o) && s.version.value in l.chunkSets)
                  && (e == StaysAsItIs <==>
                        Placed(l, v, s.version.value, o) && s.version.value !in l.chunkSets && Awaited(l, v, s.version.value, o)))
  {
    assert SourceSound(l, v, i);
    hide ReviewSound, Targets;
  }

  lemma StepSettles(l: Library, v: Review, v': Review, i: nat, o: Outside)
    requires ReviewSound(l, v) && SameView(v, v') && i < |v.sources| && v'.sources[i] == v.sources[i]
    ensures var after := ReconcileSource(l, v', i, o, Cancelling(v.status)).sources[i];
            after == v.sources[i].(status := SettledStatus(l, v, i, o))
  {
    var s := v.sources[i];
    if s.status.Discovered? || s.status.Importing? { EvaluatedAs(l, v, v', i, o); }
    hide ReviewSound, Evaluate, Placed, Awaited, Resolve, Require, SameView;
    assert i < |v'.sources|;
  }

  lemma {:induction false} FirstSettled(l: Library, v: Review, o: Outside, k: nat)
    requires ReviewSound(l, v) && k <= |v.sources|
    ensures var after := ReconcileFirst(l, v, o, Cancelling(v.status), k);
            && SameView(v, after)
            && (forall i :: 0 <= i < k ==> after.sources[i] == v.sources[i].(status := SettledStatus(l, v, i, o)))
            && forall i :: k <= i < |v.sources| ==> after.sources[i] == v.sources[i]
  {
    hide ReviewSound, ReconcileSource, SettledStatus, SameView;
    if k == 0 {
      assert SameView(v, v) by { ItsOwnView(v); }
    } else {
      FirstSettled(l, v, o, k - 1);
      var before := ReconcileFirst(l, v, o, Cancelling(v.status), k - 1);
      StepView(l, before, k - 1, o, Cancelling(v.status));
      StepSettles(l, v, before, k - 1, o);
      ViewOn(v, before, ReconcileSource(l, before, k - 1, o, Cancelling(v.status)));
    }
  }

  lemma ItsOwnView(v: Review)
    ensures SameView(v, v)
  {
  }

  lemma ViewOn(a: Review, b: Review, c: Review)
    requires SameView(a, b) && SameView(b, c)
    ensures SameView(a, c)
  {
    hide Targets;
  }

  /** One reconciliation settles every source by what is known about its own version, whatever the order and whatever becomes
      of the others. */
  lemma ReconciledSources(l: Library, v: Review, o: Outside)
    requires ReviewSound(l, v) && (v.status.WaitingDependency? || Cancelling(v.status))
    ensures |Reconciled(l, v, o).sources| == |v.sources|
    ensures forall i :: 0 <= i < |v.sources| ==> Reconciled(l, v, o).sources[i] == v.sources[i].(status := SettledStatus(l, v, i, o))
  {
    FirstSettled(l, v, o, |v.sources|);
    hide ReviewSound, ReconcileFirst, SettledStatus, AllSettled, ReadyCount;
  }

  // ---- dependencies in a reconciliation -----------------------------------------------------------------------------

  /** A source that is being imported from this version gets the status. */
  predicate Decides(l: Library, v: Review, o: Outside, i: int, x: VersionId, to: SourceStatus) {
    && 0 <= i < |v.sources| && v.sources[i].status.Importing? && v.sources[i].version == Some(x)
    && SettledStatus(l, v, i, o) == to
  }

  predicate DecidedBefore(l: Library, v: Review, o: Outside, k: nat, x: VersionId, to: SourceStatus) {
    exists i :: 0 <= i < k && Decides(l, v, o, i, x, to)
  }

  /** The dependency once the first k sources have been looked at. */
  function VersionStatus(l: Library, v: Review, o: Outside, k: nat, d: Dependency): DependencyStatus {
    if !d.target.OnVersion? || !d.status.Pending? then d.status
    else if DecidedBefore(l, v, o, k, d.target.version, Ready) then Satisfied
    else if DecidedBefore(l, v, o, k, d.target.version, SourceFailed) then Unmet
    else Pending
  }

  ghost predicate VersionsFollow(l: Library, v: Review, o: Outside, k: nat, deps: seq<Dependency>) {
    && |v.dependencies| <= |deps|
    && forall j :: 0 <= j < |v.dependencies| ==>
         deps[j] == v.dependencies[j].(status := VersionStatus(l, v, o, k, v.dependencies[j]))
  }

  /** Sources of one version get one verdict. */
  lemma OneVerdict(l: Library, v: Review, o: Outside, i: nat, j: nat, x: VersionId, a: SourceStatus, b: SourceStatus)
    requires Decides(l, v, o, i, x, a) && Decides(l, v, o, j, x, b)
    ensures a == b
  {
    hide Placed, Awaited;
  }

  lemma NextDecides(l: Library, v: Review, o: Outside, k: nat, x: VersionId, to: SourceStatus)
    ensures DecidedBefore(l, v, o, k + 1, x, to) <==> DecidedBefore(l, v, o, k, x, to) || Decides(l, v, o, k, x, to)
  {
    hide Decides;
    if DecidedBefore(l, v, o, k, x, to) {
      var i :| 0 <= i < k && Decides(l, v, o, i, x, to);
      assert Decides(l, v, o, i, x, to);
    }
  }

  /** The status of a dependency after one more source. */
  lemma NextVersionStatus(l: Library, v: Review, o: Outside, k: nat, d: Dependency)
    requires k < |v.sources|
    ensures var s := v.sources[k]; var before := d.(status := VersionStatus(l, v, o, k, d));
            VersionStatus(l, v, o, k + 1, d)
            == if s.status.Importing? && s.version.Some? && d.target == OnVersion(s.version.value) && before.status.Pending? then
                 match SettledStatus(l, v, k, o)
                 case Ready => Satisfied
                 case SourceFailed => Unmet
                 case _ => Pending
               else before.status
  {
    hide SettledStatus;
    if d.target.OnVersion? {
      var x := d.target.version;
      NextDecides(l, v, o, k, x, Ready);
      NextDecides(l, v, o, k, x, SourceFailed);
      if DecidedBefore(l, v, o, k, x, SourceFailed) && Decides(l, v, o, k, x, Ready) {
        var i :| 0 <= i < k && Decides(l, v, o, i, x, SourceFailed);
        OneVerdict(l, v, o, i, k, x, SourceFailed, Ready);
      }
    }
  }

  lemma NoneDecided(l: Library, v: Review, o: Outside)
    ensures VersionsFollow(l, v, o, 0, v.dependencies)
  {
  }

  /** What one source does to the dependencies that were there. */
  lemma StepDependencies(l: Library, v: Review, v': Review, i: nat, o: Outside)
    requires ReviewSound(l, v) && SameView(v, v') && i < |v.sources| && v'.sources[i] == v.sources[i]
    ensures var after := ReconcileSource(l, v', i, o, Cancelling(v.status)).dependencies; var s := v.sources[i];
            && |v'.dependencies| <= |after|
            && forall j :: 0 <= j < |v'.dependencies| ==>
                 after[j] == if s.status.Importing? && s.version.Some? && v'.dependencies[j].target == OnVersion(s.version.value)
                                && v'.dependencies[j].status.Pending? then
                               match SettledStatus(l, v, i, o)
                               case Ready => v'.dependencies[j].(status := Satisfied)
                               case SourceFailed => v'.dependencies[j].(status := Unmet)
                               case _ => v'.dependencies[j]
                             else v'.dependencies[j]
  {
    var s := v.sources[i];
    if s.status.Discovered? || s.status.Importing? { EvaluatedAs(l, v, v', i, o); }
    if s.status.Discovered? { assert s.version.None? by { assert SourceSound(l, v, i); } }
    hide ReviewSound, Evaluate, Placed, Awaited, SameView;
    assert i < |v'.sources|;
  }

  lemma {:induction false} FirstDependencies(l: Library, v: Review, o: Outside, k: nat)
    requires ReviewSound(l, v) && k <= |v.sources|
    ensures VersionsFollow(l, v, o, k, ReconcileFirst(l, v, o, Cancelling(v.status), k).dependencies)
  {
    hide ReviewSound, ReconcileSource, SettledStatus, SameView, VersionStatus;
    if k == 0 {
      NoneDecided(l, v, o);
    } else {
      FirstDependencies(l, v, o, k - 1);
      FirstSettled(l, v, o, k - 1);
      var before := ReconcileFirst(l, v, o, Cancelling(v.status), k - 1);
      StepDependencies(l, v, before, k - 1, o);
      forall j | 0 <= j < |v.dependencies| { NextVersionStatus(l, v, o, k - 1, v.dependencies[j]); }
    }
  }

  /** The status of a dependency after a reconciliation: one on a version follows the sources of that version, one on an ingestion
      run follows the run, and one that was decided stays. */
  function DependencyAfter(l: Library, v: Review, o: Outside, d: Dependency): DependencyStatus {
    if d.target.OnRun? && d.status.Pending? then
      var run := d.target.run;
      if run !in l.ingestions || l.ingestions[run] != Ingestion(v.owner, v.project) then Unmet
      else if run in o.children then if o.children[run] then Satisfied else Unmet
      else Pending
    else VersionStatus(l, v, o, |v.sources|, d)
  }

  lemma ReconciledDependencies(l: Library, v: Review, o: Outside)
    requires ReviewSound(l, v) && (v.status.WaitingDependency? || Cancelling(v.status))
    ensures |v.dependencies| <= |Reconciled(l, v, o).dependencies|
    ensures forall j :: 0 <= j < |v.dependencies| ==>
              Reconciled(l, v, o).dependencies[j] == v.dependencies[j].(status := DependencyAfter(l, v, o, v.dependencies[j]))
  {
    FirstDependencies(l, v, o, |v.sources|);
    FirstSettled(l, v, o, |v.sources|);
    var after := ReconcileFirst(l, v, o, Cancelling(v.status), |v.sources|);
    assert after.owner == v.owner && after.project == v.project;
    assert Reconciled(l, v, o).dependencies == AdvanceRuns(l, after, o).dependencies by { hide *; ConcludedDependencies(l, v, o); }
    hide ReviewSound, ReconcileFirst, SettledStatus, AllSettled, ReadyCount, SameView, Reconciled, DecidedBefore;
  }

  lemma ConcludedDependencies(l: Library, v: Review, o: Outside)
    requires v.status.WaitingDependency? || Cancelling(v.status)
    ensures Reconciled(l, v, o).dependencies
            == AdvanceRuns(l, ReconcileFirst(l, v, o, Cancelling(v.status), |v.sources|), o).dependencies
  {
    hide AdvanceRuns, ReconcileFirst, AllSettled, ReadyCount;
  }

  // ---- registration ---------------------------------------------------------------------------------------------

  /** The version a registration may bind: the owner's own with this content, unless its paper is archived, or a new one. */
  ghost predicate Binds(l: Library, owner: OwnerId, hash: Hash, ids: Fresh, x: VersionId) {
    if HasContent(l, owner, hash) then
      && x in l.versions && IsContent(l, x, owner, hash)
      && l.versions[x].paper in l.papers && l.papers[l.versions[x].paper].owner == owner && !l.papers[l.versions[x].paper].archived
    else Unused(l, ids) && x == ids.version
  }

  /** An open source of an active review that has an identity. */
  predicate Registrable(w: World, r: ReviewId, i: nat) {
    Active(w, r) && i < |w.reviews[r].sources| && w.reviews[r].sources[i].status.Discovered? && w.reviews[r].sources[i].identified
  }

  /** A registration binds an open source if and only if there is a version to bind; the source is then ready exactly when that
      version has a chunk set, and the reply says so and names the run that was created for new content. */
  lemma RegistrationBindsIff(w: World, r: ReviewId, i: nat, hash: Hash, size: nat, ids: Fresh, x: VersionId)
    requires Inv(w) && Registrable(w, r, i) && Binds(w.library, w.reviews[r].owner, hash, ids, x)
    ensures var out := Register(w, r, i, hash, size, ids); var l := w.library; var ready := x in l.chunkSets;
            && out.reply == Bound(ready, if HasContent(l, w.reviews[r].owner, hash) then None else Some(ids.run))
            && r in out.world.reviews && out.world.reviews == w.reviews[r := out.world.reviews[r]]
            && out.world.reviews[r].sources
               == w.reviews[r].sources[i := Source(if ready then Ready else Importing, Some(x), true)]
  {
    assert x !in w.library.versions ==> x !in w.library.chunkSets by { assert LibrarySound(w.library); }
    if HasContent(w.library, w.reviews[r].owner, hash) { OnlyContent(w.library, w.reviews[r].owner, hash, x) by { hide ReviewSound; } }
    hide Inv, HasContent, ContentOf, Require, IsContent;
  }

  /** The review after it was bound to the version: its dependencies and its log. */
  predicate BoundTo(l: Library, l': Library, v: Review, v': Review, x: VersionId)
    requires x in l'.versions
  {
    && v.dependencies <= v'.dependencies
    && Targets(v'.dependencies) == Targets(v.dependencies) + BindingTargets(l', v, x)
    && (forall k :: |v.dependencies| <= k < |v'.dependencies| ==>
          v'.dependencies[k].status == if x in l.chunkSets then Satisfied else Pending)
    && v'.events == v.events + [ReviewEvent(v.nextEvent, if x in l.chunkSets then SourceReady else ImportStarted)]
  }

  /** What a registration that binds writes beside the source: the dependencies the version calls for, satisfied exactly when it
      is ready, and for known content nothing in the library but the paper's place in the project. */
  lemma RegistrationWrites(w: World, r: ReviewId, i: nat, hash: Hash, size: nat, ids: Fresh, x: VersionId)
    requires Inv(w) && Registrable(w, r, i) && Binds(w.library, w.reviews[r].owner, hash, ids, x)
    ensures var out := Register(w, r, i, hash, size, ids); var v, l := w.reviews[r], w.library;
            && r in out.world.reviews && x in out.world.library.versions
            && BoundTo(l, out.world.library, v, out.world.reviews[r], x)
            && (HasContent(l, v.owner, hash) ==>
                  out.world.library == l.(inProject := l.inProject + {(v.project, l.versions[x].paper)}))
  {
    var l, v := w.library, w.reviews[r];
    assert x !in l.versions ==> x !in l.chunkSets by { assert LibrarySound(l); }
    assert ReviewSound(l, v);
    if HasContent(l, v.owner, hash) {
      OnlyContent(l, v.owner, hash, x) by { hide ReviewSound; }
      BindKeeps(l, v, i, x);
      BindWrites(l, v, i, x);
      RegisteredKnown(w, r, i, hash, size, ids, x);
      hide *;
      SameTargets(w.library, Register(w, r, i, hash, size, ids).world.library, w.reviews[r], x);
    } else {
      var added := AddContent(l, v, hash, size, ids);
      ReviewStays(l, added, v);
      BindKeeps(added, v, i, x);
      BindWrites(added, v, i, x);
      RegisteredNew(w, r, i, hash, size, ids, x);
      hide *;
    }
  }

  lemma SameTargets(l: Library, l': Library, v: Review, x: VersionId)
    requires x in l.versions && l' == l.(inProject := l'.inProject)
    ensures x in l'.versions && BindingTargets(l', v, x) == BindingTargets(l, v, x)
  {
  }

  lemma RegisteredKnown(w: World, r: ReviewId, i: nat, hash: Hash, size: nat, ids: Fresh, x: VersionId)
    requires Registrable(w, r, i) && Binds(w.library, w.reviews[r].owner, hash, ids, x)
    requires HasContent(w.library, w.reviews[r].owner, hash) && ContentOf(w.library, w.reviews[r].owner, hash) == x
    requires x in w.library.versions
    ensures var out := Register(w, r, i, hash, size, ids); var l, v := w.library, w.reviews[r];
            && out.world.library == l.(inProject := l.inProject + {(v.project, l.versions[x].paper)})
            && r in out.world.reviews && out.world.reviews[r] == Bind(l, v, i, x)
  {
    hide HasContent, ContentOf, Bind, IsContent;
  }

  lemma RegisteredNew(w: World, r: ReviewId, i: nat, hash: Hash, size: nat, ids: Fresh, x: VersionId)
    requires Registrable(w, r, i) && Binds(w.library, w.reviews[r].owner, hash, ids, x)
    requires !HasContent(w.library, w.reviews[r].owner, hash)
    ensures var out := Register(w, r, i, hash, size, ids); var added := AddContent(w.library, w.reviews[r], hash, size, ids);
            && out.world.library == added && x in added.versions && added.chunkSets == w.library.chunkSets
            && r in out.world.reviews && out.world.reviews[r] == Bind(added, w.reviews[r], i, x)
  {
    hide HasContent, ContentOf, Bind, IsContent;
  }

  lemma BindWrites(l: Library, v: Review, i: nat, x: VersionId)
    requires i < |v.sources| && x in l.versions
    ensures var v' := Bind(l, v, i, x); var ready := x in l.chunkSets;
            && v.dependencies <= v'.dependencies
            && (forall k :: |v.dependencies| <= k < |v'.dependencies| ==> v'.dependencies[k].status == if ready then Satisfied else Pending)
            && v'.events == v.events + [ReviewEvent(v.nextEvent, if ready then SourceReady else ImportStarted)]
  {
    hide Targets;
  }

  lemma NothingBinds(w: World, r: ReviewId, i: nat, hash: Hash, size: nat, ids: Fresh)
    requires Inv(w) && Registrable(w, r, i) && forall x :: !Binds(w.library, w.reviews[r].owner, hash, ids, x)
    ensures var out := Register(w, r, i, hash, size, ids);
            && out.world == w && (out.reply == PaperArchived || out.reply == RegisterRaised)
            && (out.reply == PaperArchived <==> exists x :: x in w.library.versions && IsContent(w.library, x, w.reviews[r].owner, hash)
                                                   && ArchivedOf(w.library, x, w.reviews[r].owner))
  {
    var l, owner := w.library, w.reviews[r].owner;
    assert LibrarySound(l);
    hide Inv, Require, Bind;
    if HasContent(l, owner, hash) {
      ContentThere(l, owner, hash);
      var x := ContentOf(l, owner, hash);
      assert !Binds(l, owner, hash, ids, x);
      forall y | y in l.versions && IsContent(l, y, owner, hash) ensures y == x { OnlyContent(l, owner, hash, y); }
      hide ContentOf, HasContent;
    } else {
      assert !Binds(l, owner, hash, ids, ids.version);
    }
  }

  /** The owner's paper of the version is archived. */
  predicate ArchivedOf(l: Library, x: VersionId, owner: OwnerId)
    requires x in l.versions
  {
    var paper := l.versions[x].paper;
    paper in l.papers && l.papers[paper].owner == owner && l.papers[paper].archived
  }

  // ---- every commit ---------------------------------------------------------------------------------------------------

  ghost predicate BindsSome(w: World, r: ReviewId, hash: Hash, ids: Fresh, ready: bool)
    requires r in w.reviews
  {
    exists x :: Binds(w.library, w.reviews[r].owner, hash, ids, x) && (ready ==> x in w.library.chunkSets)
  }

  /** The status of a source after the commit: who rejects it, fails it, binds it or makes it ready. */
  ghost function SourceAfter(w: World, m: Move, r: ReviewId, i: nat): SourceStatus
    requires r in w.reviews && i < |w.reviews[r].sources|
  {
    var v := w.reviews[r]; var s := v.sources[i].status;
    if ConfirmsCancel(w, m, r) then if s.Discovered? then Rejected else s
    else
      match m
      case SelectCandidates(q, selected) => if q == r && MaySelect(v, selected) && s.Discovered? && i !in selected then Rejected else s
      case Reconcile(q, o) => if q == r && (v.status.WaitingDependency? || Cancelling(v.status)) then SettledStatus(w.library, v, i, o) else s
      case FailSource(q, j) => if q == r && j == i && s.Discovered? then SourceFailed else s
      case RegisterSource(q, j, hash, _, ids) =>
        if q == r && j == i && Registrable(w, r, i) && (v.owner, hash) in w.library.stored && BindsSome(w, r, hash, ids, false) then
          if BindsSome(w, r, hash, ids, true) then Ready else Importing
        else s
      case _ => s
  }

  ghost predicate SourceExact(w: World, m: Move, r: ReviewId, i: nat, after: World)
    requires r in w.reviews && i < |w.reviews[r].sources|
  {
    r in after.reviews && i < |after.reviews[r].sources| && after.reviews[r].sources[i].status == SourceAfter(w, m, r, i)
  }

  lemma RegisterSourceMoves(w: World, m: Move, r: ReviewId, i: nat)
    requires Inv(w) && r in w.reviews && i < |w.reviews[r].sources| && m.RegisterSource?
    ensures SourceExact(w, m, r, i, Commit(w, m))
  {
    if m.review != r || (w.reviews[r].owner, m.hash) !in w.library.stored {
      RegisterElsewhere(w, m, r);
      hide *;
      UnmovedByRegister(w, m, r, i);
    } else if Registrable(w, r, m.source) {
      hide Inv, Registrable, Binds, Register;
      if x :| Binds(w.library, w.reviews[r].owner, m.hash, m.ids, x) {
        RegistrationBindsIff(w, r, m.source, m.hash, m.size, m.ids, x);
        OnlyOneBinds(w, r, m.hash, m.ids, x);
        ActiveConfirmsNothing(w, m, r);
      } else {
        NothingBinds(w, r, m.source, m.hash, m.size, m.ids);
        ActiveConfirmsNothing(w, m, r);
      }
    } else {
      NotRegistrable(w, m, r, i);
    }
  }

  lemma OnlyOneBinds(w: World, r: ReviewId, hash: Hash, ids: Fresh, x: VersionId)
    requires Inv(w) && r in w.reviews && Binds(w.library, w.reviews[r].owner, hash, ids, x)
    ensures forall y :: Binds(w.library, w.reviews[r].owner, hash, ids, y) ==> y == x
  {
    forall y | Binds(w.library, w.reviews[r].owner, hash, ids, y) ensures y == x {
      if HasContent(w.library, w.reviews[r].owner, hash) {
        OnlyContent(w.library, w.reviews[r].owner, hash, x) by { hide ReviewSound; }
        OnlyContent(w.library, w.reviews[r].owner, hash, y) by { hide ReviewSound; }
      }
    }
  }

  lemma ActiveConfirmsNothing(w: World, m: Move, r: ReviewId)
    requires m.RegisterSource? && m.review == r && Registrable(w, r, m.source)
    ensures r in w.reviews && m.source < |w.reviews[r].sources| && !ConfirmsCancel(w, m, r)
  {
  }

  lemma RegisterElsewhere(w: World, m: Move, r: ReviewId)
    requires r in w.reviews && m.RegisterSource?
    requires m.review != r || (w.reviews[r].owner, m.hash) !in w.library.stored
    ensures r in Commit(w, m).reviews && Commit(w, m).reviews[r].sources == w.reviews[r].sources
  {
    hide HasContent, ContentOf, Require, Bind, IsContent;
    if m.review in w.reviews && HasContent(w.library, w.reviews[m.review].owner, m.hash) { ContentThere(w.library, w.reviews[m.review].owner, m.hash); }
  }

  lemma UnmovedByRegister(w: World, m: Move, r: ReviewId, i: nat)
    requires r in w.reviews && i < |w.reviews[r].sources| && m.RegisterSource?
    requires m.review != r || (w.reviews[r].owner, m.hash) !in w.library.stored
    ensures SourceAfter(w, m, r, i) == w.reviews[r].sources[i].status
  {
    hide Registrable, BindsSome;
  }

  lemma NotRegistrable(w: World, m: Move, r: ReviewId, i: nat)
    requires r in w.reviews && i < |w.reviews[r].sources| && m.RegisterSource? && m.review == r
    requires (w.reviews[r].owner, m.hash) in w.library.stored && !Registrable(w, r, m.source)
    ensures SourceExact(w, m, r, i, Commit(w, m))
  {
    hide BindsSome, HasContent, Bind;
  }

  lemma OtherSourcesStay(w: World, m: Move, r: ReviewId, i: nat)
    requires r in w.reviews && i < |w.reviews[r].sources| && !m.RegisterSource? && !(OnTheRun(m) && m.review == r)
    ensures SourceExact(w, m, r, i, Commit(w, m))
  {
    hide MoveRun, MaySelect, SettledStatus, Registrable, BindsSome, AllSettled, Opening;
  }

  lemma RunSources(w: World, m: Move, r: ReviewId, i: nat)
    requires Inv(w) && r in w.reviews && i < |w.reviews[r].sources| && OnTheRun(m) && m.review == r
    ensures SourceExact(w, m, r, i, Commit(w, m))
  {
    assert ReviewSound(w.library, w.reviews[r]);
    hide Inv, ReviewSound, SettledStatus, Reconciled, Registrable, BindsSome, MoveRun;
    if m.Reconcile? {
      MoveIsReconciled(w.library, w.reviews[r], m);
      assert !ConfirmsCancel(w, m, r);
      hide ConfirmsCancel;
      if w.reviews[r].status.WaitingDependency? || Cancelling(w.reviews[r].status) {
        ReconciledSources(w.library, w.reviews[r], m.outside);
      } else {
        NotReconciled(w.library, w.reviews[r], m.outside);
      }
    } else {
      MovedSource(w.library, w.reviews[r], m, i);
      hide MaySelect;
    }
  }

  lemma MovedSource(l: Library, v: Review, m: Move, i: nat)
    requires OnTheRun(m) && !m.Reconcile? && i < |v.sources|
    ensures var v' := MoveRun(l, v, m);
            && i < |v'.sources|
            && v'.sources[i].status == if m.SelectCandidates? && MaySelect(v, m.selected) && v.sources[i].status.Discovered? && i !in m.selected
                                       then Rejected else v.sources[i].status
  {
    hide ReadyCount, Reconciled;
  }

  lemma NotReconciled(l: Library, v: Review, o: Outside)
    requires !v.status.WaitingDependency? && !Cancelling(v.status)
    ensures Reconciled(l, v, o) == v
  {
    hide ReconcileFirst;
  }

  /** In every reachable state every commit leaves every source with exactly the status that `SourceAfter` says. */
  lemma EverySourceMovesExactly(w: World, m: Move, r: ReviewId, i: nat)
    requires Inv(w) && r in w.reviews && i < |w.reviews[r].sources|
    ensures SourceExact(w, m, r, i, Commit(w, m))
  {
    hide Inv, Commit, SourceExact;
    if m.RegisterSource? { RegisterSourceMoves(w, m, r, i); }
    else if OnTheRun(m) && m.review == r { RunSources(w, m, r, i); }
    else { OtherSourcesStay(w, m, r, i); }
  }

  // ---- what is written to the log of a review ----------------------------------------------------------------------------

  /** The events of a reconciliation: one for each source that becomes ready or fails, in order, and one for the end of the run. */
  function SettledNotes(l: Library, v: Review, o: Outside, k: nat): seq<Note>
    requires k <= |v.sources|
  {
    if k == 0 then []
    else
      var from, to := v.sources[k - 1].status, SettledStatus(l, v, k - 1, o);
      SettledNotes(l, v, o, k - 1)
      + if from == to || to.Rejected? then [] else if to.Ready? then [SourceReady] else [SourceFailedNote]
  }

  function EndNotes(v: Review, after: Review): seq<Note> {
    if v.status.CancelRequested? then [ReviewCancelled]
    else if v.status.WaitingDependency? && AllSettled(after.sources) then [StatusChanged]
    else []
  }

  ghost predicate Wrote(v: Review, v': Review, notes: seq<Note>) {
    && |v'.events| == |v.events| + |notes| && v.events <= v'.events && v'.nextEvent == v.nextEvent + |notes|
    && forall k :: |v.events| <= k < |v'.events| ==> v'.events[k] == ReviewEvent(v.nextEvent + (k - |v.events|), notes[k - |v.events|])
  }

  lemma WroteMore(a: Review, b: Review, c: Review, some: seq<Note>, more: seq<Note>)
    requires Wrote(a, b, some) && Wrote(b, c, more)
    ensures Wrote(a, c, some + more)
  {
  }

  lemma StepNotes(l: Library, v: Review, v': Review, i: nat, o: Outside)
    requires ReviewSound(l, v) && SameView(v, v') && i < |v.sources| && v'.sources[i] == v.sources[i]
    ensures var from, to := v.sources[i].status, SettledStatus(l, v, i, o);
            Wrote(v', ReconcileSource(l, v', i, o, Cancelling(v.status)),
                  if from == to || to.Rejected? then [] else if to.Ready? then [SourceReady] else [SourceFailedNote])
  {
    var s := v.sources[i];
    if s.status.Discovered? || s.status.Importing? { EvaluatedAs(l, v, v', i, o); }
    hide ReviewSound, Evaluate, Placed, Awaited, Resolve, Require, SameView;
    assert i < |v'.sources|;
  }

  lemma {:induction false} FirstNotes(l: Library, v: Review, o: Outside, k: nat)
    requires ReviewSound(l, v) && k <= |v.sources|
    ensures Wrote(v, ReconcileFirst(l, v, o, Cancelling(v.status), k), SettledNotes(l, v, o, k))
  {
    hide ReviewSound, ReconcileSource, SettledStatus, SameView;
    if k > 0 {
      hide Wrote;
      FirstNotes(l, v, o, k - 1);
      FirstSettled(l, v, o, k - 1);
      var before := ReconcileFirst(l, v, o, Cancelling(v.status), k - 1);
      StepNotes(l, v, before, k - 1, o);
      var from, to := v.sources[k - 1].status, SettledStatus(l, v, k - 1, o);
      WroteMore(v, before, ReconcileSource(l, before, k - 1, o, Cancelling(v.status)), SettledNotes(l, v, o, k - 1),
                if from == to || to.Rejected? then [] else if to.Ready? then [SourceReady] else [SourceFailedNote]);
    }
  }

  /** A reconciliation writes one event for each source it makes ready or fails, in their order, and one for the end of the
      run if it ends or goes on. */
  lemma ReconciledNotes(l: Library, v: Review, o: Outside)
    requires ReviewSound(l, v) && (v.status.WaitingDependency? || Cancelling(v.status))
    ensures var v' := Reconciled(l, v, o); Wrote(v, v', SettledNotes(l, v, o, |v.sources|) + EndNotes(v, v'))
  {
    FirstNotes(l, v, o, |v.sources|);
    FirstSettled(l, v, o, |v.sources|);
    var middle := ReconcileFirst(l, v, o, Cancelling(v.status), |v.sources|);
    assert middle.status == v.status;
    hide ReviewSound, ReconcileFirst, SettledStatus, AllSettled, ReadyCount, SameView, SettledNotes;
    WroteMore(v, middle, Reconciled(l, v, o), SettledNotes(l, v, o, |v.sources|), EndNotes(v, Reconciled(l, v, o)));
  }

  /** The events a commit writes to the log of a review. */
  ghost function NotesAfter(w: World, m: Move, r: ReviewId): seq<Note>
    requires r in w.reviews
  {
    var v := w.reviews[r];
    if ConfirmsCancel(w, m, r) then [ReviewCancelled]
    else
      match m
      case RunSearch(q, _, _) => if q == r && v.search.None? then [SearchCompleted] else []
      case FailSource(q, i) => if q == r && i < |v.sources| && v.sources[i].status.Discovered? then [SourceFailedNote] else []
      case CompleteImport(q, _) => if q == r && v.step.None? then [ImportCompleted] else []
      case RegisterSource(q, i, hash, _, ids) =>
        if q == r && Registrable(w, r, i) && (v.owner, hash) in w.library.stored && BindsSome(w, r, hash, ids, false) then
          if BindsSome(w, r, hash, ids, true) then [SourceReady] else [ImportStarted]
        else []
      case Reconcile(q, o) =>
        if q == r && (v.status.WaitingDependency? || Cancelling(v.status)) then
          SettledNotes(w.library, v, o, |v.sources|) + EndNotes(v, Reconciled(w.library, v, o))
        else []
      case _ =>
        if OnTheRun(m) && m.review == r && MoveRun(w.library, v, m).status != v.status then
          if MoveRun(w.library, v, m).status.Cancelled? then [ReviewCancelled]
          else if m == AwaitInput(r, false) then [OutlineProposed, StatusChanged]
          else [StatusChanged]
        else []
  }

  ghost predicate LogExact(w: World, m: Move, r: ReviewId, after: World)
    requires r in w.reviews
  {
    r in after.reviews && Wrote(w.reviews[r], after.reviews[r], NotesAfter(w, m, r))
  }

  lemma WroteNothing(v: Review)
    ensures Wrote(v, v, [])
  {
  }

  lemma WroteOne(v: Review, v': Review, note: Note)
    requires v'.events == v.events + [ReviewEvent(v.nextEvent, note)] && v'.nextEvent == v.nextEvent + 1
    ensures Wrote(v, v', [note])
  {
  }

  lemma RegisterNotes(w: World, m: Move, r: ReviewId)
    requires r in w.reviews && m.RegisterSource? && m.review == r
    requires (w.reviews[r].owner, m.hash) in w.library.stored && Registrable(w, r, m.source)
    ensures Commit(w, m) == Register(w, r, m.source, m.hash, m.size, m.ids).world
    ensures NotesAfter(w, m, r)
            == if !BindsSome(w, r, m.hash, m.ids, false) then [] else if BindsSome(w, r, m.hash, m.ids, true) then [SourceReady] else [ImportStarted]
  {
    ActiveConfirmsNothing(w, m, r);
    hide Register, Registrable, BindsSome, ConfirmsCancel;
  }

  lemma RegisterWrites(w: World, m: Move, r: ReviewId)
    requires Inv(w) && r in w.reviews && m.RegisterSource?
    ensures LogExact(w, m, r, Commit(w, m))
  {
    hide Inv, Registrable, Binds, Register, Wrote, Commit, NotesAfter, BoundTo;
    if m.review == r && (w.reviews[r].owner, m.hash) in w.library.stored && Registrable(w, r, m.source) {
      RegisterNotes(w, m, r);
      if x :| Binds(w.library, w.reviews[r].owner, m.hash, m.ids, x) {
        OnlyOneBinds(w, r, m.hash, m.ids, x);
        RegistrationWrites(w, r, m.source, m.hash, m.size, m.ids, x);
        var v' := Commit(w, m).reviews[r];
        BoundLog(w.library, Commit(w, m).library, w.reviews[r], v', x);
        NextEventFollows(w, m, r);
        WroteOne(w.reviews[r], v', if x in w.library.chunkSets then SourceReady else ImportStarted);
      } else {
        NothingBinds(w, r, m.source, m.hash, m.size, m.ids);
        WroteNothing(w.reviews[r]);
      }
    } else {
      OtherRegisterWrites(w, m, r);
    }
  }

  lemma BoundLog(l: Library, l': Library, v: Review, v': Review, x: VersionId)
    requires x in l'.versions && BoundTo(l, l', v, v', x)
    ensures v'.events == v.events + [ReviewEvent(v.nextEvent, if x in l.chunkSets then SourceReady else ImportStarted)]
  {
    hide Targets;
  }

  /** The event counter after a registration that binds. */
  lemma NextEventFollows(w: World, m: Move, r: ReviewId)
    requires Inv(w) && r in w.reviews && m.RegisterSource? && r in Commit(w, m).reviews
    requires |Commit(w, m).reviews[r].events| == |w.reviews[r].events| + 1
    ensures Commit(w, m).reviews[r].nextEvent == w.reviews[r].nextEvent + 1
  {
    CommitKeeps(w, m);
    hide Commit;
    assert ReviewSound(w.library, w.reviews[r]) && ReviewSound(Commit(w, m).library, Commit(w, m).reviews[r]) by { hide LibrarySound, ReviewSound; }
  }

  lemma OtherRegisterWrites(w: World, m: Move, r: ReviewId)
    requires r in w.reviews && m.RegisterSource?
    requires m.review != r || (w.reviews[r].owner, m.hash) !in w.library.stored || !Registrable(w, r, m.source)
    ensures LogExact(w, m, r, Commit(w, m))
  {
    hide BindsSome, HasContent, Bind, ContentOf, IsContent;
    if m.review in w.reviews && HasContent(w.library, w.reviews[m.review].owner, m.hash) { ContentThere(w.library, w.reviews[m.review].owner, m.hash); }
  }

  /** The notes of a move on the run that is no reconciliation. */
  function MoveNotes(l: Library, v: Review, m: Move): seq<Note>
    requires OnTheRun(m)
  {
    if MoveRun(l, v, m).status == v.status then []
    else if MoveRun(l, v, m).status.Cancelled? then [ReviewCancelled]
    else if m.AwaitInput? && !m.selection then [OutlineProposed, StatusChanged]
    else [StatusChanged]
  }

  lemma MoveWrites(l: Library, v: Review, m: Move)
    requires OnTheRun(m) && !m.Reconcile?
    ensures Wrote(v, MoveRun(l, v, m), MoveNotes(l, v, m))
  {
    hide Reconciled, ReadyCount, Wrote;
    WroteNothing(v);
    var v' := MoveRun(l, v, m);
    if v'.status != v.status {
      if m.AwaitInput? && !m.selection {
        var proposed := AppendNote(v.(status := WaitingInput), OutlineProposed);
        WroteOne(v, proposed, OutlineProposed);
        WroteOne(proposed, v', StatusChanged);
        WroteMore(v, proposed, v', [OutlineProposed], [StatusChanged]);
        assert [OutlineProposed] + [StatusChanged] == [OutlineProposed, StatusChanged];
      } else {
        WroteOne(v, v', if v'.status.Cancelled? then ReviewCancelled else StatusChanged);
      }
    }
  }

  lemma RunNotes(w: World, m: Move, r: ReviewId)
    requires r in w.reviews && OnTheRun(m) && m.review == r
    ensures Commit(w, m) == WithReview(w, r, MoveRun(w.library, w.reviews[r], m))
    ensures !m.Reconcile? ==> NotesAfter(w, m, r) == MoveNotes(w.library, w.reviews[r], m)
    ensures m.Reconcile? ==> MoveRun(w.library, w.reviews[r], m) == Reconciled(w.library, w.reviews[r], m.outside)
  {
    hide MoveRun, Reconciled, SettledNotes, EndNotes, Registrable, BindsSome;
    if m.Reconcile? { MoveIsReconciled(w.library, w.reviews[r], m); }
  }

  lemma MoveIsReconciled(l: Library, v: Review, m: Move)
    requires m.Reconcile?
    ensures MoveRun(l, v, m) == Reconciled(l, v, m.outside)
  {
    hide Reconciled;
  }

  lemma RunWrites(w: World, m: Move, r: ReviewId)
    requires Inv(w) && r in w.reviews && OnTheRun(m) && m.review == r
    ensures LogExact(w, m, r, Commit(w, m))
  {
    var v := w.reviews[r];
    assert ReviewSound(w.library, v);
    RunNotes(w, m, r);
    hide Inv, ReviewSound, SettledNotes, EndNotes, Reconciled, Wrote, MoveRun, Commit;
    if !m.Reconcile? {
      MoveWrites(w.library, v, m);
    } else {
      assert !ConfirmsCancel(w, m, r);
      hide ConfirmsCancel;
      if v.status.WaitingDependency? || Cancelling(v.status) {
        ReconciledNotes(w.library, v, m.outside);
      } else {
        NotReconciled(w.library, v, m.outside);
        WroteNothing(v);
      }
    }
  }

  lemma OthersWrite(w: World, m: Move, r: ReviewId)
    requires r in w.reviews && !m.RegisterSource? && !(OnTheRun(m) && m.review == r)
    ensures LogExact(w, m, r, Commit(w, m))
  {
    hide MoveRun, Registrable, BindsSome, AllSettled, Opening, SettledNotes, EndNotes, Reconciled;
  }

  /** In every reachable state every commit writes exactly the events of `NotesAfter` to the log of every review. */
  lemma EveryReviewLogMovesExactly(w: World, m: Move, r: ReviewId)
    requires Inv(w) && r in w.reviews
    ensures LogExact(w, m, r, Commit(w, m))
  {
    hide Inv, Commit, LogExact;
    if m.RegisterSource? { RegisterWrites(w, m, r); }
    else if OnTheRun(m) && m.review == r { RunWrites(w, m, r); }
    else { OthersWrite(w, m, r); }
  }
}
