/** What each transaction on a review is answered and does: completion and its repetitions, the status of the run, and the
    status of every source. */
module ArxivAnswers {
  import opened Wrappers
  import opened Runs
  import opened ArxivImport
  import opened ArxivImportTheorems

  // ---- completion -------------------------------------------------------------------------------------------

  /** The first completion covers the sources there are, announces itself once, and ends the import stage exactly when all of
      them are settled and some are ready. */
  lemma FirstCompletion(w: World, r: ReviewId, ready: nat)
    requires r in w.reviews && w.reviews[r].step.None?
    ensures var v := w.reviews[r]; var (after, completion) := Complete(w, r, ready);
            && completion.Emitted? && r in after.reviews && after == WithReview(w, r, after.reviews[r])
            && after.reviews[r] == v.(step := Some(|v.sources|), stage := after.reviews[r].stage,
                                      events := v.events + [ReviewEvent(v.nextEvent, ImportCompleted)], nextEvent := v.nextEvent + 1)
            && (after.reviews[r].stage != v.stage <==> v.stage.ImportStage? && ready > 0 && AllSettled(v.sources))
            && (after.reviews[r].stage != v.stage ==> after.reviews[r].stage.MatrixStage?)
  {
    hide AllSettled;
  }

  /** Whatever is committed after a completion, another one is answered that it is done if and only if the review still has
      as many sources as were covered, and conflicts otherwise; it changes nothing. */
  lemma CompletionIsRepeated(w: World, r: ReviewId, ready: nat, moves: seq<Move>, again: nat)
    requires r in w.reviews && w.reviews[r].step.None?
    ensures var later := Play(Complete(w, r, ready).0, moves);
            && r in later.reviews
            && Complete(later, r, again)
               == (later, if |later.reviews[r].sources| == |w.reviews[r].sources| then AlreadyDone else StepConflict)
  {
    FirstCompletion(w, r, ready);
    var done := Complete(w, r, ready).0;
    PlayPersists(done, moves);
    hide Play, Persists, Complete;
    PersistsStep(done, Play(done, moves), r);
    RepeatedCompletion(Play(done, moves), r, again);
  }

  lemma RepeatedCompletion(w: World, r: ReviewId, ready: nat)
    requires r in w.reviews && w.reviews[r].step.Some?
    ensures Complete(w, r, ready) == (w, if |w.reviews[r].sources| == w.reviews[r].step.value then AlreadyDone else StepConflict)
  {
  }

  /** The world in which the last transaction of a call runs, if the call gets that far. */
  ghost function AtCompletion(w: World, r: ReviewId, budget: int, script: Script): Option<World>
    requires r in w.reviews && |script.turns| == |w.reviews[r].sources|
  {
    var sources := w.reviews[r].sources;
    var w1 := Play(w, script.afterRead);
    if !VersionsOwned(w.library, w.reviews[r].owner, sources) || r !in w1.reviews || ConfirmIfRequested(w1, r).1 then None
    else
      var loop := ImportFirst(ConfirmIfRequested(w1, r).0, r, sources, script.turns, budget,
                              Tally(0, 0, 0, ConsumedBytes(w.library, sources)), |sources|);
      var w3 := Play(loop.world, script.beforeEnd);
      if !loop.verdict.Going? || r !in w3.reviews || ConfirmIfRequested(w3, r).1 then None
      else
        var w5 := Play(ConfirmIfRequested(w3, r).0, script.beforeComplete);
        if r in w5.reviews then Some(w5) else None
  }

  /** A call for a review whose import was completed, and that gets to its end, completes once more without announcing it
      when the review still has the sources that were covered, and fails otherwise; it never announces anything. */
  lemma RepeatedImport(w: World, r: ReviewId, budget: int, script: Script)
    requires r in w.reviews && |script.turns| == |w.reviews[r].sources| && w.reviews[r].step.Some?
    ensures var out := ImportAll(w, r, budget, script);
            match AtCompletion(w, r, budget, script)
            case None => !out.ending.Completed?
            case Some(last) =>
              && r in last.reviews && out.world == last
              && out.ending == if |last.reviews[r].sources| == w.reviews[r].step.value then Completed(false) else ImportFailed
  {
    hide Play, ConfirmIfRequested, ImportFirst, ConsumedBytes, VersionsOwned, Complete, Persists;
    var end := AtCompletion(w, r, budget, script);
    if end.Some? {
      LastPersists(w, r, budget, script);
      PersistsStep(w, end.value, r);
      forall ready: nat { RepeatedCompletion(end.value, r, ready); }
    }
  }

  lemma LastPersists(w: World, r: ReviewId, budget: int, script: Script)
    requires r in w.reviews && |script.turns| == |w.reviews[r].sources|
    requires AtCompletion(w, r, budget, script).Some?
    ensures Persists(w, AtCompletion(w, r, budget, script).value)
  {
    hide Persists, Play, ConfirmIfRequested, ImportFirst, ConsumedBytes, VersionsOwned;
    var sources := w.reviews[r].sources;
    var start := Tally(0, 0, 0, ConsumedBytes(w.library, sources));
    var w1 := Play(w, script.afterRead);
    PlayPersists(w, script.afterRead);
    ConfirmPersists(w1, r);
    var w2 := ConfirmIfRequested(w1, r).0;
    PersistsOn(w, w1, w2);
    var loop := ImportFirst(w2, r, sources, script.turns, budget, start, |sources|);
    ImportFirstPersists(w2, r, sources, script.turns, budget, start, |sources|);
    PersistsOn(w, w2, loop.world);
    var w3 := Play(loop.world, script.beforeEnd);
    PlayPersists(loop.world, script.beforeEnd);
    PersistsOn(w, loop.world, w3);
    ConfirmPersists(w3, r);
    var w4 := ConfirmIfRequested(w3, r).0;
    PersistsOn(w, w3, w4);
    PlayPersists(w4, script.beforeComplete);
    PersistsOn(w, w4, Play(w4, script.beforeComplete));
  }

  /** Nobody else commits anything. */
  predicate Alone(script: Script) {
    && script.afterRead == [] && script.beforeEnd == [] && script.beforeComplete == []
    && forall i :: 0 <= i < |script.turns| ==> Undisturbed(script.turns[i])
  }

  lemma {:induction false} SettledLoop(w: World, r: ReviewId, sources: seq<Source>, turns: seq<Turn>, budget: int, start: Tally, k: nat)
    requires Active(w, r) && k <= |sources| == |turns|
    requires forall i :: 0 <= i < |sources| ==> !sources[i].status.Discovered? && Undisturbed(turns[i])
    ensures var p := ImportFirst(w, r, sources, turns, budget, start, k);
            p.world == w && p.verdict.Going? && p.tally.bytes == start.bytes
  {
    if k > 0 {
      SettledLoop(w, r, sources, turns, budget, start, k - 1);
    }
  }

  /** The retry of a completed import that nobody disturbs finds every source settled, changes nothing, counts what the store
      says, and completes without announcing it. */
  lemma RetryCompletes(w: World, r: ReviewId, budget: int, script: Script)
    requires Active(w, r) && w.reviews[r].step == Some(|w.reviews[r].sources|) && |script.turns| == |w.reviews[r].sources|
    requires VersionsOwned(w.library, w.reviews[r].owner, w.reviews[r].sources) && Alone(script)
    requires forall i :: 0 <= i < |w.reviews[r].sources| ==> !w.reviews[r].sources[i].status.Discovered?
    ensures var out := ImportAll(w, r, budget, script); var sources := w.reviews[r].sources;
            && out.world == w && out.ending == Completed(false)
            && out.tally.imported == CountStatus(sources, IsImported)
            && out.tally.ready == CountStatus(sources, (s: SourceStatus) => s.Ready?)
            && out.tally.failed == CountStatus(sources, (s: SourceStatus) => s.SourceFailed?)
            && out.tally.bytes == ConsumedBytes(w.library, sources)
  {
    var sources := w.reviews[r].sources;
    var bytes := ConsumedBytes(w.library, sources);
    assert forall x :: Play(x, []) == x;
    SettledLoop(w, r, sources, script.turns, budget, Tally(0, 0, 0, bytes), |sources|);
    UndisturbedSummaryIsExact(w, r, sources, script.turns, budget, bytes, |sources|);
    assert sources[..|sources|] == sources;
    RepeatedCompletion(w, r, CountStatus(sources, (s: SourceStatus) => s.Ready?));
    hide Play, ImportFirst, ConsumedBytes, VersionsOwned, Complete, CountStatus;
  }

  // ---- the status of a review ----------------------------------------------------------------------------------

  /** The import finds the cancellation of a review and confirms it. */
  predicate ConfirmsCancel(w: World, m: Move, r: ReviewId)
    requires r in w.reviews
  {
    && w.reviews[r].status.CancelRequested?
    && match m
       case ConfirmCancel(q) => q == r
       case RegisterSource(q, i, hash, _, _) => q == r && i < |w.reviews[r].sources| && (w.reviews[r].owner, hash) in w.library.stored
       case _ => false
  }

  /** The user may make this selection: open candidates only, and as many sources in all as the review allows. */
  predicate MaySelect(v: Review, selected: set<nat>) {
    && v.status.WaitingInput? && v.stage.SelectionStage?
    && (forall i :: i in selected ==> i < |v.sources| && v.sources[i].status.Discovered?)
    && 1 <= ReadyCount(v.sources) + |selected| <= v.sourceLimit
  }

  function Enough(v: Review): nat {
    if v.minimumReady < 1 then 1 else v.minimumReady
  }

  /** The sources a waiting review has once the reconciler has looked at them: all settled, and enough of them ready or not. */
  predicate Decided(v: Review, after: Review, enough: bool) {
    v.status.WaitingDependency? && AllSettled(after.sources) && (ReadyCount(after.sources) >= Enough(v) <==> enough)
  }

  /** Who moves the status of a review, and when: every change is one of the status table, and each has just these causes. */
  predicate StatusMoves(w: World, m: Move, r: ReviewId, v': Review)
    requires r in w.reviews
  {
    var v := w.reviews[r]; var from, to := v.status, v'.status;
    to != from ==>
      && Allowed(from, to)
      && match to
         case Running => m == StartReview(r)
         case Succeeded => m == FinishReview(r)
         case RetryWait => m == AttemptFails(r, true)
         case CancelRequested => m == CancelReview(r)
         case WaitingInput => (m == AwaitInput(r, true) && v.stage.ImportStage?) || (m == AwaitInput(r, false) && v.stage.MatrixStage?)
         case WaitingDependency => m == AwaitDependencies(r) && (v.stage.SearchStage? || v.stage.ImportStage? || v.stage.WaitStage?)
         case Failed => m == AttemptFails(r, false) || (m.Reconcile? && m.review == r && Decided(v, v', false))
         case Queued =>
           || m == RequeueReview(r)
           || (m.SelectCandidates? && m.review == r && MaySelect(v, m.selected))
           || (m == DecideOutline(r) && from.WaitingInput? && v.stage.MatrixStage?)
           || (m.Reconcile? && m.review == r && Decided(v, v', true))
         case Cancelled =>
           || m == CancelReview(r) || ConfirmsCancel(w, m, r)
           || (from.CancelRequested? && (m == ReclaimReview(r) || (m.Reconcile? && m.review == r)))
  }

  /** The other way round: whenever the cause is there, the status moves. */
  predicate StatusFollows(w: World, m: Move, r: ReviewId, v': Review)
    requires r in w.reviews
  {
    var v := w.reviews[r]; var from, to := v.status, v'.status;
    && (m == StartReview(r) && from.Queued? ==> to.Running?)
    && (m == FinishReview(r) && from.Running? ==> to.Succeeded?)
    && (m == AttemptFails(r, true) && from.Running? ==> to.RetryWait?)
    && (m == AttemptFails(r, false) && from.Running? ==> to.Failed?)
    && (m == RequeueReview(r) && from.RetryWait? ==> to.Queued?)
    && (m == CancelReview(r) ==> if from.Running? then to.CancelRequested? else !Terminal(from) ==> to.Cancelled?)
    && (m == AwaitInput(r, true) && from.Running? && v.stage.ImportStage? ==> to.WaitingInput? && v'.stage.SelectionStage?)
    && (m == AwaitInput(r, false) && from.Running? && v.stage.MatrixStage? ==> to.WaitingInput?)
    && (m == AwaitDependencies(r) && from.Running? && (v.stage.SearchStage? || v.stage.ImportStage? || v.stage.WaitStage?) ==>
          to.WaitingDependency? && v'.stage.WaitStage?)
    && (m == DecideOutline(r) && from.WaitingInput? && v.stage.MatrixStage? ==> to.Queued?)
    && (m.SelectCandidates? && m.review == r && MaySelect(v, m.selected) ==> to.Queued? && v'.stage.ImportStage?)
    && (from.CancelRequested? && (m == ReclaimReview(r) || ConfirmsCancel(w, m, r) || (m.Reconcile? && m.review == r)) ==> to.Cancelled?)
    && (m.Reconcile? && m.review == r && from.WaitingDependency? && AllSettled(v'.sources) ==>
          if ReadyCount(v'.sources) >= Enough(v) then to.Queued? && (v.stage.WaitStage? ==> v'.stage.MatrixStage?) else to.Failed?)
  }

  ghost predicate StatusExact(w: World, m: Move, r: ReviewId, after: World)
    requires r in w.reviews
  {
    r in after.reviews && StatusMoves(w, m, r, after.reviews[r]) && StatusFollows(w, m, r, after.reviews[r])
  }

  lemma SameStatus(w: World, m: Move, r: ReviewId, v': Review)
    requires r in w.reviews && v'.status == w.reviews[r].status
    requires !(OnTheRun(m) && m.review == r) && !ConfirmsCancel(w, m, r)
    ensures StatusMoves(w, m, r, v') && StatusFollows(w, m, r, v')
  {
    hide ConfirmsCancel, MaySelect, Decided, AllSettled;
  }

  lemma ConfirmStatus(w: World, m: Move, r: ReviewId, v': Review)
    requires r in w.reviews && ConfirmsCancel(w, m, r) && v'.status.Cancelled?
    ensures StatusMoves(w, m, r, v') && StatusFollows(w, m, r, v')
  {
    assert m.ConfirmCancel? || m.RegisterSource?;
    assert w.reviews[r].status.CancelRequested?;
    hide ConfirmsCancel, MaySelect, Decided, AllSettled;
  }

  lemma RunMoves(w: World, m: Move, r: ReviewId)
    requires r in w.reviews && OnTheRun(m) && m.review == r && !m.Reconcile?
    ensures var v' := MoveRun(w.library, w.reviews[r], m); StatusMoves(w, m, r, v') && StatusFollows(w, m, r, v')
  {
    assert !ConfirmsCancel(w, m, r);
    hide ConfirmsCancel, Decided, AllSettled, Reconciled, ReadyCount, Enough;
  }

  lemma {:induction false} StagesStay(l: Library, v: Review, o: Outside, cancelling: bool, k: nat)
    requires k <= |v.sources|
    ensures var after := ReconcileFirst(l, v, o, cancelling, k);
            after.status == v.status && after.stage == v.stage && after.minimumReady == v.minimumReady
  {
    hide Evaluate, Resolve, Require;
    if k > 0 { StagesStay(l, v, o, cancelling, k - 1); }
  }

  lemma ReconcileMoves(w: World, m: Move, r: ReviewId)
    requires r in w.reviews && m.Reconcile? && m.review == r
    ensures var v' := MoveRun(w.library, w.reviews[r], m); StatusMoves(w, m, r, v') && StatusFollows(w, m, r, v')
  {
    var v := w.reviews[r];
    assert !ConfirmsCancel(w, m, r);
    StagesStay(w.library, v, m.outside, Cancelling(v.status), |v.sources|);
    hide ConfirmsCancel, AllSettled, ReadyCount, ReconcileFirst, MaySelect;
  }

  /** Every status change of a review is one of the status table, for one of the causes that `StatusMoves` lists, and
      each of these causes moves it. */
  lemma ReviewStatusMovesExactly(w: World, m: Move, r: ReviewId)
    requires r in w.reviews
    ensures StatusExact(w, m, r, Commit(w, m))
  {
    hide StatusMoves, StatusFollows, ConfirmsCancel, MoveRun, Register, ConfirmIfRequested, MarkFailed, Complete, Search;
    if OnTheRun(m) && m.review == r {
      if m.Reconcile? { ReconcileMoves(w, m, r); } else { RunMoves(w, m, r); }
    } else {
      OtherStatus(w, m, r);
      hide Commit;
      if ConfirmsCancel(w, m, r) { ConfirmStatus(w, m, r, Commit(w, m).reviews[r]); } else { SameStatus(w, m, r, Commit(w, m).reviews[r]); }
    }
  }

  /** The commits that are not on the run of the review: its status changes only where the import confirms a cancellation. */
  lemma OtherStatus(w: World, m: Move, r: ReviewId)
    requires r in w.reviews && !(OnTheRun(m) && m.review == r)
    ensures r in Commit(w, m).reviews
    ensures Commit(w, m).reviews[r].status == if ConfirmsCancel(w, m, r) then Cancelled else w.reviews[r].status
  {
    if m.RegisterSource? {
      RegisterStatus(w, m, r);
    } else {
      hide MoveRun, Register;
    }
  }

  lemma RegisterStatus(w: World, m: Move, r: ReviewId)
    requires r in w.reviews && m.RegisterSource?
    ensures r in Commit(w, m).reviews
    ensures Commit(w, m).reviews[r].status == if ConfirmsCancel(w, m, r) then Cancelled else w.reviews[r].status
  {
    hide HasContent, ContentOf, Require;
    if m.review in w.reviews && HasContent(w.library, w.reviews[m.review].owner, m.hash) { ContentThere(w.library, w.reviews[m.review].owner, m.hash); }
  }

  // ---- the stage of a review -----------------------------------------------------------------------------------------

  /** Who moves a review on, and to which stage. */
  function StageAfter(w: World, m: Move, r: ReviewId): Stage
    requires r in w.reviews
  {
    var v := w.reviews[r];
    match m
    case RunSearch(q, _, _) => if q == r && v.search.None? && v.stage.SearchStage? then ImportStage else v.stage
    case AwaitInput(q, selection) => if q == r && selection && v.status.Running? && v.stage.ImportStage? then SelectionStage else v.stage
    case SelectCandidates(q, selected) => if q == r && MaySelect(v, selected) then ImportStage else v.stage
    case AwaitDependencies(q) =>
      if q == r && v.status.Running? && (v.stage.SearchStage? || v.stage.ImportStage?) then WaitStage else v.stage
    case CompleteImport(q, ready) =>
      if q == r && v.step.None? && ready > 0 && AllSettled(v.sources) && v.stage.ImportStage? then MatrixStage else v.stage
    case Reconcile(q, o) =>
      if q == r && Decided(v, Reconciled(w.library, v, o), true) && (v.stage.ImportStage? || v.stage.WaitStage?) then MatrixStage
      else v.stage
    case _ => v.stage
  }

  lemma StageMovesExactly(w: World, m: Move, r: ReviewId)
    requires r in w.reviews
    ensures r in Commit(w, m).reviews && Commit(w, m).reviews[r].stage == StageAfter(w, m, r)
  {
    if m.RegisterSource? {
      RegisterStage(w, m, r);
    } else if m.Reconcile? {
      if m.review == r { ReconcileStage(w.library, w.reviews[r], m.outside); }
      hide AllSettled, ReadyCount, Reconciled, Decided;
    } else {
      hide Register, Reconciled, Decided;
    }
  }

  lemma ReconcileStage(l: Library, v: Review, o: Outside)
    ensures var v' := Reconciled(l, v, o);
            v'.stage == if Decided(v, v', true) && (v.stage.ImportStage? || v.stage.WaitStage?) then MatrixStage else v.stage
  {
    StagesStay(l, v, o, Cancelling(v.status), |v.sources|);
    hide AllSettled, ReadyCount, ReconcileFirst;
  }

  lemma RegisterStage(w: World, m: Move, r: ReviewId)
    requires r in w.reviews && m.RegisterSource?
    ensures r in Commit(w, m).reviews && Commit(w, m).reviews[r].stage == w.reviews[r].stage
  {
    hide HasContent, ContentOf, Require;
    if m.review in w.reviews && HasContent(w.library, w.reviews[m.review].owner, m.hash) { ContentThere(w.library, w.reviews[m.review].owner, m.hash); }
  }

  // ---- one source, undisturbed -------------------------------------------------------------------------------------------

  /** An error that may pass ends the call and leaves the source open for the next attempt; a download that fails for good, or
      that the remaining bytes do not allow, fails the source and the loop goes on; without storage the call ends. */
  lemma UndisturbedDownload(w: World, r: ReviewId, i: nat, t: Turn, budget: int, tally: Tally)
    requires Active(w, r) && i < |w.reviews[r].sources| && Undisturbed(t)
    requires w.reviews[r].sources[i].status.Discovered? && w.reviews[r].sources[i].identified
    ensures var p := ImportOne(w, r, i, w.reviews[r].sources[i], t, budget, tally); var left := budget - tally.bytes;
            && (left > 0 && t.download.TemporaryError? ==> p == Progress(w, tally, Raised))
            && (left <= 0 || t.download.PermanentError? || (t.download.Content? && t.download.size > left) ==>
                  p == Progress(MarkFailed(w, r, i), tally.(failed := tally.failed + 1), Going))
            && (t.download.Content? && left > 0 && t.download.size <= left && !t.storageOk ==>
                  p == Progress(w, tally.(bytes := tally.bytes + t.download.size), Raised))
            && (t.download.Content? && left > 0 && t.download.size <= left && t.storageOk ==>
                  Downloaded(w, r, i, t, tally, p))
  {
    assert forall x :: Play(x, []) == x;
    hide MarkFailed, Register, Commit;
  }

  /** The download was stored and registered; an archived paper fails the source. */
  ghost predicate Downloaded(w: World, r: ReviewId, i: nat, t: Turn, tally: Tally, p: Progress)
    requires r in w.reviews && t.download.Content?
  {
    var cached := Commit(w, WriteCache(w.reviews[r].owner, t.download.hash));
    var out := Register(cached, r, i, t.download.hash, t.download.size, t.ids);
    var counted := tally.(bytes := tally.bytes + t.download.size);
    match out.reply
    case Bound(ready, _) =>
      p == Progress(out.world, counted.(imported := tally.imported + 1, ready := tally.ready + if ready then 1 else 0), Going)
    case PaperArchived =>
      p == Progress(MarkFailed(cached, r, i), counted.(failed := tally.failed + 1), Going)
    case RegisterRaised => p == Progress(out.world, counted, Raised)
    case CancelSeen => false
  }
}
