/** What every transaction does to every turn and session, in terms of who asked for what, in every reachable state. */
module TurnMoves {
  import opened Wrappers
  import opened Runs
  import opened TurnProtocol
  import opened TurnInvariant
  import opened TurnTheorems
  import opened TurnFences
  import TurnEnd
  import Artifacts
  import ArtifactTheorems
  import ArtifactAnswers
  import Ledger
  import LedgerTheorems

  // ---- who moves a turn ------------------------------------------------------------------------------------

  /** The worker's look shows the run as it is now. */
  predicate Sees(db: Db, w: WorkerId, r: RunId)
    requires r in db.runs
  {
    w in db.sights && db.sights[w].run == r && db.sights[w].nextEvent == db.runs[r].nextEvent
  }

  predicate OwnerCancels(db: Db, a: Action, r: RunId)
    requires r in db.runs
  {
    a.CancelRun? && a.run == r && a.actor == db.runs[r].owner
  }

  /** The executor meets a cancelled turn, when it confirms or when it brings a result. */
  predicate ExecutorCancels(db: Db, a: Action, r: RunId)
    requires r in db.runs
  {
    (a.ConfirmCancellation? || a.CommitResult?) && a.run == r && db.runs[r].status.CancelRequested?
  }

  /** The turn ends cancelled: its owner cancels it while nothing executes or once more, or whoever finds the request does. */
  predicate EndsCancelled(db: Db, a: Action, r: RunId)
    requires r in db.runs
  {
    var status := db.runs[r].status;
    || (OwnerCancels(db, a, r) && (status.Queued? || status.RetryWait? || status.CancelRequested?))
    || (a.ReclaimRun? && a.run == r && status.CancelRequested?)
    || ExecutorCancels(db, a, r)
  }

  /** The result of a RUNNING turn that is in order: what it reports can be staged, and the fences of the reviewed
      candidates still hold. */
  ghost predicate Delivers(db: Db, a: Action, r: RunId)
    requires r in db.runs
  {
    && a.CommitResult? && a.run == r && db.runs[r].status.Running? && a.result.accepted
    && !ArtifactAnswers.Clashes(db.runs[r].shelf.candidates, Artifacts.Requested(a.result.reports))
    && forall c :: c in db.runs[r].shelf.candidates && c.stage.Validated? ==> c.stage.fence in CurrentFences(db, r)
  }

  predicate AttemptEnds(db: Db, a: Action, r: RunId)
    requires r in db.runs
  {
    a.AttemptFails? && a.run == r && db.runs[r].status.Running?
  }

  predicate Claims(db: Db, a: Action, r: RunId)
    requires r in db.runs
  {
    a.ClaimRun? && Sees(db, a.worker, r) && db.runs[r].status.Queued?
  }

  predicate Requeues(db: Db, a: Action, r: RunId)
    requires r in db.runs
  {
    a.RequeueRun? && Sees(db, a.worker, r) && db.runs[r].status.RetryWait?
  }

  ghost function StatusAfter(db: Db, a: Action, r: RunId): Status
    requires r in db.runs
  {
    if OwnerCancels(db, a, r) && db.runs[r].status.Running? then CancelRequested
    else if EndsCancelled(db, a, r) then Cancelled
    else if AttemptEnds(db, a, r) then if a.retry then RetryWait else Failed
    else if Claims(db, a, r) then Running
    else if Requeues(db, a, r) then Queued
    else if Delivers(db, a, r) then Succeeded
    else db.runs[r].status
  }

  // ---- who writes to its log -----------------------------------------------------------------------------------

  /** The turn's budget takes the request, and it is a reservation. */
  predicate ReservesNow(db: Db, a: Action, r: RunId)
    requires r in db.runs
  {
    a.UseBudget? && a.run == r && Ledger.Reserves(a.op) && Ledger.Apply(db.runs[r].ledger, db.runs[r].status, a.op).answer.Accepted?
  }

  predicate RecordsSubmission(db: Db, a: Action, r: RunId)
    requires r in db.runs
  {
    && a.SubmitArtifact? && a.run == r && db.runs[r].status.Running?
    && Artifacts.Submit(db.runs[r].shelf, a.toolCall, a.fact, a.fence).1.Recorded?
  }

  predicate RecordsRejection(db: Db, a: Action, r: RunId)
    requires r in db.runs
  {
    && a.RejectArtifact? && a.run == r && db.runs[r].status.Running?
    && Artifacts.Reject(db.runs[r].shelf, a.toolCall, a.fact, a.code).1.Recorded?
  }

  predicate InOrder(run: Run, id: EffectId, tool: string) {
    CallValid(id, tool) && ToolPermitted(run.ledger.policy, id, tool)
  }

  /** A RUNNING turn begins a call that is new, as long as there is room, or whose last attempt failed for the time being. */
  predicate BeginsCall(db: Db, a: Action, r: RunId)
    requires r in db.runs
  {
    var run := db.runs[r];
    && a.BeginEffect? && a.run == r && run.status.Running? && InOrder(run, a.id, a.tool)
    && if a.id in run.effects then KnownCall(run, a.id, a.tool, a.arguments) && run.effects[a.id].status == Broken(Temporary)
       else |run.effects| < run.ledger.policy.maxToolCalls
  }

  /** The call in flight, of the attempt the caller knows; external tools know no attempts. */
  predicate InFlightCall(run: Run, id: EffectId, tool: string, arguments: string, attempt: nat) {
    && KnownCall(run, id, tool, arguments) && run.effects[id].status.InFlight?
    && (id.Content? ==> run.effects[id].attempt == attempt)
  }

  predicate FinishesCall(db: Db, a: Action, r: RunId)
    requires r in db.runs
  {
    && a.FinishEffect? && a.run == r && db.runs[r].status.Running?
    && InFlightCall(db.runs[r], a.id, a.tool, a.arguments, a.attempt)
  }

  predicate BreaksCall(db: Db, a: Action, r: RunId)
    requires r in db.runs
  {
    a.FailEffect? && a.run == r && ErrorFits(a.error) && InFlightCall(db.runs[r], a.id, a.tool, a.arguments, a.attempt)
  }

  /** The control in force is closed by the request: it is ended, out of date, or replaced. */
  predicate ClosesControl(db: Db, a: Action) {
    && AboutBrowser(a) && Visible(db, a.session, a.actor) && Driven(db, a.session)
    && match a
       case EndBrowser(_, _, _) => true
       case PeekBrowser(_, s, now) => !(Fits(db, s, db.controls[s]) && Live(db.controls[s], now))
       case TakeBrowser(_, s, _, _, _, _) => BeginsControl(db, a)
  }

  /** A new control begins: the owner may take the browser and does not have it already under this key. */
  predicate BeginsControl(db: Db, a: Action) {
    && a.TakeBrowser? && MayTake(db, a.actor, a.session, a.refused, a.now) && a.ttl > 0
    && !SameControl(db, a.session, a.signingKey, a.now)
  }

  function Once(k: Kind, b: bool): seq<Kind> {
    if b then [k] else []
  }

  /** The events the transaction adds to the turn's log. */
  ghost function Written(db: Db, a: Action, r: RunId): seq<Kind>
    requires r in db.runs
  {
    var run := db.runs[r];
    if OwnerCancels(db, a, r) && run.status.Running? then [RunCancelRequested]
    else if EndsCancelled(db, a, r) then if ExecutorCancels(db, a, r) then [RunCancelled, TurnCancelled] else [RunCancelled]
    else if AttemptEnds(db, a, r) then if a.retry then [RetryScheduled] else [RunFailed]
    else if Claims(db, a, r) then [RunStarted]
    else if Requeues(db, a, r) then [Requeued]
    else if Delivers(db, a, r) then
      SuccessKinds(|Artifacts.Requested(a.result.reports)|, Artifacts.Count(run.shelf.candidates, Artifacts.IsReviewed))
    else if ReservesNow(db, a, r) then
      [BudgetUpdated(|run.ledger.modelCalls| + (if a.op.ReserveModel? then 1 else 0),
                     |run.ledger.toolCalls| + (if a.op.ReserveTool? then 1 else 0))]
    else if RecordsSubmission(db, a, r) then [ArtifactValidated]
    else if RecordsRejection(db, a, r) then [ArtifactRejected]
    else if BeginsCall(db, a, r) || FinishesCall(db, a, r) then [ToolProgress]
    else if BreaksCall(db, a, r) then
      Once(ToolFailed, a.id.Invocation? || run.status.Running? || run.status.CancelRequested?)
    else if AboutBrowser(a) then
      Once(BrowserControl, ClosesControl(db, a) && db.controls[a.session].anchor == r)
      + Once(BrowserControl, BeginsControl(db, a) && db.sandboxes[a.session].holder == r)
    else []
  }

  // ---- who changes its rows -------------------------------------------------------------------------------------

  ghost function ShelfAfter(db: Db, a: Action, r: RunId): Artifacts.Shelf
    requires r in db.runs
  {
    var run := db.runs[r];
    if RecordsSubmission(db, a, r) then Artifacts.Submit(run.shelf, a.toolCall, a.fact, a.fence).0
    else if RecordsRejection(db, a, r) then Artifacts.Reject(run.shelf, a.toolCall, a.fact, a.code).0
    else if Delivers(db, a, r) && ShelfOnSuccess(run, a.result, CurrentFences(db, r)).Some? then
      ShelfOnSuccess(run, a.result, CurrentFences(db, r)).value.shelf
    else run.shelf
  }

  function EffectsAfter(db: Db, a: Action, r: RunId): map<EffectId, Effect>
    requires r in db.runs
  {
    var effects := db.runs[r].effects;
    if BeginsCall(db, a, r) then
      effects[a.id := Effect(a.tool, a.arguments, InFlight, if a.id in effects then effects[a.id].attempt + 1 else 1)]
    else if FinishesCall(db, a, r) then effects[a.id := effects[a.id].(status := Done(a.answer))]
    else if BreaksCall(db, a, r) then effects[a.id := effects[a.id].(status := Broken(a.error.kind))]
    else effects
  }

  /** The turn once the transaction is committed. */
  ghost function RunAfter(db: Db, a: Action, r: RunId): Run
    requires r in db.runs
  {
    var run := db.runs[r];
    run.(status := StatusAfter(db, a, r),
         events := run.events + Numbered(run.nextEvent, Written(db, a, r)),
         nextEvent := run.nextEvent + |Written(db, a, r)|,
         claimSets := if Delivers(db, a, r) && a.result.cited then 1 else run.claimSets,
         shelf := ShelfAfter(db, a, r),
         ledger := if a.UseBudget? && a.run == r then Ledger.Apply(run.ledger, run.status, a.op).ledger else run.ledger,
         effects := EffectsAfter(db, a, r))
  }

  ghost predicate MovesExactly(db: Db, db': Db, a: Action, r: RunId)
    requires r in db.runs
  {
    r in db'.runs && db'.runs[r] == RunAfter(db, a, r)
  }

  /** Only the log and the status move. */
  ghost predicate MovesLog(db: Db, a: Action, r: RunId, kinds: seq<Kind>, to: Status)
    requires r in db.runs
  {
    && StatusAfter(db, a, r) == to && Written(db, a, r) == kinds
    && !Delivers(db, a, r) && !RecordsSubmission(db, a, r) && !RecordsRejection(db, a, r) && !(a.UseBudget? && a.run == r)
    && !BeginsCall(db, a, r) && !FinishesCall(db, a, r) && !BreaksCall(db, a, r)
  }

  lemma LogMoves(db: Db, a: Action, r: RunId, kinds: seq<Kind>, to: Status)
    requires r in db.runs && MovesLog(db, a, r, kinds, to)
    ensures RunAfter(db, a, r) == Append(db.runs[r], kinds, to)
  {
    hide StatusAfter, Written, Delivers, RecordsSubmission, RecordsRejection, BeginsCall, FinishesCall, BreaksCall;
  }

  /** The transaction does nothing to the turn. */
  ghost predicate Idle(db: Db, a: Action, r: RunId)
    requires r in db.runs
  {
    MovesLog(db, a, r, [], db.runs[r].status)
  }

  lemma IdleStays(db: Db, a: Action, r: RunId)
    requires r in db.runs && Idle(db, a, r)
    ensures RunAfter(db, a, r) == db.runs[r]
  {
    LogMoves(db, a, r, [], db.runs[r].status);
    hide Idle;
    EmptyAppend(db.runs[r]);
  }

  // ---- one lemma for each group of transactions ------------------------------------------------------------------

  predicate OnRun(a: Action) {
    a.CancelRun? || a.AttemptFails? || a.ReclaimRun? || a.ConfirmCancellation? || a.CommitResult? || a.UseBudget?
    || a.SubmitArtifact? || a.RejectArtifact? || AboutTools(a)
  }

  lemma IdleUnlessAsked(db: Db, a: Action, r: RunId)
    requires r in db.runs
    requires a.CreateSession? || a.PostMessage? || a.Look? || a.TerminalCallback? || AboutLease(a) || (OnRun(a) && a.run != r)
    ensures Idle(db, a, r)
  {
    assert !a.ClaimRun? && !a.RequeueRun? && !AboutBrowser(a);
    NobodyAsks(db, a, r);
    hide OwnerCancels, EndsCancelled, AttemptEnds, ReservesNow, RecordsSubmission, RecordsRejection, BeginsCall, FinishesCall, BreaksCall,
         Delivers, ExecutorCancels, AboutLease, OnRun, Sees;
  }

  /** None of the requests that concern one run concerns this one. */
  lemma NobodyAsks(db: Db, a: Action, r: RunId)
    requires r in db.runs
    requires a.CreateSession? || a.PostMessage? || a.Look? || a.TerminalCallback? || AboutLease(a) || (OnRun(a) && a.run != r)
    ensures !OwnerCancels(db, a, r) && !EndsCancelled(db, a, r) && !AttemptEnds(db, a, r) && !Delivers(db, a, r)
    ensures !ReservesNow(db, a, r) && !RecordsSubmission(db, a, r) && !RecordsRejection(db, a, r) && !(a.UseBudget? && a.run == r)
    ensures !BeginsCall(db, a, r) && !FinishesCall(db, a, r) && !BreaksCall(db, a, r)
  {
    hide Artifacts.Requested, ArtifactAnswers.Clashes, Artifacts.Submit, Artifacts.Reject, Ledger.Apply, CurrentFences, InOrder,
         KnownCall, InFlightCall;
  }

  /** Cancellation by the owner, a failed attempt, the reconciler. */
  lemma EndingMovesExactly(db: Db, a: Action, r: RunId)
    requires (a.CancelRun? || a.AttemptFails? || a.ReclaimRun?) && a.run == r
    requires r in db.runs && !db.runs[r].status.WaitingInput? && !db.runs[r].status.WaitingDependency?
    ensures MovesExactly(db, Next(db, a), a, r)
  {
    hide MovesLog, Append, RunAfter, Next, Cancel, FailAttempt, Reclaim;
    EndingWrites(db, a, r);
    LogMoves(db, a, r, Written(db, a, r), StatusAfter(db, a, r));
    EndingIs(db, a, r);
  }

  lemma EndingWrites(db: Db, a: Action, r: RunId)
    requires (a.CancelRun? || a.AttemptFails? || a.ReclaimRun?) && r in db.runs && a.run == r
    ensures MovesLog(db, a, r, Written(db, a, r), StatusAfter(db, a, r))
  {
    hide StatusAfter, Written;
  }

  lemma EndingIs(db: Db, a: Action, r: RunId)
    requires (a.CancelRun? || a.AttemptFails? || a.ReclaimRun?) && a.run == r
    requires r in db.runs && !db.runs[r].status.WaitingInput? && !db.runs[r].status.WaitingDependency?
    ensures r in Next(db, a).runs && Next(db, a).runs[r] == Append(db.runs[r], Written(db, a, r), StatusAfter(db, a, r))
  {
    hide Append, Written, StatusAfter, Next, Cancel, FailAttempt, Reclaim;
    EndingTable(db, a, r);
    EmptyAppend(db.runs[r]);
    match a
    case CancelRun(actor, q) => NextCancel(db, actor, r); CancelIs(db, actor, r);
    case AttemptFails(q, retry) => NextFails(db, r, retry); FailsIs(db, r, retry);
    case ReclaimRun(q) => NextFails(db, r, true); FailsIs(db, r, true);
  }

  lemma NextFails(db: Db, r: RunId, retry: bool)
    ensures Next(db, AttemptFails(r, retry)) == FailAttempt(db, r, retry) && Next(db, ReclaimRun(r)) == Reclaim(db, r)
  {
    hide FailAttempt, Reclaim;
  }

  lemma CancelIs(db: Db, actor: OwnerId, r: RunId)
    requires r in db.runs && !db.runs[r].status.WaitingInput? && !db.runs[r].status.WaitingDependency?
    ensures r in Cancel(db, actor, r).runs
    ensures var run := db.runs[r];
            Cancel(db, actor, r).runs[r]
            == if actor == run.owner && run.status.Running? then Append(run, [RunCancelRequested], CancelRequested)
               else if actor == run.owner && !Terminal(run.status) then Append(run, [RunCancelled], Cancelled)
               else run
  {
    hide Append, WithRun;
    OtherRunStays(db, r);
  }

  lemma FailsIs(db: Db, r: RunId, retry: bool)
    requires r in db.runs
    ensures r in FailAttempt(db, r, retry).runs && r in Reclaim(db, r).runs
    ensures var run := db.runs[r];
            FailAttempt(db, r, retry).runs[r]
            == if !run.status.Running? then run
               else Append(run, [if retry then RetryScheduled else RunFailed], if retry then RetryWait else Failed)
    ensures Reclaim(db, r).runs[r] == if db.runs[r].status.CancelRequested? then Append(db.runs[r], [RunCancelled], Cancelled) else db.runs[r]
  {
    hide Append, WithRun;
    OtherRunStays(db, r);
  }

  lemma EndingTable(db: Db, a: Action, r: RunId)
    requires (a.CancelRun? || a.AttemptFails? || a.ReclaimRun?) && a.run == r && r in db.runs
    ensures var status := db.runs[r].status; var to := StatusAfter(db, a, r); var kinds := Written(db, a, r);
            if a.CancelRun? && a.actor == db.runs[r].owner && status.Running? then to == CancelRequested && kinds == [RunCancelRequested]
            else if (a.CancelRun? && a.actor == db.runs[r].owner && (status.Queued? || status.RetryWait? || status.CancelRequested?))
                    || (a.ReclaimRun? && status.CancelRequested?)
            then to == Cancelled && kinds == [RunCancelled]
            else if a.AttemptFails? && status.Running? then
              to == (if a.retry then RetryWait else Failed) && kinds == [if a.retry then RetryScheduled else RunFailed]
            else to == status && kinds == []
  {
    hide Artifacts.Requested, Artifacts.Submit, Artifacts.Reject, Ledger.Apply, CurrentFences, InOrder, KnownCall, SuccessKinds, Fits,
         MayTake;
  }

  /** Claims and requeueing, on the strength of a look. */
  lemma ClaimTable(db: Db, a: Action, r: RunId)
    requires (a.ClaimRun? || a.RequeueRun?) && r in db.runs
    ensures Claims(db, a, r) ==> MovesLog(db, a, r, [RunStarted], Running)
    ensures Requeues(db, a, r) ==> MovesLog(db, a, r, [Requeued], Queued)
    ensures !Claims(db, a, r) && !Requeues(db, a, r) ==> Idle(db, a, r)
  {
    hide Artifacts.Requested, Artifacts.Submit, Artifacts.Reject, Ledger.Apply, CurrentFences, InOrder, KnownCall, SuccessKinds, Fits,
         MayTake, Sees;
  }

  lemma ClaimRunIs(db: Db, w: WorkerId)
    ensures Next(db, ClaimRun(w)).runs == ClaimFrom(db, w, Queued, Running, RunStarted).runs
    ensures Next(db, RequeueRun(w)) == ClaimFrom(db, w, RetryWait, Queued, Requeued)
  {
    hide ClaimFrom, ClaimCommits;
    if !(w in db.sights && ClaimCommits(db, db.sights[w], Queued)) { UnclaimedStays(db, w); }
  }

  lemma LookCommitsIff(db: Db, w: WorkerId, r: RunId, expected: Status)
    requires Inv(db) && r in db.runs && w in db.sights && db.sights[w].run == r
    ensures ClaimCommits(db, db.sights[w], expected) <==> Sees(db, w, r) && db.runs[r].status == expected
  {
    SightOf(db, w);
    ClaimNeedsFreshSight(db, db.sights[w], expected);
    hide Inv, ClaimCommits;
  }

  lemma ClaimMovesExactly(db: Db, a: Action, r: RunId)
    requires Inv(db) && (a.ClaimRun? || a.RequeueRun?) && r in db.runs
    ensures MovesExactly(db, Next(db, a), a, r)
  {
    hide Inv, Next, MovesLog, RunAfter, Append, ClaimCommits, Sees, Idle;
    var w := a.worker;
    ClaimRunIs(db, w);
    ClaimTable(db, a, r);
    var expected := if a.ClaimRun? then Queued else RetryWait;
    var to := if a.ClaimRun? then Running else Queued;
    var kind := if a.ClaimRun? then RunStarted else Requeued;
    if w in db.sights && ClaimCommits(db, db.sights[w], expected) {
      ClaimIsAppend(db, w, expected, to, kind);
    }
    if w in db.sights && db.sights[w].run == r { LookCommitsIff(db, w, r, expected); }
    if Claims(db, a, r) || Requeues(db, a, r) {
      LogMoves(db, a, r, [kind], to);
      assert w in db.sights && db.sights[w].run == r by { SeesIs(db, w, r); }
    } else {
      IdleStays(db, a, r);
      if w in db.sights && ClaimCommits(db, db.sights[w], expected) { assert db.sights[w].run != r; }
    }
  }

  lemma SeesIs(db: Db, w: WorkerId, r: RunId)
    requires r in db.runs && Sees(db, w, r)
    ensures w in db.sights && db.sights[w].run == r
  {
  }

  // ---- the executor's commits --------------------------------------------------------------------------------------

  /** Whoever commits for a cancelled turn, with a result or without, finds its session and ends it. */
  lemma CancellationIs(db: Db, r: RunId)
    requires Inv(db) && Is(db, r, CancelRequested)
    ensures var db' := CommitCancellation(db, r);
            && r in db'.runs && db'.runs[r] == Append(db.runs[r], [RunCancelled, TurnCancelled], Cancelled)
            && db'.sessions == db.sessions[db.runs[r].session := db.sessions[db.runs[r].session].(active := None)]
            && db'.receipts == db.receipts && db'.sights == db.sights && db'.executing == db.executing
            && db'.sandboxes == db.sandboxes && db'.controls == db.controls && db'.runs == db.runs[r := db'.runs[r]]
  {
    HolderOf(db, r);
    hide Append, Inv;
  }

  lemma HolderOf(db: Db, r: RunId)
    requires Inv(db) && r in db.runs && !Terminal(db.runs[r].status)
    ensures Holds(db, db.runs[r].session, r)
  {
    hide RunSound, SessionSound, SightSound;
    assert RunPlaced(db, r);
  }

  lemma CommitTable(db: Db, a: Action, r: RunId)
    requires (a.ConfirmCancellation? || a.CommitResult?) && r in db.runs && a.run == r
    ensures db.runs[r].status.CancelRequested? ==> MovesLog(db, a, r, [RunCancelled, TurnCancelled], Cancelled)
    ensures Delivers(db, a, r) ==>
              && StatusAfter(db, a, r) == Succeeded
              && Written(db, a, r) == SuccessKinds(|Artifacts.Requested(a.result.reports)|,
                                                   Artifacts.Count(db.runs[r].shelf.candidates, Artifacts.IsReviewed))
    ensures !db.runs[r].status.CancelRequested? && !Delivers(db, a, r) ==> Idle(db, a, r)
  {
    hide Artifacts.Requested, Artifacts.Submit, Artifacts.Reject, Ledger.Apply, CurrentFences, InOrder, KnownCall, SuccessKinds, Fits,
         MayTake, ArtifactAnswers.Clashes;
  }

  lemma {:induction false} StagingKeepsReviewed(cs: seq<Artifacts.Candidate>, requested: seq<Artifacts.Candidate>)
    requires Artifacts.StageAll(cs, requested).Some? && forall c :: c in requested ==> c.stage.Staged?
    ensures Artifacts.Count(Artifacts.StageAll(cs, requested).value, Artifacts.IsReviewed) == Artifacts.Count(cs, Artifacts.IsReviewed)
  {
    if requested != [] {
      var n := |requested| - 1;
      assert forall c :: c in requested[..n] ==> c in requested;
      StagingKeepsReviewed(cs, requested[..n]);
      ArtifactTheorems.CountAppend(Artifacts.StageAll(cs, requested[..n]).value, requested[n], Artifacts.IsReviewed);
    }
  }

  /** The result commits exactly when it is delivered in order. */
  lemma DeliversIff(db: Db, r: RunId, result: TurnResult)
    requires Inv(db) && r in db.runs
    ensures SuccessCommits(db, r, result) <==> Delivers(db, CommitResult(r, result), r)
  {
    hide Inv, RunSound, ShelfOnSuccess, CurrentFences, Artifacts.Requested, ArtifactAnswers.Clashes, Holds;
    if Is(db, r, Running) {
      HolderOf(db, r);
      RunIsSound(db, r);
      ShelfDecides(db.runs[r], result, CurrentFences(db, r));
    }
  }

  /** The shelf of a result that can be staged and whose fences hold. */
  lemma ShelfDecides(run: Run, result: TurnResult, fences: set<Artifacts.Fence>)
    requires RunSound(run)
    ensures ShelfOnSuccess(run, result, fences).Some?
            <==> !ArtifactAnswers.Clashes(run.shelf.candidates, Artifacts.Requested(result.reports))
                 && forall c :: c in run.shelf.candidates && c.stage.Validated? ==> c.stage.fence in fences
  {
    hide RunSound, Artifacts.Requested, Artifacts.StageAll, Artifacts.DistinctKeys, ArtifactAnswers.Clashes, Artifacts.FencesHold,
         ArtifactAnswers.Staging, Artifacts.CommitAll, Artifacts.ArtifactsOf;
    var cs, requested := run.shelf.candidates, Artifacts.Requested(result.reports);
    KeysDistinct(run);
    ArtifactAnswers.StagedUnlessClash(cs, requested);
    if Artifacts.StageAll(cs, requested).Some? { FencesAfterStaging(cs, requested, fences); }
    FencesMean(cs, fences);
  }

  lemma KeysDistinct(run: Run)
    requires RunSound(run)
    ensures Artifacts.DistinctKeys(run.shelf.candidates)
  {
    hide LogSound, Ledger.Sound, Artifacts.DistinctKeys, Artifacts.Matched, Artifacts.Count, Artifacts.Bytes;
  }

  lemma FencesMean(cs: seq<Artifacts.Candidate>, fences: set<Artifacts.Fence>)
    ensures Artifacts.FencesHold(cs, fences) <==> forall c :: c in cs && c.stage.Validated? ==> c.stage.fence in fences
  {
  }

  lemma SucceededIs(db: Db, r: RunId, result: TurnResult)
    requires Inv(db) && SuccessCommits(db, r, result)
    ensures var run := db.runs[r]; var run' := SucceededRun(run, result, CurrentFences(db, r));
            var kinds := SuccessKinds(|Artifacts.Requested(result.reports)|, Artifacts.Count(run.shelf.candidates, Artifacts.IsReviewed));
            && ShelfOnSuccess(run, result, CurrentFences(db, r)).Some?
            && run' == run.(status := Succeeded, events := run.events + Numbered(run.nextEvent, kinds),
                            nextEvent := run.nextEvent + |kinds|, claimSets := if result.cited then 1 else run.claimSets,
                            shelf := ShelfOnSuccess(run, result, CurrentFences(db, r)).value.shelf)
  {
    hide Inv, Artifacts.Requested, Artifacts.StageAll, CurrentFences, Artifacts.FencesHold, SuccessKinds, Numbered, RunSound,
         Artifacts.Count, Artifacts.ArtifactsOf, Artifacts.CommitAll, Holds;
    RunIsSound(db, r);
    NoClaimsYet(db.runs[r]);
    PublishedCount(db.runs[r], result, CurrentFences(db, r));
  }

  lemma NoClaimsYet(run: Run)
    requires RunSound(run) && !run.status.Succeeded?
    ensures run.claimSets == 0
  {
    hide LogSound, Artifacts.Sound, Ledger.Sound;
  }

  /** What a success publishes: the artifacts of the candidates that were reviewed before. */
  lemma PublishedCount(run: Run, result: TurnResult, fences: set<Artifacts.Fence>)
    requires ShelfOnSuccess(run, result, fences).Some?
    ensures |ShelfOnSuccess(run, result, fences).value.published| == Artifacts.Count(run.shelf.candidates, Artifacts.IsReviewed)
  {
    var requested := Artifacts.Requested(result.reports);
    hide Artifacts.Requested, Artifacts.StageAll, Artifacts.FencesHold, Artifacts.Count, Artifacts.ArtifactsOf, Artifacts.CommitAll;
    StagingKeepsReviewed(run.shelf.candidates, requested);
    ArtifactTheorems.ArtifactsOfCounts(Artifacts.StageAll(run.shelf.candidates, requested).value, Artifacts.IsReviewed);
  }

  lemma CommitMovesExactly(db: Db, a: Action, r: RunId)
    requires Inv(db) && (a.ConfirmCancellation? || a.CommitResult?) && r in db.runs && a.run == r
    ensures MovesExactly(db, Next(db, a), a, r)
  {
    hide Inv, MovesLog, Idle, Append, CommitCancellation, RunAfter, SuccessCommits, Delivers, SucceededRun, Release, StatusAfter, Written;
    CommitTable(db, a, r);
    if db.runs[r].status.CancelRequested? {
      CancellationIs(db, r);
      LogMoves(db, a, r, [RunCancelled, TurnCancelled], Cancelled);
    } else if Delivers(db, a, r) {
      assert a.CommitResult? by { DeliversAsks(db, a, r); }
      DeliversIff(db, r, a.result);
      SucceededIs(db, r, a.result);
      SuccessIs(db, r, a.result);
      DeliveredRun(db, a, r);
    } else {
      IdleStays(db, a, r);
      OtherRunStays(db, r);
      if a.CommitResult? { DeliversIff(db, r, a.result); }
    }
  }

  lemma DeliveredRun(db: Db, a: Action, r: RunId)
    requires r in db.runs && Delivers(db, a, r) && ShelfOnSuccess(db.runs[r], a.result, CurrentFences(db, r)).Some?
    ensures var run := db.runs[r]; var kinds := Written(db, a, r);
            RunAfter(db, a, r)
            == run.(status := StatusAfter(db, a, r), events := run.events + Numbered(run.nextEvent, kinds),
                    nextEvent := run.nextEvent + |kinds|, claimSets := if a.result.cited then 1 else run.claimSets,
                    shelf := ShelfOnSuccess(run, a.result, CurrentFences(db, r)).value.shelf)
  {
    hide Written, StatusAfter, ArtifactAnswers.Clashes, CurrentFences, ShelfOnSuccess, Artifacts.Requested;
  }

  lemma DeliversAsks(db: Db, a: Action, r: RunId)
    requires r in db.runs && Delivers(db, a, r)
    ensures a.CommitResult?
  {
  }

  // ---- writers inside a turn -------------------------------------------------------------------------------------------

  lemma ReservedCounts(l: Ledger.Ledger, status: Status, op: Ledger.Op)
    requires Ledger.Reserves(op) && Ledger.Apply(l, status, op).answer.Accepted?
    ensures var l' := Ledger.Apply(l, status, op).ledger;
            && l'.modelReserved == l.modelReserved + (if op.ReserveModel? then 1 else 0)
            && l'.toolReserved == l.toolReserved + (if op.ReserveTool? then 1 else 0)
  {
    hide Ledger.PastDeadline, Ledger.RequestValid, Ledger.WithSignature;
  }

  lemma RefusedIsSame(l: Ledger.Ledger, status: Status, op: Ledger.Op)
    requires Ledger.Apply(l, status, op).answer.Refused?
    ensures Ledger.Apply(l, status, op).ledger == l
  {
    hide Ledger.PastDeadline, Ledger.RequestValid, Ledger.ExcerptValid, Ledger.Blank, Ledger.WithSignature;
  }

  lemma BudgetTable(db: Db, a: Action, r: RunId)
    requires a.UseBudget? && r in db.runs && a.run == r
    ensures var run := db.runs[r];
            RunAfter(db, a, r) == Append(run.(ledger := Ledger.Apply(run.ledger, run.status, a.op).ledger), BudgetKinds(run, a.op), run.status)
  {
    hide Artifacts.Requested, Artifacts.Submit, Artifacts.Reject, Ledger.Apply, CurrentFences, InOrder, KnownCall, SuccessKinds, Fits,
         MayTake, ArtifactAnswers.Clashes, Numbered;
  }

  function BudgetKinds(run: Run, op: Ledger.Op): seq<Kind> {
    if Ledger.Reserves(op) && Ledger.Apply(run.ledger, run.status, op).answer.Accepted? then
      [BudgetUpdated(|run.ledger.modelCalls| + (if op.ReserveModel? then 1 else 0),
                     |run.ledger.toolCalls| + (if op.ReserveTool? then 1 else 0))]
    else []
  }

  lemma UsedRunIs(run: Run, op: Ledger.Op)
    requires Ledger.Sound(run.ledger)
    ensures UsedRun(run, op)
            == Append(run.(ledger := Ledger.Apply(run.ledger, run.status, op).ledger), BudgetKinds(run, op), run.status)
  {
    hide Append, Ledger.Apply, Ledger.IsTotal, Ledger.FieldsFit, Ledger.WithSignature;
    var out := Ledger.Apply(run.ledger, run.status, op);
    if Ledger.Reserves(op) && out.answer.Accepted? { ReservedCounts(run.ledger, run.status, op); }
    EmptyAppend(run.(ledger := out.ledger));
  }

  lemma UsageIs(db: Db, r: RunId, op: Ledger.Op)
    requires r in db.runs
    ensures r in Next(db, UseBudget(r, op)).runs && Next(db, UseBudget(r, op)).runs[r] == UsedRun(db.runs[r], op)
  {
    hide Append, Ledger.Apply;
    if Ledger.Apply(db.runs[r].ledger, db.runs[r].status, op).answer.Refused? {
      RefusedIsSame(db.runs[r].ledger, db.runs[r].status, op);
    }
  }

  lemma BudgetMovesExactly(db: Db, a: Action, r: RunId)
    requires Inv(db) && a.UseBudget? && r in db.runs && a.run == r
    ensures MovesExactly(db, Next(db, a), a, r)
  {
    assert Ledger.Sound(db.runs[r].ledger) by { RunIsSound(db, r); hide Inv; }
    hide Inv, RunAfter, Append, Ledger.Apply, Ledger.Sound, UsedRun, BudgetKinds, Next;
    BudgetTable(db, a, r);
    UsedRunIs(db.runs[r], a.op);
    UsageIs(db, r, a.op);
  }

  lemma ShelfTable(db: Db, a: Action, r: RunId)
    requires (a.SubmitArtifact? || a.RejectArtifact?) && r in db.runs && a.run == r
    ensures RecordsSubmission(db, a, r) ==>
              RunAfter(db, a, r) == Append(db.runs[r].(shelf := Artifacts.Submit(db.runs[r].shelf, a.toolCall, a.fact, a.fence).0),
                                           [ArtifactValidated], Running)
    ensures RecordsRejection(db, a, r) ==>
              RunAfter(db, a, r) == Append(db.runs[r].(shelf := Artifacts.Reject(db.runs[r].shelf, a.toolCall, a.fact, a.code).0),
                                           [ArtifactRejected], Running)
    ensures !RecordsSubmission(db, a, r) && !RecordsRejection(db, a, r) ==> Idle(db, a, r)
  {
    hide Artifacts.Requested, Artifacts.Submit, Artifacts.Reject, Ledger.Apply, CurrentFences, InOrder, KnownCall, SuccessKinds, Fits,
         MayTake, ArtifactAnswers.Clashes, Numbered;
  }

  lemma ShelfMovesExactly(db: Db, a: Action, r: RunId)
    requires Inv(db) && (a.SubmitArtifact? || a.RejectArtifact?) && r in db.runs && a.run == r
    ensures MovesExactly(db, Next(db, a), a, r)
  {
    hide Inv, RunAfter, Append, Artifacts.Submit, Artifacts.Reject, Idle;
    ShelfTable(db, a, r);
    if !Terminal(db.runs[r].status) { HolderOf(db, r); }
    if !RecordsSubmission(db, a, r) && !RecordsRejection(db, a, r) { IdleStays(db, a, r); }
  }

  // ---- tool calls --------------------------------------------------------------------------------------------------------

  lemma ToolTable(db: Db, a: Action, r: RunId)
    requires AboutTools(a) && r in db.runs && a.run == r
    ensures RunAfter(db, a, r)
            == Append(db.runs[r].(effects := EffectsAfter(db, a, r)),
                      if BeginsCall(db, a, r) || FinishesCall(db, a, r) then [ToolProgress]
                      else if BreaksCall(db, a, r) then
                        Once(ToolFailed, a.id.Invocation? || db.runs[r].status.Running? || db.runs[r].status.CancelRequested?)
                      else [], db.runs[r].status)
  {
    hide Artifacts.Requested, Artifacts.Submit, Artifacts.Reject, Ledger.Apply, CurrentFences, InOrder, KnownCall, SuccessKinds, Fits,
         MayTake, ArtifactAnswers.Clashes, Numbered;
  }

  lemma ToolStepIs(db: Db, a: Action, r: RunId)
    requires AboutTools(a) && r in db.runs && a.run == r && CallsPermitted(db.runs[r])
    ensures ToolStep(db.runs[r], a)
            == Append(db.runs[r].(effects := EffectsAfter(db, a, r)),
                      if BeginsCall(db, a, r) || FinishesCall(db, a, r) then [ToolProgress]
                      else if BreaksCall(db, a, r) then
                        Once(ToolFailed, a.id.Invocation? || db.runs[r].status.Running? || db.runs[r].status.CancelRequested?)
                      else [], db.runs[r].status)
  {
    hide Append, CallValid, ToolPermitted;
    EmptyAppend(db.runs[r]);
    EmptyAppend(db.runs[r].(effects := EffectsAfter(db, a, r)));
  }

  lemma ToolMovesExactly(db: Db, a: Action, r: RunId)
    requires AboutTools(a) && r in db.runs && a.run == r && CallsPermitted(db.runs[r])
    ensures MovesExactly(db, Next(db, a), a, r)
  {
    hide RunAfter, Append, ToolStep, EffectsAfter, BeginsCall, FinishesCall, BreaksCall, Next, Beside;
    NextIsBeside(db, a);
    ToolSteps(db, a);
    ToolTable(db, a, r);
    ToolStepIs(db, a, r);
  }

  // ---- the browser -----------------------------------------------------------------------------------------------------------

  predicate ClosesAt(db: Db, a: Action, r: RunId) {
    AboutBrowser(a) && ClosesControl(db, a) && db.controls[a.session].anchor == r
  }

  predicate BeginsAt(db: Db, a: Action, r: RunId) {
    AboutBrowser(a) && BeginsControl(db, a) && db.sandboxes[a.session].holder == r
  }

  lemma BrowserTable(db: Db, a: Action, r: RunId)
    requires AboutBrowser(a) && r in db.runs
    ensures MovesLog(db, a, r, Once(BrowserControl, ClosesAt(db, a, r)) + Once(BrowserControl, BeginsAt(db, a, r)), db.runs[r].status)
  {
    hide Artifacts.Requested, Artifacts.Submit, Artifacts.Reject, Ledger.Apply, CurrentFences, InOrder, KnownCall, SuccessKinds, Fits,
         MayTake, ArtifactAnswers.Clashes, Numbered, ClosesControl, BeginsControl, Once;
  }

  lemma SavedRun(db: Db, s: SessionId, c: Control, r: RunId)
    requires r in db.runs
    ensures r in SaveControl(db, s, c).runs
    ensures SaveControl(db, s, c).runs[r] == Append(db.runs[r], Once(BrowserControl, c.anchor == r), db.runs[r].status)
  {
    hide Append;
    EmptyAppend(db.runs[r]);
  }

  lemma AppendTwice(run: Run, a: seq<Kind>, b: seq<Kind>)
    ensures Append(Append(run, a, run.status), b, run.status) == Append(run, a + b, run.status)
  {
    assert run.events + Numbered(run.nextEvent, a) + Numbered(run.nextEvent + |a|, b) == run.events + Numbered(run.nextEvent, a + b);
  }

  lemma TakeMovesExactly(db: Db, a: Action, r: RunId)
    requires a.TakeBrowser? && r in db.runs
    ensures r in Next(db, a).runs
    ensures Next(db, a).runs[r]
            == Append(db.runs[r], Once(BrowserControl, ClosesAt(db, a, r)) + Once(BrowserControl, BeginsAt(db, a, r)), db.runs[r].status)
  {
    hide Append, SaveControl, Vacated, SameControl, Busy, Once, NewControl;
    var s := a.session;
    var status := db.runs[r].status;
    EmptyAppend(db.runs[r]);
    assert Once(BrowserControl, false) == [] by { NotOnce(); }
    if MayTake(db, a.actor, s, a.refused, a.now) && !SameControl(db, s, a.signingKey, a.now) && a.ttl > 0 {
      VacatedFrame(db, s);
      var vacated := Vacated(db, s);
      var closed := if Driven(db, s) then CloseControl(vacated, s, Expired) else vacated;
      if Driven(db, s) { SavedRun(vacated, s, vacated.controls[s].(status := Expired), r); }
      SavedRun(closed, s, NewControl(db, s, a.signingKey, a.now, a.ttl), r);
      NewAnchor(db, s, a.signingKey, a.now, a.ttl);
      AppendTwice(db.runs[r], Once(BrowserControl, ClosesAt(db, a, r)), Once(BrowserControl, BeginsAt(db, a, r)));
      AppendStatus(db.runs[r], Once(BrowserControl, ClosesAt(db, a, r)), status);
    } else {
      assert !ClosesAt(db, a, r) && !BeginsAt(db, a, r);
      assert Once(BrowserControl, false) + Once(BrowserControl, false) == [];
      if MayTake(db, a.actor, s, a.refused, a.now) { VacatedFrame(db, s); }
    }
  }

  lemma NotOnce()
    ensures forall k :: Once(k, false) == []
  {
  }

  lemma NewAnchor(db: Db, s: SessionId, signingKey: Key, now: int, ttl: int)
    requires s in db.sandboxes
    ensures NewControl(db, s, signingKey, now, ttl).anchor == db.sandboxes[s].holder
  {
  }

  lemma CloseMovesExactly(db: Db, a: Action, r: RunId)
    requires (a.PeekBrowser? || a.EndBrowser?) && r in db.runs
    ensures r in Next(db, a).runs
    ensures Next(db, a).runs[r] == Append(db.runs[r], Once(BrowserControl, ClosesAt(db, a, r)), db.runs[r].status)
    ensures !BeginsAt(db, a, r)
  {
    hide Append, SaveControl, Fits, Live, Once;
    var s := a.session;
    EmptyAppend(db.runs[r]);
    NotOnce();
    if Driven(db, s) {
      SavedRun(db, s, db.controls[s].(status := Expired), r);
      SavedRun(db, s, db.controls[s].(status := Ended), r);
    }
  }

  lemma BrowserMovesExactly(db: Db, a: Action, r: RunId)
    requires AboutBrowser(a) && r in db.runs
    ensures MovesExactly(db, Next(db, a), a, r)
  {
    hide MovesLog, Next, Append, ClosesAt, BeginsAt, RunAfter, Once;
    BrowserTable(db, a, r);
    LogMoves(db, a, r, Once(BrowserControl, ClosesAt(db, a, r)) + Once(BrowserControl, BeginsAt(db, a, r)), db.runs[r].status);
    if a.TakeBrowser? {
      TakeMovesExactly(db, a, r);
    } else {
      CloseMovesExactly(db, a, r);
      NotOnce();
      assert Once(BrowserControl, ClosesAt(db, a, r)) + [] == Once(BrowserControl, ClosesAt(db, a, r));
    }
  }

  // ---- the theorem ---------------------------------------------------------------------------------------------------------------

  /** The steps that leave every run alone. */
  lemma QuietSteps(db: Db, a: Action, r: RunId)
    requires a.CreateSession? || a.PostMessage? || a.Look? || a.TerminalCallback? || AboutLease(a)
    requires r in db.runs
    ensures r in Next(db, a).runs && Next(db, a).runs[r] == db.runs[r]
  {
    if AboutLease(a) {
      NextIsBeside(db, a);
      hide Next, Beside;
      BesideOnlyLease(db, a);
    } else {
      hide Create, Post, LookAt;
      match a
      case CreateSession(s, actor) => CreateSameRuns(db, s, actor);
      case Look(w, q) => LookSameRuns(db, w, q);
      case PostMessage(q) => PostLeaves(db, q, r);
      case TerminalCallback(q, status) => OtherRunStays(db, r);
    }
  }

  /** A step on one run leaves the others alone. */
  lemma OtherRunsStay(db: Db, a: Action, r: RunId)
    requires OnRun(a) && a.run != r && r in db.runs
    ensures r in Next(db, a).runs && Next(db, a).runs[r] == db.runs[r]
  {
    OtherRunStays(db, r);
    if AboutTools(a) {
      NextIsBeside(db, a);
      hide Next, Beside, ToolStep, WithRun;
      ToolSteps(db, a);
    } else if a.ConfirmCancellation? || a.CommitResult? {
      OthersOfCommit(db, a, r);
    } else {
      hide WithRun, Append, UsedRun, Ledger.Apply, Artifacts.Submit, Artifacts.Reject;
    }
  }

  lemma OthersOfCommit(db: Db, a: Action, r: RunId)
    requires (a.ConfirmCancellation? || a.CommitResult?) && a.run != r && r in db.runs
    ensures r in Next(db, a).runs && Next(db, a).runs[r] == db.runs[r]
  {
    hide WithRun, Append, Release, SuccessCommits, SucceededRun;
    OtherRunStays(db, r);
    var q := a.run;
    if Is(db, q, CancelRequested) {
      OtherRunStays(WithRun(db, q, Append(db.runs[q], [RunCancelled, TurnCancelled], Cancelled)), r);
    } else if a.CommitResult? && SuccessCommits(db, q, a.result) {
      SuccessIs(db, q, a.result);
      OtherSucceeds(db, q, a.result, r);
    }
  }

  /** In every reachable state every transaction does to every turn exactly what `RunAfter` says: its status moves, its log
      grows and its rows change for these reasons and no others, and whenever the reason is there they do. */
  lemma EveryTurnMovesExactly(db: Db, a: Action, r: RunId)
    requires Reachable(db) && r in db.runs
    ensures r in Next(db, a).runs && Next(db, a).runs[r] == RunAfter(db, a, r)
  {
    hide Inv, Next, RunAfter, Reachable, Idle, CallsPermitted;
    ReachableSound(db);
    if a.ClaimRun? || a.RequeueRun? {
      ClaimMovesExactly(db, a, r);
    } else if AboutBrowser(a) {
      BrowserMovesExactly(db, a, r);
    } else if OnRun(a) && a.run == r {
      OnRunMovesExactly(db, a, r);
    } else {
      IdleUnlessAsked(db, a, r);
      IdleStays(db, a, r);
      if OnRun(a) { OtherRunsStay(db, a, r); } else { QuietSteps(db, a, r); }
    }
  }

  lemma OnRunMovesExactly(db: Db, a: Action, r: RunId)
    requires Reachable(db) && Inv(db) && r in db.runs && OnRun(a) && a.run == r
    ensures MovesExactly(db, Next(db, a), a, r)
  {
    hide Inv, MovesExactly, Reachable, CallsPermitted;
    if AboutTools(a) {
      PermittedCalls(db, r);
      ToolMovesExactly(db, a, r);
    } else if a.ConfirmCancellation? || a.CommitResult? {
      CommitMovesExactly(db, a, r);
    } else if a.UseBudget? {
      BudgetMovesExactly(db, a, r);
    } else if a.SubmitArtifact? || a.RejectArtifact? {
      ShelfMovesExactly(db, a, r);
    } else {
      NeverWaiting(db, r);
      EndingMovesExactly(db, a, r);
    }
  }

  lemma NeverWaiting(db: Db, r: RunId)
    requires Inv(db) && r in db.runs
    ensures !db.runs[r].status.WaitingInput? && !db.runs[r].status.WaitingDependency?
  {
    hide RunPlaced, SessionSound, SightSound, LogSound, Ledger.Sound, Artifacts.Sound;
    assert RunSound(db.runs[r]);
  }

  lemma PermittedCalls(db: Db, r: RunId)
    requires Reachable(db) && r in db.runs
    ensures CallsPermitted(db.runs[r])
  {
    TurnEnd.ReachableAnchored(db);
    hide Reachable, CallsPermitted, TurnEnd.WasClaimed;
    assert TurnEnd.RunTracked(db.runs[r]);
  }
}
