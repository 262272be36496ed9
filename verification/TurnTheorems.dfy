/** What the turn protocol guarantees in every state that some interleaving of its transactions reaches. */
module TurnTheorems {
  import opened Wrappers
  import opened Runs
  import opened TurnProtocol
  import opened TurnInvariant
  import Artifacts
  import ArtifactTheorems
  import Ledger
  import LedgerTheorems

  ghost predicate Reachable(db: Db) {
    exists actions :: db == Play(EMPTY_DB, actions)
  }

  lemma ReachableSound(db: Db)
    requires Reachable(db)
    ensures Inv(db)
  {
    hide Inv;
    var actions :| db == Play(EMPTY_DB, actions);
    TurnInvariant.EveryRunKeeps(actions);
  }

  // ---- who holds a session --------------------------------------------------------------------------

  /** A turn that has not ended holds its session; hence no session has two of them. */
  lemma LiveTurnHoldsSession(db: Db, r: RunId, other: RunId)
    requires Reachable(db) && r in db.runs && !Terminal(db.runs[r].status)
    ensures Holds(db, db.runs[r].session, r)
    ensures other in db.runs && other != r && db.runs[other].session == db.runs[r].session
            ==> Terminal(db.runs[other].status)
  {
    hide Reachable;
    ReachableSound(db);
    hide RunSound, SessionSound, SightSound;
    assert RunPlaced(db, r);
    if other in db.runs { assert RunPlaced(db, other); }
  }

  /** A callback for a turn that has ended frees that turn's session at most, and never from under a
      live turn, however late or often it comes. */
  lemma LateCallbackFreesNoLiveTurn(db: Db, r: RunId, status: Status, live: RunId)
    requires Reachable(db) && live in db.runs && !Terminal(db.runs[live].status)
    ensures var db' := Next(db, TerminalCallback(r, status));
            && Holds(db', db.runs[live].session, live)
            && db'.runs == db.runs
            && Next(db', TerminalCallback(r, status)) == db'
            && forall s :: s in db.sessions && !Holds(db, s, r) ==> s in db'.sessions && db'.sessions[s] == db.sessions[s]
  {
    LiveTurnHoldsSession(db, live, r);
    hide Next, Reachable, Holds;
    NextCallback(db, r, status);
    NextCallback(ReleaseIfTerminal(db, r, status), r, status);
    CallbackReleases(db, r, status, live);
  }

  lemma CallbackReleases(db: Db, r: RunId, status: Status, live: RunId)
    requires live in db.runs && !Terminal(db.runs[live].status) && Holds(db, db.runs[live].session, live)
    ensures var db' := ReleaseIfTerminal(db, r, status);
            && Holds(db', db.runs[live].session, live) && db'.runs == db.runs
            && ReleaseIfTerminal(db', r, status) == db'
            && forall s :: s in db.sessions && !Holds(db, s, r) ==> s in db'.sessions && db'.sessions[s] == db.sessions[s]
  {
  }

  lemma NextCallback(db: Db, r: RunId, status: Status)
    ensures Next(db, TerminalCallback(r, status)) == ReleaseIfTerminal(db, r, status)
  {
    hide ReleaseIfTerminal;
  }

  /** The executor's two commits are never refused because another run holds the session. */
  lemma CommitsFindTheirSession(db: Db, r: RunId, result: TurnResult)
    requires Reachable(db) && r in db.runs
    ensures Is(db, r, CancelRequested) ==> Is(Next(db, ConfirmCancellation(r)), r, Cancelled)
    ensures Is(db, r, Running) && result.accepted && ShelfOnSuccess(db.runs[r], result, CurrentFences(db, r)).Some?
            ==> Is(Next(db, CommitResult(r, result)), r, Succeeded)
  {
    hide Inv, Reachable, CommitCancellation, SucceededRun, ShelfOnSuccess;
    ReachableSound(db);
    if Is(db, r, CancelRequested) {
      CommitCancellationKeeps(db, r);
    } else if Is(db, r, Running) && result.accepted && ShelfOnSuccess(db.runs[r], result, CurrentFences(db, r)).Some? {
      LiveTurnHoldsSession(db, r, r);
      SuccessRows(db, r, result);
    }
  }

  /** A session whose turns have all ended accepts the next message: nothing left behind by a crash,
      a lost callback or a cancellation blocks it. */
  lemma EndedTurnsNeverBlock(db: Db, q: PostRequest)
    requires Reachable(db) && Visible(db, q.session, q.actor)
    requires forall r :: r in db.runs && db.runs[r].session == q.session ==> Terminal(db.runs[r].status)
    ensures PostReplyFor(db, q) != Refused(SessionBusy)
    ensures PostReplyFor(db, q).Posted? ==> Holds(Post(db, q), q.session, q.run)
  {
    hide Reachable;
    ReachableSound(db);
    hide RunSound, RunPlaced, SightSound, MessagePlaced;
    assert SessionSound(db, q.session);
  }

  /** A live turn is never stuck: its owner can end it, whatever it is waiting for and whatever became of its
      worker, and the session then takes the next message. */
  lemma OwnerCanAlwaysEnd(db: Db, r: RunId, q: PostRequest)
    requires Reachable(db) && r in db.runs && !Terminal(db.runs[r].status)
    requires q.session == db.runs[r].session && q.actor == db.runs[r].owner
    ensures var asked := Next(db, CancelRun(db.runs[r].owner, r));
            var ended := Next(asked, CancelRun(db.runs[r].owner, r));
            && (if db.runs[r].status.Running? then Is(asked, r, CancelRequested) else Is(asked, r, Cancelled))
            && Is(ended, r, Cancelled)
            && Visible(ended, q.session, q.actor) && PostReplyFor(ended, q) != Refused(SessionBusy)
  {
    hide Reachable, PostReplyFor, Next, Cancel;
    var owner := db.runs[r].owner;
    var asked := Next(db, CancelRun(owner, r));
    var ended := Next(asked, CancelRun(owner, r));
    ReachableNext(db, CancelRun(owner, r));
    ReachableNext(asked, CancelRun(owner, r));
    NextCancel(db, owner, r);
    NextCancel(asked, owner, r);
    EndedByCancel(db, r);
    HomeVisible(db, r);
    forall x | x in ended.runs && ended.runs[x].session == q.session ensures Terminal(ended.runs[x].status) {
      if x != r { LiveTurnHoldsSession(db, r, x); }
    }
    EndedTurnsNeverBlock(ended, q);
  }

  lemma HomeVisible(db: Db, r: RunId)
    requires Reachable(db) && r in db.runs
    ensures Visible(db, db.runs[r].session, db.runs[r].owner)
  {
    hide Reachable;
    ReachableSound(db);
    hide RunSound, SessionSound, SightSound;
    assert RunPlaced(db, r);
  }

  lemma AppendIdentity(run: Run)
    ensures forall kinds, to :: Append(run, kinds, to).owner == run.owner && Append(run, kinds, to).session == run.session
                                && Append(run, kinds, to).status == to
  {
  }

  /** Two cancellations in a row by the owner: the other runs and all sessions are as before. */
  lemma EndedByCancel(db: Db, r: RunId)
    requires r in db.runs && !Terminal(db.runs[r].status)
    ensures var owner := db.runs[r].owner;
            var asked := Cancel(db, owner, r); var ended := Cancel(asked, owner, r);
            && (if db.runs[r].status.Running? then Is(asked, r, CancelRequested) else Is(asked, r, Cancelled))
            && Is(ended, r, Cancelled) && ended.sessions == db.sessions
            && ended.runs.Keys == db.runs.Keys
            && (forall x :: x in db.runs && x != r ==> ended.runs[x] == db.runs[x])
            && ended.runs[r].session == db.runs[r].session
  {
    hide Append;
    var owner := db.runs[r].owner;
    AppendIdentity(db.runs[r]);
    var asked := Cancel(db, owner, r);
    AppendIdentity(asked.runs[r]);
  }

  lemma NextCancel(db: Db, actor: OwnerId, r: RunId)
    ensures Next(db, CancelRun(actor, r)) == Cancel(db, actor, r)
  {
  }

  // ---- the transcript ---------------------------------------------------------------------------------

  /** Messages are numbered without gaps; an answer directly follows the message it answers, and no
      other two messages belong to one turn. */
  ghost predicate TranscriptOrdered(messages: seq<Message>) {
    && (forall i :: 0 <= i < |messages| ==> messages[i].sequence == i + 1)
    && (forall i :: 0 <= i < |messages| && messages[i].role.Assistant? ==>
          i > 0 && messages[i - 1].role.User? && messages[i - 1].run == messages[i].run)
    && (forall i, j :: 0 <= i < j < |messages| && messages[i].run == messages[j].run ==>
          j == i + 1 && messages[i].role.User? && messages[j].role.Assistant?)
  }

  lemma TranscriptsOrdered(db: Db, s: SessionId)
    requires Reachable(db) && s in db.sessions
    ensures TranscriptOrdered(db.sessions[s].messages)
    ensures db.sessions[s].nextMessage == |db.sessions[s].messages| + 1
  {
    ReachableSound(db);
    assert SessionSound(db, s);
    hide Inv, RunPlaced, Reachable;
    var messages := db.sessions[s].messages;
    forall i | 0 <= i < |messages| ensures messages[i].sequence == i + 1 {
      assert MessagePlaced(db, s, i);
    }
    forall i | 0 <= i < |messages| && messages[i].role.Assistant?
      ensures i > 0 && messages[i - 1].role.User? && messages[i - 1].run == messages[i].run
    {
      assert MessagePlaced(db, s, i);
      QuestionBefore(db, s, i);
    }
    forall i, j | 0 <= i < j < |messages| && messages[i].run == messages[j].run
      ensures j == i + 1 && messages[i].role.User? && messages[j].role.Assistant?
    {
      assert MessagePlaced(db, s, i) && MessagePlaced(db, s, j);
    }
  }

  lemma QuestionBefore(db: Db, s: SessionId, i: nat)
    requires Inv(db) && s in db.sessions && i < |db.sessions[s].messages|
    requires db.sessions[s].messages[i].role.Assistant? && MessagePlaced(db, s, i)
    ensures i > 0 && var m := db.sessions[s].messages[i - 1]; m.role.User? && m.run == db.sessions[s].messages[i].run
  {
    hide RunSound, SessionSound, SightSound;
    assert RunPlaced(db, db.sessions[s].messages[i].run);
  }

  predicate Answers(m: Message, r: RunId) {
    m.role.Assistant? && m.run == r
  }

  /** A turn has an assistant message exactly when it succeeded, and it cites evidence exactly when
      the turn has its one claim set. */
  lemma AnsweredExactlyWhenSucceeded(db: Db, r: RunId)
    requires Reachable(db) && r in db.runs
    ensures db.runs[r].session in db.sessions
    ensures var messages := db.sessions[db.runs[r].session].messages;
            && (db.runs[r].status.Succeeded? <==> exists i :: 0 <= i < |messages| && Answers(messages[i], r))
            && forall i :: 0 <= i < |messages| && Answers(messages[i], r) ==>
                 i == db.runs[r].userMessage && (messages[i].cited <==> db.runs[r].claimSets == 1)
  {
    hide Reachable, Inv;
    ReachableSound(db);
    HomeSound(db, r);
    var s := db.runs[r].session;
    var messages := db.sessions[s].messages;
    if db.runs[r].status.Succeeded? {
      assert Answers(messages[db.runs[r].userMessage], r);
    }
    forall i | 0 <= i < |messages| && Answers(messages[i], r)
      ensures db.runs[r].status.Succeeded? && i == db.runs[r].userMessage
    {
      assert MessagePlaced(db, s, i);
    }
  }

  lemma HomeSound(db: Db, r: RunId)
    requires Inv(db) && r in db.runs
    ensures RunPlaced(db, r) && db.runs[r].session in db.sessions && SessionSound(db, db.runs[r].session)
  {
    hide RunSound, SightSound, SessionSound;
    assert RunPlaced(db, r);
  }

  // ---- logs, budgets and artifacts of every turn --------------------------------------------------------

  /** Every log holds the numbers 1 to event counter minus one, and the n-th budget event in it reports n
      reservations, as many in all as the ledger holds, which keeps its limits. */
  lemma LogsAndBudgetsAgree(db: Db, r: RunId)
    requires Reachable(db) && r in db.runs
    ensures var run := db.runs[r];
            && Dense(run.events, run.nextEvent)
            && BudgetReported(run.events)
            && BudgetEvents(run.events) == |run.ledger.modelCalls| + |run.ledger.toolCalls|
            && |run.ledger.modelCalls| <= run.ledger.policy.maxModelCalls
            && |run.ledger.toolCalls| <= run.ledger.policy.maxToolCalls
  {
    hide Reachable;
    ReachableSound(db);
    hide RunPlaced, SessionSound, SightSound, LogFits, Artifacts.Sound, Artifacts.NoneStaged, BudgetReported, BudgetEvents,
         Dense, Ledger.IsTotal, Ledger.FieldsFit, Ledger.WithSignature;
    assert RunSound(db.runs[r]);
  }

  /** Every turn's artifacts number at most 8 and total at most 50 MiB, although the executor stages candidates with
      no budget check; a candidate is committed exactly when it has its one artifact. */
  lemma ArtifactLimitsHold(db: Db, r: RunId)
    requires Reachable(db) && r in db.runs
    ensures var shelf := db.runs[r].shelf;
            && |shelf.artifacts| <= Artifacts.MAX_PER_TURN
            && Artifacts.ArtifactBytes(shelf.artifacts) <= Artifacts.MAX_TOTAL_BYTES
            && (forall i, j :: 0 <= i < j < |shelf.artifacts| ==> shelf.artifacts[i].candidate != shelf.artifacts[j].candidate)
            && forall c :: c in shelf.candidates ==> (Artifacts.IsCommitted(c) <==> Artifacts.ArtifactOf(c) in shelf.artifacts)
  {
    hide Reachable;
    ReachableSound(db);
    hide RunPlaced, SessionSound, SightSound, LogSound, Ledger.Sound, Artifacts.NoneStaged;
    assert RunSound(db.runs[r]);
    ArtifactTheorems.CountMonotone(db.runs[r].shelf.candidates, Artifacts.IsCommitted, Artifacts.IsReviewed);
  }

  // ---- success and cancellation exclude each other ------------------------------------------------------

  predicate Logged(events: seq<Event>, k: Kind) {
    exists i :: 0 <= i < |events| && events[i].kind == k
  }

  /** The log records the outcome the status records, once, and no other outcome. */
  ghost predicate OneOutcomeLogged(events: seq<Event>, status: Status) {
    && (Logged(events, TurnSucceeded) <==> status.Succeeded?)
    && (Logged(events, RunFailed) <==> status.Failed?)
    && (Logged(events, RunCancelled) <==> status.Cancelled?)
    && (Logged(events, TurnCancelled) ==> status.Cancelled?)
    && forall i, j :: 0 <= i < j < |events| && ClosesStream(events[i].kind) && ClosesStream(events[j].kind) ==>
         j == i + 1 && events[i].kind.RunCancelled? && events[j].kind.TurnCancelled?
  }

  lemma LogDecidesOutcome(events: seq<Event>, status: Status)
    requires LogFits(events, status)
    ensures OneOutcomeLogged(events, status)
  {
    if Terminal(status) {
      var k :| EndsAt(events, status, k);
      assert Logged(events, ClosingKind(status).value);
    }
  }

  lemma OneOutcome(db: Db, r: RunId)
    requires Reachable(db) && r in db.runs
    ensures OneOutcomeLogged(db.runs[r].events, db.runs[r].status)
  {
    hide Reachable;
    ReachableSound(db);
    hide RunPlaced, SessionSound, SightSound, RowsSound, BudgetReported, BudgetEvents, LogFits, OneOutcomeLogged;
    assert RunSound(db.runs[r]);
    LogDecidesOutcome(db.runs[r].events, db.runs[r].status);
  }

  /** A turn that did not succeed has no answer, no claim set, no artifact and nothing staged. */
  lemma NothingWithoutSuccess(db: Db, r: RunId)
    requires Reachable(db) && r in db.runs && !db.runs[r].status.Succeeded?
    ensures var run := db.runs[r];
            && run.claimSets == 0 && run.shelf.artifacts == []
            && (forall c :: c in run.shelf.candidates ==> !c.stage.Staged? && !c.stage.Committed?)
            && !Logged(run.events, TurnSucceeded)
            && run.session in db.sessions
            && forall m :: m in db.sessions[run.session].messages ==> !Answers(m, r)
  {
    ReachableSound(db);
    assert !Logged(db.runs[r].events, TurnSucceeded) by { OneOutcome(db, r); }
    AnsweredExactlyWhenSucceeded(db, r);
    hide RunPlaced, SessionSound, SightSound, LogSound, Ledger.Sound;
    var run := db.runs[r];
    assert RunSound(run);
    ArtifactTheorems.NoArtifactNoCommit(run.shelf);
  }

  /** The answer, the claim set, the artifacts and the success event appear together, in the one
      transaction that makes the turn SUCCEEDED, and only the executor's result commit is it. */
  lemma ResultsAppearAtSuccess(db: Db, a: Action, r: RunId)
    requires Reachable(db) && r in db.runs
    ensures r in Next(db, a).runs
    ensures var run, run' := db.runs[r], Next(db, a).runs[r];
            if run.status.Succeeded? || !run'.status.Succeeded? then
              run'.claimSets == run.claimSets && run'.shelf.artifacts == run.shelf.artifacts
            else
              && run.status.Running? && a.CommitResult? && a.run == r && a.result.accepted
              && run'.claimSets == (if a.result.cited then 1 else 0)
              && run'.events == run.events + Numbered(run.nextEvent, SuccessKinds(|Artifacts.Requested(a.result.reports)|,
                                                                                  |run'.shelf.artifacts|))
              && !Holds(Next(db, a), run.session, r)
  {
    hide Inv, Reachable, SuccessCommits, Next, Succeed, Artifacts.Requested;
    ReachableSound(db);
    NextEvolves(db, a);
    ReachableNext(db, a);
    var run := db.runs[r];
    var run' := Next(db, a).runs[r];
    if !run.status.Succeeded? {
      NothingWithoutSuccess(db, r);
      if !run'.status.Succeeded? {
        NothingWithoutSuccess(Next(db, a), r);
      } else {
        OnlyCommitSucceeds(db, a, r);
        SuccessWrites(db, r, a.result);
      }
    }
  }

  lemma ReachableNext(db: Db, a: Action)
    requires Reachable(db)
    ensures Reachable(Next(db, a))
  {
    var actions :| db == Play(EMPTY_DB, actions);
    var longer := actions + [a];
    assert longer[..|longer| - 1] == actions;
    assert Next(db, a) == Play(EMPTY_DB, longer);
  }

  lemma {:induction false} ReachablePlay(db: Db, actions: seq<Action>)
    requires Reachable(db)
    ensures Reachable(Play(db, actions))
  {
    hide Reachable, Next;
    if actions != [] {
      ReachablePlay(db, actions[..|actions| - 1]);
      ReachableNext(Play(db, actions[..|actions| - 1]), actions[|actions| - 1]);
    }
  }

  lemma {:induction false} PlaySplits(db: Db, a: seq<Action>, b: seq<Action>)
    ensures Play(db, a + b) == Play(Play(db, a), b)
  {
    hide Next;
    if b == [] {
      assert a + b == a;
    } else {
      var n := |b| - 1;
      PlaySplits(db, a, b[..n]);
      assert (a + b)[..|a + b| - 1] == a + b[..n];
    }
  }

  lemma OnlyCommitSucceeds(db: Db, a: Action, r: RunId)
    requires r in db.runs && r in Next(db, a).runs
    requires !db.runs[r].status.Succeeded? && Next(db, a).runs[r].status.Succeeded?
    ensures a.CommitResult? && a.run == r && a.result.accepted && Is(db, r, Running)
    ensures SuccessCommits(db, r, a.result) && Next(db, a) == Succeed(db, r, a.result)
  {
    if a.CommitResult? {
      hide SuccessCommits, Succeed;
      CommitMoves(db, a.run, a.result, r);
      SuccessIs(db, r, a.result);
    } else {
      hide Next;
      OthersNeverSucceed(db, a, r);
    }
  }

  lemma NextIsBeside(db: Db, a: Action)
    requires AboutTools(a) || AboutLease(a) || AboutBrowser(a)
    ensures Next(db, a) == Beside(db, a)
  {
    hide Beside;
  }

  lemma OthersNeverSucceed(db: Db, a: Action, r: RunId)
    requires r in db.runs && !db.runs[r].status.Succeeded? && !a.CommitResult?
    ensures r in Next(db, a).runs && !Next(db, a).runs[r].status.Succeeded?
  {
    hide Next, Beside;
    if AboutTools(a) || AboutLease(a) || AboutBrowser(a) {
      NextIsBeside(db, a);
      BesideStatus(db, a, r);
    } else {
      TurnStepsNeverSucceed(db, a, r);
    }
  }

  lemma TurnStepsNeverSucceed(db: Db, a: Action, r: RunId)
    requires r in db.runs && !db.runs[r].status.Succeeded?
    requires !a.CommitResult? && !AboutTools(a) && !AboutLease(a) && !AboutBrowser(a)
    ensures r in Next(db, a).runs && !Next(db, a).runs[r].status.Succeeded?
  {
    hide Create, LookAt, Post, Cancel, Usage, Submit, Reject, ClaimFrom, Claim, FailAttempt, Reclaim, ConfirmCancel,
         ReleaseIfTerminal, Beside, Succeed;
    match a
    case CreateSession(s, actor) => CreateSameRuns(db, s, actor);
    case Look(w, q) => LookSameRuns(db, w, q);
    case PostMessage(q) => PostLeaves(db, q, r);
    case ClaimRun(w) => ClaimMoves(db, w, r);
    case RequeueRun(w) => ClaimMoves(db, w, r);
    case CancelRun(actor, q) => CancelMoves(db, actor, q, r);
    case ConfirmCancellation(q) => ConfirmMoves(db, q, r);
    case UseBudget(q, op) => UsageMoves(db, q, op, r);
    case SubmitArtifact(q, toolCall, fact, fence) => ShelfMoves(db, q, toolCall, fact, fence, "", r);
    case RejectArtifact(q, toolCall, fact, code) => ShelfMoves(db, q, toolCall, fact, Artifacts.Fence(0, 0), code, r);
    case AttemptFails(q, retry) => EndingMoves(db, q, retry, Queued, r);
    case ReclaimRun(q) => EndingMoves(db, q, false, Queued, r);
    case TerminalCallback(q, status) => EndingMoves(db, q, false, status, r);
  }

  lemma OtherRunStays(db: Db, r: RunId)
    requires r in db.runs
    ensures forall q, run' :: q in db.runs ==>
              r in WithRun(db, q, run').runs && WithRun(db, q, run').runs[r] == if q == r then run' else db.runs[r]
    ensures forall s, q :: Release(db, s, q).runs == db.runs
  {
  }

  lemma PostLeaves(db: Db, q: PostRequest, r: RunId)
    requires r in db.runs
    ensures r in Post(db, q).runs && Post(db, q).runs[r] == db.runs[r]
  {
    PostIsNew(db, q);
    hide PostReplyFor, NewRun;
  }

  lemma ClaimMoves(db: Db, w: WorkerId, r: RunId)
    requires r in db.runs && !db.runs[r].status.Succeeded?
    ensures r in Claim(db, w).runs && !Claim(db, w).runs[r].status.Succeeded?
    ensures var db' := ClaimFrom(db, w, RetryWait, Queued, Requeued); r in db'.runs && !db'.runs[r].status.Succeeded?
  {
    hide ClaimCommits;
    assert forall sight, expected :: ClaimCommits(db, sight, expected) ==> sight.run in db.runs by {
      hide Numbered;
      forall sight, expected | ClaimCommits(db, sight, expected) ensures sight.run in db.runs { CommitIs(db, sight, expected); }
    }
  }

  lemma CommitIs(db: Db, sight: Sight, expected: Status)
    requires ClaimCommits(db, sight, expected)
    ensures Is(db, sight.run, expected)
  {
  }

  lemma CancelMoves(db: Db, actor: OwnerId, q: RunId, r: RunId)
    requires r in db.runs && !db.runs[r].status.Succeeded?
    ensures r in Cancel(db, actor, q).runs && !Cancel(db, actor, q).runs[r].status.Succeeded?
  {
    hide Append, WithRun;
    OtherRunStays(db, r);
    AppendIdentity(db.runs[r]);
  }

  lemma EndingMoves(db: Db, q: RunId, retry: bool, status: Status, r: RunId)
    requires r in db.runs && !db.runs[r].status.Succeeded?
    ensures r in FailAttempt(db, q, retry).runs && !FailAttempt(db, q, retry).runs[r].status.Succeeded?
    ensures r in Reclaim(db, q).runs && !Reclaim(db, q).runs[r].status.Succeeded?
    ensures r in ReleaseIfTerminal(db, q, status).runs && ReleaseIfTerminal(db, q, status).runs[r] == db.runs[r]
  {
    hide Append, WithRun, Release;
    OtherRunStays(db, r);
    AppendIdentity(db.runs[r]);
  }

  lemma CancellationMoves(db: Db, q: RunId, r: RunId)
    requires Is(db, q, CancelRequested) && r in db.runs && !db.runs[r].status.Succeeded?
    ensures r in CommitCancellation(db, q).runs && !CommitCancellation(db, q).runs[r].status.Succeeded?
  {
    hide Append, WithRun, Release;
    OtherRunStays(db, r);
    AppendIdentity(db.runs[r]);
    var cancelled := WithRun(db, q, Append(db.runs[q], [RunCancelled, TurnCancelled], Cancelled));
    OtherRunStays(cancelled, r);
  }

  lemma ConfirmMoves(db: Db, q: RunId, r: RunId)
    requires r in db.runs && !db.runs[r].status.Succeeded?
    ensures r in ConfirmCancel(db, q).runs && !ConfirmCancel(db, q).runs[r].status.Succeeded?
  {
    hide CommitCancellation, Release;
    OtherRunStays(db, r);
    if Is(db, q, CancelRequested) { CancellationMoves(db, q, r); }
  }

  lemma CommitMoves(db: Db, q: RunId, result: TurnResult, r: RunId)
    requires r in db.runs && r in Succeed(db, q, result).runs
    requires !db.runs[r].status.Succeeded? && Succeed(db, q, result).runs[r].status.Succeeded?
    ensures q == r && SuccessCommits(db, r, result)
  {
    hide CommitCancellation, SuccessCommits, SucceededRun;
    if Is(db, q, CancelRequested) {
      CancellationMoves(db, q, r);
    } else if SuccessCommits(db, q, result) {
      assert Is(db, q, Running) by { SuccessIs(db, q, result); }
      if q != r { OtherSucceeds(db, q, result, r); }
    }
  }

  lemma SuccessIs(db: Db, q: RunId, result: TurnResult)
    requires SuccessCommits(db, q, result)
    ensures Is(db, q, Running) && result.accepted
  {
  }

  lemma OtherSucceeds(db: Db, q: RunId, result: TurnResult, r: RunId)
    requires SuccessCommits(db, q, result) && r in db.runs && q != r
    ensures r in Succeed(db, q, result).runs && Succeed(db, q, result).runs[r] == db.runs[r]
  {
    hide SucceededRun, ShelfOnSuccess;
  }

  lemma UsageMoves(db: Db, q: RunId, op: Ledger.Op, r: RunId)
    requires r in db.runs && !db.runs[r].status.Succeeded?
    ensures r in Usage(db, q, op).runs && !Usage(db, q, op).runs[r].status.Succeeded?
  {
    hide Numbered, Ledger.Apply;
  }

  lemma ShelfMoves(db: Db, q: RunId, toolCall: string, fact: Artifacts.Fact, fence: Artifacts.Fence, code: string, r: RunId)
    requires r in db.runs && !db.runs[r].status.Succeeded?
    ensures r in Submit(db, q, toolCall, fact, fence).runs && !Submit(db, q, toolCall, fact, fence).runs[r].status.Succeeded?
    ensures r in Reject(db, q, toolCall, fact, code).runs && !Reject(db, q, toolCall, fact, code).runs[r].status.Succeeded?
  {
    hide Numbered, Artifacts.Submit, Artifacts.Reject;
  }

  /** The steps beside a turn never move its status. */
  lemma BesideStatus(db: Db, a: Action, r: RunId)
    requires r in db.runs
    ensures r in Beside(db, a).runs && Beside(db, a).runs[r].status == db.runs[r].status
  {
    hide Beside, WithRun, ToolStep, ToolShape;
    if AboutTools(a) {
      ToolSteps(db, a);
      OtherRunStays(db, r);
      if a.run == r { ShapeStatus(db.runs[r], ToolStep(db.runs[r], a)); }
    } else if AboutBrowser(a) {
      BrowserDrives(db, a);
      assert OnlyDriven(db.runs[r], Beside(db, a).runs[r]);
    } else {
      BesideOnlyLease(db, a);
    }
  }

  lemma ShapeStatus(run: Run, run': Run)
    requires ToolShape(run, run')
    ensures run'.status == run.status
  {
    hide Numbered, CallsPermitted;
  }

  lemma SuccessWrites(db: Db, r: RunId, result: TurnResult)
    requires Inv(db) && SuccessCommits(db, r, result)
    ensures var run, run' := db.runs[r], Succeed(db, r, result).runs[r];
            && run'.claimSets == run.claimSets + (if result.cited then 1 else 0)
            && run'.events == run.events + Numbered(run.nextEvent, SuccessKinds(|Artifacts.Requested(result.reports)|,
                                                                                |run'.shelf.artifacts|))
            && !Holds(Succeed(db, r, result), run.session, r)
  {
    var run := db.runs[r];
    assert Artifacts.Sound(run.shelf) by { assert RunSound(run); }
    var requested := Artifacts.Requested(result.reports);
    ArtifactTheorems.StageAllKeeps(run.shelf, requested);
    ArtifactTheorems.PublishedExactly(
      run.shelf.(candidates := Artifacts.StageAll(run.shelf.candidates, requested).value), CurrentFences(db, r));
    hide Inv, Artifacts.Sound, Artifacts.StageAll, Artifacts.Publish, Artifacts.Requested;
  }

  // ---- nothing is taken back ----------------------------------------------------------------------------

  /** The later version of a run: its log only grows, and once it has ended its status, its claim set and its
      shelf are final. */
  predicate Grown(run: Run, run': Run) {
    && run'.owner == run.owner && run'.session == run.session && run'.userMessage == run.userMessage
    && run.events <= run'.events
    && (Terminal(run.status) ==> run'.status == run.status && run'.claimSets == run.claimSets && run'.shelf == run.shelf)
  }

  /** Sessions keep their holder or are freed. */
  ghost predicate HoldersStay(db: Db, db': Db) {
    forall s :: s in db.sessions ==>
      s in db'.sessions && (db'.sessions[s].active == db.sessions[s].active || db'.sessions[s].active.None?)
  }

  ghost predicate SessionsGrow(db: Db, db': Db) {
    forall s :: s in db.sessions ==>
      s in db'.sessions && db'.sessions[s].owner == db.sessions[s].owner
      && db.sessions[s].messages <= db'.sessions[s].messages
  }

  ghost predicate RunsGrow(db: Db, db': Db) {
    forall r :: r in db.runs ==> r in db'.runs && Grown(db.runs[r], db'.runs[r])
  }

  ghost predicate Evolves(db: Db, db': Db) {
    && RunsGrow(db, db')
    && SessionsGrow(db, db')
    && forall k :: k in db.receipts ==> k in db'.receipts && db'.receipts[k] == db.receipts[k]
  }

  /** One transaction's effect on one run: it grows, its status moves along the status table and to RUNNING only with
      the event of a claim, the policy stays, and tool calls begin while it is RUNNING. */
  predicate Steps(run: Run, run': Run) {
    && Grown(run, run')
    && (run'.status == run.status || Allowed(run.status, run'.status))
    && (run'.status.Running? && !run.status.Running? ==> Logged(run'.events, RunStarted))
    && run'.ledger.policy == run.ledger.policy
    && (run'.effects.Keys == run.effects.Keys || run.status.Running?)
    && (CallsPermitted(run) ==> CallsPermitted(run'))
  }

  ghost predicate RunsStep(db: Db, db': Db) {
    forall r :: r in db.runs ==> r in db'.runs && Steps(db.runs[r], db'.runs[r])
  }

  lemma AppendSteps(run: Run, kinds: seq<Kind>, to: Status)
    requires to == run.status || Allowed(run.status, to)
    requires to.Running? ==> run.status.Running?
    ensures Steps(run, Append(run, kinds, to))
  {
  }

  lemma SuccessSteps(db: Db, r: RunId, result: TurnResult)
    requires SuccessCommits(db, r, result)
    ensures RunsStep(db, Succeed(db, r, result))
  {
    hide ShelfOnSuccess, SuccessKinds, Artifacts.Requested;
  }

  lemma ClaimSteps(db: Db, w: WorkerId, expected: Status, to: Status, kind: Kind)
    requires Allowed(expected, to) && (to.Running? ==> kind == RunStarted)
    ensures RunsStep(db, ClaimFrom(db, w, expected, to, kind))
  {
    if w in db.sights && ClaimCommits(db, db.sights[w], expected) {
      var sight := db.sights[w];
      assert Is(db, sight.run, expected);
      hide ClaimCommits;
      var run := db.runs[sight.run];
      var run' := run.(status := to, events := run.events + [Event(sight.nextEvent, kind)], nextEvent := sight.nextEvent + 1);
      assert run'.events[|run.events|].kind == kind;
      assert Steps(run, run');
      hide Steps;
      ChangeSteps(db, ClaimFrom(db, w, expected, to, kind), sight.run);
    } else {
      hide Steps, ClaimCommits;
      SameSteps(db, db);
    }
  }

  lemma UsageSteps(run: Run, op: Ledger.Op)
    ensures Steps(run, UsedRun(run, op))
  {
    assert Ledger.Apply(run.ledger, run.status, op).ledger.policy == run.ledger.policy by {
      LedgerTheorems.ApplyEvolves(run.ledger, run.status, op);
      hide Ledger.Apply;
    }
    hide Ledger.Apply, CallValid, ToolPermitted;
  }

  lemma SelfSteps(db: Db)
    ensures forall r :: r in db.runs ==> Steps(db.runs[r], db.runs[r])
  {
    hide Append, Steps;
    forall r | r in db.runs ensures Steps(db.runs[r], db.runs[r]) {
      EmptyAppend(db.runs[r]);
      AppendSteps(db.runs[r], [], db.runs[r].status);
    }
  }

  lemma ChangesStep(db: Db)
    ensures RunsStep(db, db)
    ensures forall r, run' :: r in db.runs && Steps(db.runs[r], run') ==> RunsStep(db, WithRun(db, r, run'))
    ensures forall s, r :: RunsStep(db, Release(db, s, r))
  {
    hide Steps, RunsStep;
    SelfSteps(db);
    forall r, run' | r in db.runs && Steps(db.runs[r], run') ensures RunsStep(db, WithRun(db, r, run')) {
      ChangeSteps(db, WithRun(db, r, run'), r);
    }
    forall s, r ensures RunsStep(db, Release(db, s, r)) {
      assert Release(db, s, r).runs == db.runs;
      hide Release;
      SameSteps(db, Release(db, s, r));
    }
    SameSteps(db, db);
  }

  lemma ChangeSteps(db: Db, db': Db, r: RunId)
    requires r in db.runs && r in db'.runs && db'.runs == db.runs[r := db'.runs[r]] && Steps(db.runs[r], db'.runs[r])
    ensures RunsStep(db, db')
  {
    hide Steps;
    SelfSteps(db);
  }

  lemma SameSteps(db: Db, db': Db)
    requires db'.runs == db.runs
    ensures RunsStep(db, db')
  {
    hide Steps;
    SelfSteps(db);
  }

  /** Every transaction moves every run along the status table and takes nothing from its log. */
  lemma NextSteps(db: Db, a: Action)
    ensures RunsStep(db, Next(db, a))
  {
    hide RunsStep, Create, LookAt, Post, Succeed, Cancel, Usage, Submit, Reject, ClaimFrom, Claim, FailAttempt, Reclaim,
         ConfirmCancel, ReleaseIfTerminal, Beside;
    match a
    case CreateSession(s, actor) => SameSteps(db, Create(db, s, actor)) by { CreateSameRuns(db, s, actor); }
    case Look(w, r) => SameSteps(db, LookAt(db, w, r)) by { LookSameRuns(db, w, r); }
    case PostMessage(q) => PostSteps(db, q);
    case CommitResult(r, result) => CommitSteps(db, r, result);
    case ConfirmCancellation(r) => CommitSteps(db, r, TurnResult([], false, false));
    case ClaimRun(w) => EnterSteps(db, w);
    case RequeueRun(w) => ClaimSteps(db, w, RetryWait, Queued, Requeued);
    case CancelRun(actor, r) => CancelRunSteps(db, actor, r);
    case AttemptFails(r, retry) => EndingSteps(db, r, retry, Queued);
    case ReclaimRun(r) => EndingSteps(db, r, false, Queued);
    case TerminalCallback(r, status) => EndingSteps(db, r, false, status);
    case UseBudget(r, op) => UseSteps(db, r, op);
    case SubmitArtifact(r, toolCall, fact, fence) => ShelfSteps(db, r, toolCall, fact, fence, "");
    case RejectArtifact(r, toolCall, fact, code) => ShelfSteps(db, r, toolCall, fact, Artifacts.Fence(0, 0), code);
    case _ => BesideSteps(db, a);
  }

  lemma CreateSameRuns(db: Db, s: SessionId, actor: OwnerId)
    ensures Create(db, s, actor).runs == db.runs
  {
  }

  lemma LookSameRuns(db: Db, w: WorkerId, r: RunId)
    ensures LookAt(db, w, r).runs == db.runs
  {
  }

  lemma EnterSteps(db: Db, w: WorkerId)
    ensures RunsStep(db, Claim(db, w))
  {
    hide ClaimFrom, Steps;
    ClaimSteps(db, w, Queued, Running, RunStarted);
    SameSteps(db, db);
  }

  /** The later version of a run to which only browser-control events were added. */
  predicate OnlyDriven(run: Run, run': Run) {
    && run' == run.(events := run'.events, nextEvent := run'.nextEvent)
    && run.events <= run'.events
    && forall i :: |run.events| <= i < |run'.events| ==> run'.events[i].kind.BrowserControl?
  }

  ghost predicate RunsOnlyDriven(db: Db, db': Db) {
    && db'.runs.Keys == db.runs.Keys
    && forall r :: r in db.runs ==> OnlyDriven(db.runs[r], db'.runs[r])
  }

  lemma DrivenTwice(a: Db, b: Db, c: Db)
    requires RunsOnlyDriven(a, b) && RunsOnlyDriven(b, c)
    ensures RunsOnlyDriven(a, c)
  {
    forall r | r in a.runs ensures OnlyDriven(a.runs[r], c.runs[r]) {
      assert OnlyDriven(a.runs[r], b.runs[r]) && OnlyDriven(b.runs[r], c.runs[r]);
    }
  }

  lemma SaveControlDrives(db: Db, s: SessionId, c: Control)
    ensures RunsOnlyDriven(db, SaveControl(db, s, c))
  {
  }

  lemma TakeDrives(db: Db, actor: OwnerId, s: SessionId, refused: bool, signingKey: Key, now: int, ttl: int)
    ensures RunsOnlyDriven(db, Take(db, actor, s, refused, signingKey, now, ttl))
  {
    hide Vacated, SaveControl, Busy, SameControl, RunsOnlyDriven;
    NothingDriven(db, db);
    if MayTake(db, actor, s, refused, now) {
      var vacated := Vacated(db, s);
      VacatedFrame(db, s);
      NothingDriven(db, vacated);
      if !SameControl(db, s, signingKey, now) && ttl > 0 {
        var closed := if Driven(db, s) then CloseControl(vacated, s, Expired) else vacated;
        if Driven(db, s) { SaveControlDrives(vacated, s, vacated.controls[s].(status := Expired)); }
        SaveControlDrives(closed, s, NewControl(db, s, signingKey, now, ttl));
        DrivenTwice(db, vacated, closed);
        DrivenTwice(db, closed, SaveControl(closed, s, NewControl(db, s, signingKey, now, ttl)));
      }
    }
  }

  lemma NothingDriven(db: Db, db': Db)
    requires db'.runs == db.runs
    ensures RunsOnlyDriven(db, db')
  {
  }

  /** The three requests of the browser control. */
  lemma BrowserDrives(db: Db, a: Action)
    requires AboutBrowser(a)
    ensures RunsOnlyDriven(db, Beside(db, a))
  {
    hide Take, SaveControl, Fits, RunsOnlyDriven;
    NothingDriven(db, db);
    match a
    case TakeBrowser(actor, s, refused, signingKey, now, ttl) => TakeDrives(db, actor, s, refused, signingKey, now, ttl);
    case PeekBrowser(actor, s, now) => if Driven(db, s) { SaveControlDrives(db, s, db.controls[s].(status := Expired)); }
    case EndBrowser(actor, s, now) =>
      if Driven(db, s) {
        SaveControlDrives(db, s, db.controls[s].(status := Ended));
        SaveControlDrives(db, s, db.controls[s].(status := Expired));
      }
  }

  lemma DrivenSteps(db: Db, db': Db)
    requires RunsOnlyDriven(db, db')
    ensures RunsStep(db, db')
  {
  }

  lemma ShapeSteps(run: Run, run': Run)
    requires ToolShape(run, run')
    ensures Steps(run, run')
  {
    hide Numbered;
  }

  /** What a tool request makes of a run. */
  function ToolStep(run: Run, a: Action): Run
    requires AboutTools(a)
  {
    match a
    case BeginEffect(_, id, tool, arguments) => Begun(run, id, tool, arguments)
    case FinishEffect(_, id, tool, arguments, attempt, answer) => Finished(run, id, tool, arguments, attempt, answer)
    case FailEffect(_, id, tool, arguments, attempt, error) => FailedCall(run, id, tool, arguments, attempt, error)
  }

  lemma ToolSteps(db: Db, a: Action)
    requires AboutTools(a)
    ensures Beside(db, a) == if a.run in db.runs then WithRun(db, a.run, ToolStep(db.runs[a.run], a)) else db
    ensures forall run :: ToolShape(run, ToolStep(run, a))
  {
    hide Begun, Finished, FailedCall, ToolShape;
    forall run ensures ToolShape(run, ToolStep(run, a)) {
      match a
      case BeginEffect(_, id, tool, arguments) => BegunShape(run, id, tool, arguments);
      case FinishEffect(_, id, tool, arguments, attempt, answer) => FinishedShape(run, id, tool, arguments, attempt, answer);
      case FailEffect(_, id, tool, arguments, attempt, error) => FailedShape(run, id, tool, arguments, attempt, error);
    }
  }

  lemma BesideSteps(db: Db, a: Action)
    ensures RunsStep(db, Beside(db, a))
  {
    hide Beside, RunsStep, Steps, WithRun, ToolStep, ToolShape, RunsOnlyDriven;
    ChangesStep(db);
    if AboutTools(a) {
      ToolSteps(db, a);
      if a.run in db.runs { ShapeSteps(db.runs[a.run], ToolStep(db.runs[a.run], a)); }
    } else if AboutBrowser(a) {
      BrowserDrives(db, a);
      DrivenSteps(db, Beside(db, a));
    } else {
      BesideOnlyLease(db, a);
      SameSteps(db, Beside(db, a));
    }
  }

  lemma BesideOnlyLease(db: Db, a: Action)
    requires !AboutTools(a) && !AboutBrowser(a)
    ensures var db' := Beside(db, a);
            db'.sessions == db.sessions && db'.runs == db.runs && db'.sights == db.sights && db'.receipts == db.receipts
            && db'.controls == db.controls
  {
    if AboutLease(a) { LeaseFrame(db, a); }
  }

  lemma PostSteps(db: Db, q: PostRequest)
    ensures RunsStep(db, Post(db, q))
  {
    hide Steps, NewRun;
    SelfSteps(db);
    PostIsNew(db, q);
    hide PostReplyFor;
  }

  lemma CancelRunSteps(db: Db, actor: OwnerId, r: RunId)
    ensures RunsStep(db, Cancel(db, actor, r))
  {
    hide Append, Steps, RunsStep, WithRun;
    ChangesStep(db);
    if r in db.runs { CancelSteps(db.runs[r]); }
  }

  lemma EndingSteps(db: Db, r: RunId, retry: bool, status: Status)
    ensures RunsStep(db, FailAttempt(db, r, retry)) && RunsStep(db, Reclaim(db, r)) && RunsStep(db, ReleaseIfTerminal(db, r, status))
  {
    hide Append, Steps, RunsStep, WithRun, Release;
    ChangesStep(db);
    if Is(db, r, Running) {
      AppendSteps(db.runs[r], [RetryScheduled], RetryWait);
      AppendSteps(db.runs[r], [RunFailed], Failed);
    }
    if Is(db, r, CancelRequested) { AppendSteps(db.runs[r], [RunCancelled], Cancelled); }
  }

  lemma UseSteps(db: Db, r: RunId, op: Ledger.Op)
    ensures RunsStep(db, Usage(db, r, op))
  {
    hide UsedRun, Steps, RunsStep, WithRun, Ledger.Apply;
    ChangesStep(db);
    if r in db.runs { UsageSteps(db.runs[r], op); }
  }

  lemma EmptyAppend(run: Run)
    ensures Append(run, [], run.status) == run
  {
    assert run.events + Numbered(run.nextEvent, []) == run.events;
  }

  lemma CancelSteps(run: Run)
    ensures run.status.Running? ==> Steps(run, Append(run, [RunCancelRequested], CancelRequested))
    ensures Allowed(run.status, Cancelled) ==> Steps(run, Append(run, [RunCancelled], Cancelled))
  {
    hide Append, Steps;
    if Allowed(run.status, CancelRequested) { AppendSteps(run, [RunCancelRequested], CancelRequested); }
    if Allowed(run.status, Cancelled) { AppendSteps(run, [RunCancelled], Cancelled); }
  }

  lemma CancellationSteps(db: Db, r: RunId)
    requires Is(db, r, CancelRequested)
    ensures RunsStep(db, CommitCancellation(db, r))
  {
    hide Append, Steps;
    SelfSteps(db);
    AppendSteps(db.runs[r], [RunCancelled, TurnCancelled], Cancelled);
  }

  lemma CommitSteps(db: Db, r: RunId, result: TurnResult)
    ensures RunsStep(db, Succeed(db, r, result)) && RunsStep(db, ConfirmCancel(db, r))
  {
    hide SucceededRun, SuccessCommits, Steps, CommitCancellation;
    SelfSteps(db);
    if Is(db, r, CancelRequested) {
      CancellationSteps(db, r);
    } else if SuccessCommits(db, r, result) {
      SuccessSteps(db, r, result);
      hide Succeed;
    }
  }

  lemma ShelfSteps(db: Db, r: RunId, toolCall: string, fact: Artifacts.Fact, fence: Artifacts.Fence, code: string)
    ensures RunsStep(db, Submit(db, r, toolCall, fact, fence)) && RunsStep(db, Reject(db, r, toolCall, fact, code))
  {
    hide Steps, RunsStep, Append, Artifacts.Submit, Artifacts.Reject, WithRun;
    ChangesStep(db);
    if Is(db, r, Running) {
      var (submitted, _) := Artifacts.Submit(db.runs[r].shelf, toolCall, fact, fence);
      ShelfChangeSteps(db.runs[r], submitted, ArtifactValidated);
      var (rejected, _) := Artifacts.Reject(db.runs[r].shelf, toolCall, fact, code);
      ShelfChangeSteps(db.runs[r], rejected, ArtifactRejected);
    }
  }

  lemma ShelfChangeSteps(run: Run, shelf: Artifacts.Shelf, kind: Kind)
    requires run.status.Running?
    ensures Steps(run, Append(run.(shelf := shelf), [kind], Running))
  {
    hide CallValid, ToolPermitted;
  }

  lemma NextEvolves(db: Db, a: Action)
    ensures Evolves(db, Next(db, a))
  {
    NextSteps(db, a);
    SessionsAndReceipts(db, a);
    hide Next;
  }

  /** The same runs and receipts, transcripts that only grow, and no session taken. */
  ghost predicate Framed(db: Db, db': Db) {
    db'.runs.Keys == db.runs.Keys && db'.receipts == db.receipts && SessionsGrow(db, db') && HoldersStay(db, db')
  }

  lemma ChangesFramed(db: Db)
    ensures Framed(db, db)
    ensures forall r, run' :: r in db.runs ==> Framed(db, WithRun(db, r, run'))
    ensures forall s, r :: Framed(db, Release(db, s, r))
  {
  }

  /** Only posting adds runs and receipts. */
  lemma NextFramed(db: Db, a: Action)
    requires !a.PostMessage?
    ensures Framed(db, Next(db, a))
  {
    hide Append, SucceededRun, ShelfOnSuccess, SuccessCommits, ClaimCommits, UsedRun, Artifacts.Submit, Artifacts.Reject,
         Ledger.Apply, Succeed, ConfirmCancel, Busy, WithRun, Release, Framed, ClaimFrom, Create, LookAt, Claim, Beside;
    ChangesFramed(db);
    match a
    case CreateSession(s, actor) => CreateFramed(db, s, actor);
    case Look(w, r) => LookFramed(db, w, r);
    case ClaimRun(w) => EnterFramed(db, w);
    case RequeueRun(w) => ClaimFramed(db, w, RetryWait, Queued, Requeued);
    case CommitResult(r, result) => CommitFramed(db, r, result);
    case ConfirmCancellation(r) => CommitFramed(db, r, TurnResult([], false, false));
    case _ => BesideFramed(db, a);
  }

  lemma CreateFramed(db: Db, s: SessionId, actor: OwnerId)
    ensures Framed(db, Create(db, s, actor))
  {
  }

  lemma LookFramed(db: Db, w: WorkerId, r: RunId)
    ensures Framed(db, LookAt(db, w, r))
  {
  }

  lemma EnterFramed(db: Db, w: WorkerId)
    ensures Framed(db, Claim(db, w))
  {
    hide ClaimFrom;
    ClaimFramed(db, w, Queued, Running, RunStarted);
  }

  lemma SaveControlFramed(db: Db, s: SessionId, c: Control)
    ensures var db' := SaveControl(db, s, c);
            && db'.sessions == db.sessions && db'.receipts == db.receipts && db'.runs.Keys == db.runs.Keys
            && db'.sandboxes == db.sandboxes && db'.executing == db.executing && db'.controls == db.controls[s := c]
  {
    hide Noted, WithRun;
    var saved := db.(controls := db.controls[s := c]);
    if c.anchor in db.runs { OnlyRuns(saved, c.anchor, Noted(db.runs[c.anchor], BrowserControl)); }
  }

  lemma OnlyRuns(db: Db, r: RunId, run': Run)
    requires r in db.runs
    ensures WithRun(db, r, run').runs.Keys == db.runs.Keys && WithRun(db, r, run') == db.(runs := WithRun(db, r, run').runs)
  {
  }

  lemma TakeFramed(db: Db, actor: OwnerId, s: SessionId, refused: bool, signingKey: Key, now: int, ttl: int)
    ensures Framed(db, Take(db, actor, s, refused, signingKey, now, ttl))
  {
    hide SaveControl, Busy, SameControl, Framed, Vacated;
    ChangesFramed(db);
    if MayTake(db, actor, s, refused, now) {
      var vacated := Vacated(db, s);
      assert Framed(db, vacated) by { VacatedFramed(db, s); }
      if !SameControl(db, s, signingKey, now) && ttl > 0 {
        if Driven(db, s) {
          VacatedFrame(db, s);
          SaveControlFramed(vacated, s, vacated.controls[s].(status := Expired));
        }
        var closed := if Driven(db, s) then CloseControl(vacated, s, Expired) else vacated;
        SaveControlFramed(closed, s, NewControl(db, s, signingKey, now, ttl));
        SameFramed(db, vacated, SaveControl(closed, s, NewControl(db, s, signingKey, now, ttl)));
      }
    }
  }

  lemma VacatedFramed(db: Db, s: SessionId)
    requires s in db.sessions
    ensures Framed(db, Vacated(db, s))
  {
    hide Release, Framed;
    ChangesFramed(db);
  }

  lemma SameFramed(db: Db, a: Db, b: Db)
    requires Framed(db, a) && b.sessions == a.sessions && b.receipts == a.receipts && b.runs.Keys == a.runs.Keys
    ensures Framed(db, b)
  {
  }

  lemma BesideFramed(db: Db, a: Action)
    ensures Framed(db, Beside(db, a))
  {
    hide Beside, Framed, WithRun, ToolStep, ToolShape;
    ChangesFramed(db);
    if AboutTools(a) {
      ToolSteps(db, a);
    } else if AboutBrowser(a) {
      BrowserFramed(db, a);
    } else {
      BesideOnlyLease(db, a);
      SameFramed(db, db, Beside(db, a));
    }
  }

  lemma BrowserFramed(db: Db, a: Action)
    requires AboutBrowser(a)
    ensures Framed(db, Beside(db, a))
  {
    hide Take, SaveControl, Fits, Framed;
    ChangesFramed(db);
    match a
    case TakeBrowser(actor, s, refused, signingKey, now, ttl) => TakeFramed(db, actor, s, refused, signingKey, now, ttl);
    case PeekBrowser(actor, s, now) => if Driven(db, s) { ControlFramed(db, s, db.controls[s].(status := Expired)); }
    case EndBrowser(actor, s, now) =>
      if Driven(db, s) {
        ControlFramed(db, s, db.controls[s].(status := Ended));
        ControlFramed(db, s, db.controls[s].(status := Expired));
      }
  }

  lemma ControlFramed(db: Db, s: SessionId, c: Control)
    ensures Framed(db, SaveControl(db, s, c))
  {
    hide SaveControl, Framed;
    ChangesFramed(db);
    SaveControlFramed(db, s, c);
    SameFramed(db, db, SaveControl(db, s, c));
  }

  lemma ClaimFramed(db: Db, w: WorkerId, expected: Status, to: Status, kind: Kind)
    ensures Framed(db, ClaimFrom(db, w, expected, to, kind))
  {
  }

  lemma CommitFramed(db: Db, r: RunId, result: TurnResult)
    ensures Framed(db, Succeed(db, r, result)) && Framed(db, ConfirmCancel(db, r))
  {
    hide Append, SucceededRun, ShelfOnSuccess;
    ChangesFramed(db);
    if Is(db, r, CancelRequested) {
      var cancelled := WithRun(db, r, Append(db.runs[r], [RunCancelled, TurnCancelled], Cancelled));
      hide WithRun, Release;
      ChangesFramed(cancelled);
    }
  }

  lemma SessionsAndReceipts(db: Db, a: Action)
    ensures SessionsGrow(db, Next(db, a))
    ensures forall k :: k in db.receipts ==> k in Next(db, a).receipts && Next(db, a).receipts[k] == db.receipts[k]
  {
    if a.PostMessage? {
      PostGrows(db, a.request);
    } else {
      hide Next;
      NextFramed(db, a);
    }
  }

  lemma PostGrows(db: Db, q: PostRequest)
    ensures SessionsGrow(db, Post(db, q))
    ensures forall k :: k in db.receipts ==> k in Post(db, q).receipts && Post(db, q).receipts[k] == db.receipts[k]
  {
    hide NewRun;
  }

  /** Over any further run of transactions nothing is taken back: logs, transcripts and receipts only
      grow, and what a finished turn produced is final. */
  lemma {:induction false} EveryRunEvolves(db: Db, actions: seq<Action>)
    ensures Evolves(db, Play(db, actions))
  {
    hide Next;
    if actions != [] {
      var middle := Play(db, actions[..|actions| - 1]);
      EveryRunEvolves(db, actions[..|actions| - 1]);
      NextEvolves(middle, actions[|actions| - 1]);
    }
  }

  /** Every status change of a turn is one the status table allows; the three final statuses are never left. */
  lemma StatusTableRespected(db: Db, a: Action, r: RunId)
    requires r in db.runs
    ensures r in Next(db, a).runs
    ensures var from, to := db.runs[r].status, Next(db, a).runs[r].status;
            from == to || (Allowed(from, to) && !Terminal(from))
  {
    NextSteps(db, a);
    hide Next;
  }

  lemma PostIsNew(db: Db, q: PostRequest)
    ensures PostReplyFor(db, q).Posted? ==> q.run !in db.runs && q.session in db.sessions
  {
  }

  // ---- optimistic claims ------------------------------------------------------------------------------------

  /** Once anything was appended to a run, no worker can move it on the strength of an earlier look. */
  lemma StaleLookNeverClaims(db: Db, actions: seq<Action>, sight: Sight, expected: Status)
    requires Reachable(db) && SightSound(db, sight) && sight.nextEvent < db.runs[sight.run].nextEvent
    ensures !ClaimCommits(Play(db, actions), sight, expected)
  {
    hide Reachable;
    ReachableSound(db);
    hide RunPlaced, SessionSound, LogFits, BudgetReported, RowsSound, Play, Reachable;
    var run := db.runs[sight.run];
    assert RunSound(run);
    var e := run.events[sight.nextEvent - 1];
    assert e.sequence == sight.nextEvent;
    EveryRunEvolves(db, actions);
    assert e in Play(db, actions).runs[sight.run].events by {
      assert Play(db, actions).runs[sight.run].events[sight.nextEvent - 1] == e;
    }
  }

  lemma SightOf(db: Db, w: WorkerId)
    requires Inv(db) && w in db.sights
    ensures SightSound(db, db.sights[w])
  {
    hide RunSound, RunPlaced, SessionSound, SightSound;
  }

  /** Of the workers that looked at a queued run, one claims it and the others never do, even after
      the run has been retried and is queued again. */
  lemma ClaimedByOneWorker(db: Db, w: WorkerId, v: WorkerId, actions: seq<Action>)
    requires Reachable(db) && w in db.sights && v in db.sights && db.sights[v].run == db.sights[w].run
    requires ClaimCommits(db, db.sights[w], Queued)
    ensures !ClaimCommits(Play(Next(db, ClaimRun(w)), actions), db.sights[v], Queued)
  {
    hide Inv, Play, Reachable, ClaimFrom, ClaimCommits;
    var db' := Next(db, ClaimRun(w));
    ReachableSound(db);
    ReachableNext(db, ClaimRun(w));
    var sight := db.sights[v];
    SightOf(db, v);
    ClaimIsAppend(db, w, Queued, Running, RunStarted);
    StaleLookNeverClaims(db', actions, sight, Queued);
  }

  lemma PlayThree(db: Db, a: Action, b: Action, c: Action)
    ensures Play(db, [a, b, c]) == Next(Next(Next(db, a), b), c)
  {
    hide Next;
    assert [a, b, c][..2] == [a, b] && [a, b][..1] == [a];
    assert Play(db, [a]) == Next(db, a);
    assert Play(db, [a, b]) == Next(Next(db, a), b);
  }

  lemma PlayFour(db: Db, a: Action, b: Action, c: Action, d: Action)
    ensures Play(db, [a, b, c, d]) == Next(Next(Next(Next(db, a), b), c), d)
  {
    hide Next;
    assert [a, b, c, d][..3] == [a, b, c];
    PlayThree(db, a, b, c);
  }

  /** Comparing the status alone would not do: after one failed attempt the run is queued again, an
      old look shows the status it has now, and only the taken event number stops the late claim. */
  lemma StatusAloneIsNotEnough(db: Db, w: WorkerId, v: WorkerId)
    requires Reachable(db) && w != v && w in db.sights && v in db.sights && db.sights[v].run == db.sights[w].run
    requires ClaimCommits(db, db.sights[w], Queued) && ClaimCommits(db, db.sights[v], Queued)
    ensures var r := db.sights[w].run;
            var retried := Play(db, [ClaimRun(v), AttemptFails(r, true), Look(v, r), RequeueRun(v)]);
            && Is(retried, r, Queued)
            && w in retried.sights && retried.sights[w] == db.sights[w] && db.sights[w].status == Queued
            && !ClaimCommits(retried, db.sights[w], Queued)
  {
    hide Reachable, Inv, ClaimCommits, ClaimFrom, Next, FailAttempt, LookAt;
    var r := db.sights[w].run;
    ReachableSound(db);
    SightOf(db, w);
    ClaimNeedsFreshSight(db, db.sights[w], Queued);
    ClaimIsAppend(db, v, Queued, Running, RunStarted);
    NextSimple(db, v, r);
    var d1 := Next(db, ClaimRun(v));
    NextSimple(d1, v, r);
    var d2 := Next(d1, AttemptFails(r, true));
    NextSimple(d2, v, r);
    var d3 := Next(d2, Look(v, r));
    NextSimple(d3, v, r);
    ReachableNext(db, ClaimRun(v));
    ReachableNext(d1, AttemptFails(r, true));
    ReachableNext(d2, Look(v, r));
    ReachableSound(d3);
    Retried(d1, d2, d3, v, r);
    ClaimNeedsFreshSight(d3, d3.sights[v], RetryWait);
    ClaimIsAppend(d3, v, RetryWait, Queued, Requeued);
    PlayFour(db, ClaimRun(v), AttemptFails(r, true), Look(v, r), RequeueRun(v));
    PlayThree(d1, AttemptFails(r, true), Look(v, r), RequeueRun(v));
    ClaimedByOneWorker(db, v, w, [AttemptFails(r, true), Look(v, r), RequeueRun(v)]);
  }

  lemma NextSimple(db: Db, w: WorkerId, r: RunId)
    ensures Next(db, ClaimRun(w)) == Claim(db, w)
    ensures Next(db, RequeueRun(w)) == ClaimFrom(db, w, RetryWait, Queued, Requeued)
    ensures Next(db, AttemptFails(r, true)) == FailAttempt(db, r, true)
    ensures Next(db, Look(w, r)) == LookAt(db, w, r)
  {
    hide Claim, ClaimFrom, FailAttempt, LookAt;
  }

  /** A failed attempt, and a fresh look at it. */
  lemma Retried(d1: Db, d2: Db, d3: Db, v: WorkerId, r: RunId)
    requires Is(d1, r, Running) && d2 == FailAttempt(d1, r, true) && d3 == LookAt(d2, v, r)
    requires Inv(d3)
    ensures v in d3.sights && SightSound(d3, d3.sights[v]) && d3.sights[v].run == r
    ensures d3.sights[v].status == RetryWait && d3.sights[v].nextEvent == d3.runs[r].nextEvent && Is(d3, r, RetryWait)
    ensures forall w :: w in d1.sights && w != v ==> w in d3.sights && d3.sights[w] == d1.sights[w]
  {
    hide Inv;
    assert v in d3.sights;
    SightOf(d3, v);
  }

  // ---- receipts -------------------------------------------------------------------------------------------

  /** Receipts and runs correspond one to one. */
  ghost predicate ReceiptsMatch(db: Db) {
    && (forall k :: k in db.receipts ==> db.receipts[k].run in db.runs && db.runs[db.receipts[k].run].owner == k.0)
    && (forall j, k :: j in db.receipts && k in db.receipts && db.receipts[j].run == db.receipts[k].run ==> j == k)
    && (forall r :: r in db.runs ==> HasReceipt(db, r))
  }

  ghost predicate HasReceipt(db: Db, r: RunId) {
    exists k :: k in db.receipts && db.receipts[k].run == r
  }

  lemma PostReceipt(db: Db, q: PostRequest)
    ensures var db' := Next(db, PostMessage(q));
            if PostReplyFor(db, q).Posted? then
              && (q.actor, q.key) !in db.receipts && q.run !in db.runs
              && db'.receipts == db.receipts[(q.actor, q.key) := Receipt(q.fingerprint, q.run)]
              && db'.runs.Keys == db.runs.Keys + {q.run} && db'.runs[q.run].owner == q.actor
            else db' == db
  {
  }

  /** Runs keep their owners. */
  ghost predicate OwnersStay(db: Db, db': Db) {
    forall r :: r in db.runs ==> r in db'.runs && db'.runs[r].owner == db.runs[r].owner
  }

  lemma ReceiptAdded(db: Db, db': Db, slot: (OwnerId, Key), receipt: Receipt)
    requires ReceiptsMatch(db) && OwnersStay(db, db')
    requires slot !in db.receipts && receipt.run !in db.runs
    requires db'.receipts == db.receipts[slot := receipt] && db'.runs.Keys == db.runs.Keys + {receipt.run}
    requires db'.runs[receipt.run].owner == slot.0
    ensures ReceiptsMatch(db')
  {
    forall r | r in db'.runs ensures HasReceipt(db', r) {
      if r == receipt.run {
        assert slot in db'.receipts;
      } else {
        var k :| k in db.receipts && db.receipts[k].run == r;
        assert k in db'.receipts && db'.receipts[k].run == r;
      }
    }
  }

  lemma ReceiptsMatchNext(db: Db, a: Action)
    requires ReceiptsMatch(db)
    ensures ReceiptsMatch(Next(db, a))
  {
    hide Next, SessionsGrow;
    var db' := Next(db, a);
    assert OwnersStay(db, db') by { NextEvolves(db, a); }
    if !a.PostMessage? {
      NextFramed(db, a);
      forall r | r in db'.runs ensures HasReceipt(db', r) {
        assert HasReceipt(db, r);
      }
    } else {
      hide PostReplyFor, ReceiptsMatch, OwnersStay;
      PostReceipt(db, a.request);
      if PostReplyFor(db, a.request).Posted? {
        ReceiptAdded(db, db', (a.request.actor, a.request.key), Receipt(a.request.fingerprint, a.request.run));
      }
    }
  }

  lemma {:induction false} ReceiptsAlwaysMatch(actions: seq<Action>)
    ensures ReceiptsMatch(Play(EMPTY_DB, actions))
  {
    if actions != [] {
      ReceiptsAlwaysMatch(actions[..|actions| - 1]);
      ReceiptsMatchNext(Play(EMPTY_DB, actions[..|actions| - 1]), actions[|actions| - 1]);
    }
  }

  /** All successful answers for one owner and key name one run, whatever happens in between and
      whether or not the second request saw the first one's receipt. */
  lemma OneRunPerKey(db: Db, first: PostRequest, actions: seq<Action>, second: PostRequest)
    requires Reachable(db) && PostReplyFor(db, first).Posted?
    requires second.actor == first.actor && second.key == first.key
    ensures var later := Play(Next(db, PostMessage(first)), actions);
            match PostReplyFor(later, second)
            case Posted(_) => false
            case AlreadyPosted(r) => r == first.run && second.fingerprint == first.fingerprint
            case Refused(_) => Post(later, second) == later
  {
    var db' := Next(db, PostMessage(first));
    EveryRunEvolves(db', actions);
    hide Play, NewRun;
    assert (first.actor, first.key) in db'.receipts;
  }
}
