/** The tables beside sessions and turns: receipts, claims, the sandbox lease and the browser control, and what is added. */
module TurnTables {
  import opened Wrappers
  import opened Runs
  import opened TurnProtocol
  import opened TurnInvariant
  import opened TurnTheorems
  import opened TurnMoves
  import opened TurnSessions
  import opened TurnFences
  import TurnEnd
  import Ledger
  import Artifacts

  // ---- posting -----------------------------------------------------------------------------------------------

  predicate LiveTurn(db: Db, s: SessionId, r: RunId) {
    r in db.runs && db.runs[r].session == s && !Terminal(db.runs[r].status)
  }

  lemma BusyIff(db: Db, s: SessionId)
    requires Reachable(db) && s in db.sessions
    ensures Busy(db, s) <==> exists r :: LiveTurn(db, s, r)
  {
    hide Reachable;
    ReachableSound(db);
    if Busy(db, s) {
      SessionIs(db, s);
      assert LiveTurn(db, s, db.sessions[s].active.value) by { hide Inv; }
    }
    hide Inv, Busy;
    if r :| LiveTurn(db, s, r) {
      LiveTurnHoldsSession(db, r, r);
      HeldIsBusy(db, s, r);
    }
  }

  lemma HeldIsBusy(db: Db, s: SessionId, r: RunId)
    requires Holds(db, s, r) && LiveTurn(db, s, r)
    ensures Busy(db, s)
  {
  }

  /** A message under a new key is posted exactly when its owner sees the session, no check raises, nobody drives the browser
      by hand, every turn of the session has ended, the policy is in order and the identifier is new; otherwise the first
      of these that fails is the answer. */
  lemma NewPostAnswered(db: Db, q: PostRequest)
    requires Reachable(db) && (q.actor, q.key) !in db.receipts
    ensures var reply := PostReplyFor(db, q);
            && (reply == Posted(q.run) <==>
                  && Visible(db, q.session, q.actor) && !q.refusedEarly && !q.refusedLate && Ledger.PolicyValid(q.policy)
                  && !Driven(db, q.session) && q.run !in db.runs && !exists r :: LiveTurn(db, q.session, r))
            && (reply == Refused(SessionNotFound) <==> !Visible(db, q.session, q.actor))
            && (reply == Refused(ScopeRefused) <==> Visible(db, q.session, q.actor) && q.refusedEarly)
            && (reply == Refused(BrowserControlBusy) <==> Visible(db, q.session, q.actor) && !q.refusedEarly && Driven(db, q.session))
            && (reply == Refused(SessionBusy) <==>
                  Visible(db, q.session, q.actor) && !q.refusedEarly && exists r :: LiveTurn(db, q.session, r))
            && !reply.AlreadyPosted? && reply != Refused(IdempotencyConflict)
  {
    hide Reachable;
    if Visible(db, q.session, q.actor) {
      BusyIff(db, q.session);
      if Driven(db, q.session) && Busy(db, q.session) {
        var r :| LiveTurn(db, q.session, r);
        TurnEnd.ManualControlExcludesTurns(db, q.session, r);
      }
    }
    hide Busy, Driven, LiveTurn;
  }

  /** The first answer to a key is its answer: the same message again, at any later time, is answered with the run it
      started, another message under the key is refused as a conflict, and neither writes anything. A repetition that looked
      before the first one committed is refused. */
  lemma RepeatedPostIsAnswered(db: Db, first: PostRequest, actions: seq<Action>, second: PostRequest)
    requires Reachable(db) && PostReplyFor(db, first).Posted?
    requires second.actor == first.actor && second.key == first.key
    ensures var later := Play(Next(db, PostMessage(first)), actions);
            && first.run in later.runs
            && Next(later, PostMessage(second)) == later
            && (if second.stale then PostReplyFor(later, second).Refused?
                else if second.fingerprint == first.fingerprint then PostReplyFor(later, second) == AlreadyPosted(first.run)
                else PostReplyFor(later, second) == Refused(IdempotencyConflict))
  {
    hide Play, Next, NewRun, Visible, Driven, Busy;
    var db' := Next(db, PostMessage(first));
    var later := Play(db', actions);
    PostReceipt(db, first);
    EveryRunEvolves(db', actions);
    PostReceipt(later, second);
    var slot := (first.actor, first.key);
    assert slot in later.receipts && later.receipts[slot] == Receipt(first.fingerprint, first.run);
  }

  /** What a posted message adds: its run, queued with two events and an unused budget, and its receipt. */
  lemma PostAdds(db: Db, q: PostRequest)
    requires Reachable(db) && PostReplyFor(db, q).Posted?
    ensures var db' := Next(db, PostMessage(q));
            && q.run !in db.runs && db'.runs.Keys == db.runs.Keys + {q.run} && (q.actor, q.key) !in db.receipts
            && db'.receipts == db.receipts[(q.actor, q.key) := Receipt(q.fingerprint, q.run)]
            && db'.sessions.Keys == db.sessions.Keys && q.session in db.sessions
            && db'.runs[q.run] == Run(q.actor, q.session, |db.sessions[q.session].messages| + 1, Queued, 3,
                                      [Event(1, RunCreated), Event(2, MessageAccepted)], 0, Artifacts.EMPTY_SHELF,
                                      Ledger.Opened(q.policy), map[])
  {
    hide Reachable, Next, NewRun, Inv;
    PostedWhere(db, q);
    ReachableSound(db);
    SessionIs(db, q.session);
    PostReceipt(db, q);
    NewRunIs(q, |db.sessions[q.session].messages| + 1);
    PostWrites(db, q);
    hide PostReplyFor;
  }

  lemma PostedWhere(db: Db, q: PostRequest)
    requires PostReplyFor(db, q).Posted?
    ensures q.session in db.sessions
  {
    hide Driven, Busy;
  }

  lemma NewRunIs(q: PostRequest, n: nat)
    ensures NewRun(q, n) == Run(q.actor, q.session, n, Queued, 3, [Event(1, RunCreated), Event(2, MessageAccepted)], 0,
                                Artifacts.EMPTY_SHELF, Ledger.Opened(q.policy), map[])
  {
    assert Numbered(1, [RunCreated, MessageAccepted]) == [Event(1, RunCreated), Event(2, MessageAccepted)];
  }

  lemma PostWrites(db: Db, q: PostRequest)
    requires PostReplyFor(db, q).Posted? && q.session in db.sessions
    ensures var db' := Next(db, PostMessage(q));
            q.run in db'.runs && db'.runs[q.run] == NewRun(q, db.sessions[q.session].nextMessage)
            && db'.sessions.Keys == db.sessions.Keys
  {
    hide PostReplyFor, NewRun;
  }

  /** Nothing else adds runs, sessions or receipts, but the creation of a session that is not there yet. */
  lemma OnlyPostsAdd(db: Db, a: Action)
    requires !(a.PostMessage? && PostReplyFor(db, a.request).Posted?)
    ensures Next(db, a).runs.Keys == db.runs.Keys && Next(db, a).receipts == db.receipts
    ensures forall s :: s in Next(db, a).sessions && s !in db.sessions ==>
              && a == CreateSession(s, Next(db, a).sessions[s].owner)
              && Next(db, a).sessions[s] == Session(a.actor, None, 1, [])
    ensures a.CreateSession? ==> a.session in Next(db, a).sessions
  {
    if a.PostMessage? {
      PostReceipt(db, a.request);
      hide Next;
    } else {
      assert Next(db, a).runs.Keys == db.runs.Keys && Next(db, a).receipts == db.receipts by { NextFramed(db, a); hide Next; }
      if a.CreateSession? {
      } else {
        hide Next;
        SessionKeysStay(db, a);
      }
    }
  }

  lemma SessionKeysStay(db: Db, a: Action)
    requires !a.CreateSession?
    ensures Next(db, a).sessions.Keys == db.sessions.Keys
  {
    hide Next, Release, WithRun, CommitCancellation;
    if a.CommitResult? || a.ConfirmCancellation? {
      NextIs(db, a);
      CommitSessionKeys(db, a);
    } else if a.TakeBrowser? {
      TakenSessions(db, a);
      if TakesBrowser(db, a, a.session) { TakesOwn(db, a, a.session); VacatedFrame(db, a.session); }
    } else if a.TerminalCallback? {
      NextIs(db, a);
      if a.run in db.runs { ReleaseKeys(db, db.runs[a.run].session, a.run); }
    } else {
      OtherSessionKeys(db, a);
    }
  }

  lemma ReleaseKeys(db: Db, s: SessionId, r: RunId)
    ensures Release(db, s, r).sessions.Keys == db.sessions.Keys
  {
  }

  lemma CommitSessionKeys(db: Db, a: Action)
    requires a.CommitResult? || a.ConfirmCancellation?
    ensures a.CommitResult? ==> Succeed(db, a.run, a.result).sessions.Keys == db.sessions.Keys
    ensures a.ConfirmCancellation? ==> ConfirmCancel(db, a.run).sessions.Keys == db.sessions.Keys
  {
    hide Append, SucceededRun, ShelfOnSuccess, CurrentFences;
  }

  lemma OtherSessionKeys(db: Db, a: Action)
    requires !a.CreateSession? && !a.CommitResult? && !a.ConfirmCancellation? && !a.TerminalCallback? && !a.TakeBrowser?
    ensures Next(db, a).sessions.Keys == db.sessions.Keys
  {
    hide Next, Beside, ToolStep, ToolShape;
    if AboutTools(a) {
      NextIsBeside(db, a);
      ToolSteps(db, a);
    } else if AboutLease(a) {
      NextIsBeside(db, a);
      BesideOnlyLease(db, a);
    } else if AboutBrowser(a) {
      NextIsBeside(db, a);
      ClosingSessions(db, a);
    } else {
      TurnStepKeys(db, a);
    }
  }

  lemma TurnStepKeys(db: Db, a: Action)
    requires !a.CreateSession? && !a.CommitResult? && !a.ConfirmCancellation? && !a.TerminalCallback?
    requires !AboutTools(a) && !AboutLease(a) && !AboutBrowser(a)
    ensures Next(db, a).sessions.Keys == db.sessions.Keys
  {
    if a.PostMessage? { PostIsNew(db, a.request); }
    hide Append, UsedRun, Ledger.Apply, Artifacts.Submit, Artifacts.Reject, ClaimCommits, PostReplyFor, NewRun;
  }

  // ---- claims ---------------------------------------------------------------------------------------------------

  lemma EnteredIff(db: Db, w: WorkerId)
    requires Inv(db)
    ensures w in db.sights && ClaimCommits(db, db.sights[w], Queued) ==>
              db.sights[w].run in db.runs && Claims(db, ClaimRun(w), db.sights[w].run)
    ensures forall r :: r in db.runs && Claims(db, ClaimRun(w), r) ==>
              w in db.sights && db.sights[w].run == r && ClaimCommits(db, db.sights[w], Queued)
  {
    hide Inv, ClaimCommits;
    if w in db.sights {
      SightRun(db, w);
      LookCommitsIff(db, w, db.sights[w].run, Queued);
    }
  }

  lemma SightRun(db: Db, w: WorkerId)
    requires Inv(db) && w in db.sights
    ensures db.sights[w].run in db.runs
  {
    SightOf(db, w);
    hide Inv;
  }

  /** A worker is inside an execution from the claim that succeeds until it leaves, and sees a run as it last looked. */
  lemma WorkersMoveExactly(db: Db, a: Action, w: WorkerId, r: RunId)
    requires Reachable(db) && r in db.runs
    ensures (w, r) in Next(db, a).executing
            <==> ((w, r) in db.executing && a != LeaveRun(w, r)) || (a == ClaimRun(w) && Claims(db, a, r))
    ensures a == Look(w, r) ==> w in Next(db, a).sights && Next(db, a).sights[w] == Sight(r, db.runs[r].status, db.runs[r].nextEvent)
    ensures !(a.Look? && a.worker == w && a.run in db.runs) ==>
              (w in Next(db, a).sights <==> w in db.sights) && (w in db.sights ==> Next(db, a).sights[w] == db.sights[w])
  {
    hide Reachable, Inv, Claims;
    ReachableSound(db);
    if a.ClaimRun? {
      ClaimEnters(db, a.worker, w, r);
    } else {
      OnlyClaims(db, a, r);
      OthersEnterNothing(db, a, w, r);
    }
    SightsMove(db, a);
  }

  lemma OnlyClaims(db: Db, a: Action, r: RunId)
    requires r in db.runs && !a.ClaimRun?
    ensures !Claims(db, a, r)
  {
  }

  lemma ClaimEnters(db: Db, v: WorkerId, w: WorkerId, r: RunId)
    requires Inv(db) && r in db.runs
    ensures (w, r) in Next(db, ClaimRun(v)).executing <==> (w, r) in db.executing || (v == w && Claims(db, ClaimRun(w), r))
  {
    hide Inv, ClaimCommits, Claims, Next;
    EnteredIff(db, v);
    ClaimExecuting(db, v);
  }

  lemma ClaimExecuting(db: Db, v: WorkerId)
    ensures Next(db, ClaimRun(v)).executing
            == if v in db.sights && ClaimCommits(db, db.sights[v], Queued) then db.executing + {(v, db.sights[v].run)} else db.executing
  {
    hide ClaimCommits;
  }

  lemma OthersEnterNothing(db: Db, a: Action, w: WorkerId, r: RunId)
    requires !a.ClaimRun?
    ensures (w, r) in Next(db, a).executing <==> (w, r) in db.executing && a != LeaveRun(w, r)
  {
    hide Next, Beside, TurnEnd.Changed, Acquire;
    if AboutTools(a) {
      NextIsBeside(db, a);
      TurnEnd.ToolsSameTables(db, a);
    } else if AboutBrowser(a) {
      NextIsBeside(db, a);
      TurnEnd.BrowserRows(db, a);
    } else if AboutLease(a) {
      NextIsBeside(db, a);
      LeaseLeaves(db, a);
    } else {
      TurnEnd.TurnStepsSameTables(db, a);
    }
  }

  lemma LeaseLeaves(db: Db, a: Action)
    requires AboutLease(a)
    ensures Beside(db, a).executing == if a.LeaveRun? then db.executing - {(a.worker, a.run)} else db.executing
  {
    hide Acquire;
    match a
    case AcquireSandbox(w, r, reuse, now, ttl) => AcquireFrame(db, w, r, reuse, now, ttl);
    case _ =>
  }

  lemma SightsMove(db: Db, a: Action)
    ensures Next(db, a).sights
            == if a.Look? && a.run in db.runs then db.sights[a.worker := Sight(a.run, db.runs[a.run].status, db.runs[a.run].nextEvent)]
               else db.sights
  {
    hide Next, Beside;
    if AboutTools(a) {
      NextIsBeside(db, a);
      hide WithRun;
      ToolSteps(db, a);
      if a.run in db.runs { OnlyRuns(db, a.run, ToolStep(db.runs[a.run], a)); }
    } else if AboutBrowser(a) {
      NextIsBeside(db, a);
      BrowserSights(db, a);
    } else if AboutLease(a) {
      NextIsBeside(db, a);
      BesideOnlyLease(db, a);
    } else {
      TurnStepsSights(db, a);
    }
  }

  lemma BrowserSights(db: Db, a: Action)
    requires AboutBrowser(a)
    ensures Beside(db, a).sights == db.sights
  {
    hide SameControl, NewControl, Fits, Live, SaveControl, Vacated, MayTake;
    var s := a.session;
    if a.TakeBrowser? {
      if MayTake(db, a.actor, s, a.refused, a.now) {
        TakenWhere(db, a);
        VacatedSights(db, s);
        var vacated := Vacated(db, s);
        if Driven(db, s) { SavedSights(vacated, s, vacated.controls[s].(status := Expired)); }
        var closed := if Driven(db, s) then CloseControl(vacated, s, Expired) else vacated;
        SavedSights(closed, s, NewControl(db, s, a.signingKey, a.now, a.ttl));
      }
    } else if Driven(db, s) {
      SavedSights(db, s, db.controls[s].(status := Expired));
      SavedSights(db, s, db.controls[s].(status := Ended));
    }
  }

  lemma TakenWhere(db: Db, a: Action)
    requires a.TakeBrowser? && MayTake(db, a.actor, a.session, a.refused, a.now)
    ensures a.session in db.sessions && a.session in db.sandboxes
  {
  }

  lemma SavedSights(db: Db, s: SessionId, c: Control)
    ensures SaveControl(db, s, c).sights == db.sights
  {
    hide Noted;
  }

  lemma VacatedSights(db: Db, s: SessionId)
    requires s in db.sessions
    ensures Vacated(db, s).sights == db.sights && Vacated(db, s).controls == db.controls
  {
  }

  lemma TurnStepsSights(db: Db, a: Action)
    requires !AboutTools(a) && !AboutLease(a) && !AboutBrowser(a)
    ensures Next(db, a).sights
            == if a.Look? && a.run in db.runs then db.sights[a.worker := Sight(a.run, db.runs[a.run].status, db.runs[a.run].nextEvent)]
               else db.sights
  {
    hide Append, UsedRun, Ledger.Apply, Artifacts.Submit, Artifacts.Reject, ClaimCommits, PostReplyFor, NewRun, SucceededRun, SuccessCommits;
    if a.PostMessage? { PostIsNew(db, a.request); }
    if a.CommitResult? { hide Succeed; NextIs(db, a); CommitSights(db, a.run, a.result); }
  }

  lemma CommitSights(db: Db, r: RunId, result: TurnResult)
    ensures Succeed(db, r, result).sights == db.sights
  {
    hide Append, SucceededRun, ShelfOnSuccess, CurrentFences;
  }

  // ---- the browser control ----------------------------------------------------------------------------------------

  /** The session's control after the transaction: begun, closed, or as it was. */
  lemma ControlsMoveExactly(db: Db, a: Action, s: SessionId)
    ensures var controls, controls' := db.controls, Next(db, a).controls;
            if BeginsControl(db, a) && a.session == s then
              && s in controls' && s in db.sandboxes
              && var box := db.sandboxes[s];
                 controls'[s] == Control(box.holder, box.generation, box.fence, Manual, if s in controls then controls[s].revision + 1 else 1,
                                         Min(box.expiresAt, a.now + Min(a.ttl, MAX_CONTROL_SECONDS)), a.signingKey)
            else if ClosesControl(db, a) && a.session == s then
              && s in controls && s in controls'
              && controls'[s] == controls[s].(status := if a.EndBrowser? && Fits(db, s, controls[s]) && Live(controls[s], a.now)
                                                        then Ended else Expired)
            else (s in controls' <==> s in controls) && (s in controls ==> controls'[s] == controls[s])
  {
    hide Next, Beside, SaveControl, Fits, Live;
    if AboutBrowser(a) {
      NextIsBeside(db, a);
      if a.TakeBrowser? { TakeControls(db, a); } else { CloseControls(db, a); }
    } else if AboutTools(a) {
      NextIsBeside(db, a);
      TurnEnd.ToolsSameTables(db, a);
    } else if AboutLease(a) {
      NextIsBeside(db, a);
      BesideOnlyLease(db, a);
    } else if a.ClaimRun? {
      TurnEnd.ClaimRows(db, a.worker);
    } else {
      TurnEnd.TurnStepsSameTables(db, a);
    }
  }

  lemma TakeControls(db: Db, a: Action)
    requires a.TakeBrowser?
    ensures BeginsControl(db, a) ==> a.session in db.sandboxes
    ensures Beside(db, a).controls == if BeginsControl(db, a) then
                                        db.controls[a.session := NewControl(db, a.session, a.signingKey, a.now, a.ttl)]
                                      else db.controls
  {
    hide SaveControl, SameControl, Busy, NewControl, Vacated;
    if MayTake(db, a.actor, a.session, a.refused, a.now) {
      var vacated := Vacated(db, a.session);
      VacatedFrame(db, a.session);
      if Driven(db, a.session) { SaveControlFramed(vacated, a.session, vacated.controls[a.session].(status := Expired)); }
      var closed := if Driven(db, a.session) then CloseControl(vacated, a.session, Expired) else vacated;
      SaveControlFramed(closed, a.session, NewControl(db, a.session, a.signingKey, a.now, a.ttl));
    }
  }

  lemma CloseControls(db: Db, a: Action)
    requires a.PeekBrowser? || a.EndBrowser?
    ensures Beside(db, a).controls
            == if ClosesControl(db, a) then
                 db.controls[a.session := db.controls[a.session].(status :=
                   if a.EndBrowser? && Fits(db, a.session, db.controls[a.session]) && Live(db.controls[a.session], a.now) then Ended
                   else Expired)]
               else db.controls
  {
    hide SaveControl, Fits, Live;
    if Driven(db, a.session) {
      SaveControlFramed(db, a.session, db.controls[a.session].(status := Expired));
      SaveControlFramed(db, a.session, db.controls[a.session].(status := Ended));
    }
  }


  function Again(a: Action, now: int): Action
    requires a.TakeBrowser?
  {
    TakeBrowser(a.actor, a.session, a.refused, a.signingKey, now, a.ttl)
  }

  /** Taking the browser once more under the same key, as long as the control lasts, changes nothing. */
  lemma TakingAgainIsQuiet(db: Db, a: Action, now: int)
    requires Reachable(db) && a.TakeBrowser? && BeginsControl(db, a)
    requires a.session in Next(db, a).controls && now < Next(db, a).controls[a.session].expiresAt
    ensures Next(Next(db, a), Again(a, now)) == Next(db, a)
  {
    hide Reachable, Next, Inv;
    var db' := Next(db, a);
    ReachableNext(db, a);
    ControlsMoveExactly(db, a, a.session);
    TakenSession(db, a);
    TakenControlFits(db, a, now);
    NextIs(db', Again(a, now));
    hide BeginsControl, SameControl, MayTake;
    TakeSame(db', Again(a, now));
  }

  /** The session and the sandbox that a new control finds and leaves. */
  lemma TakenSession(db: Db, a: Action)
    requires Reachable(db) && a.TakeBrowser? && BeginsControl(db, a)
    ensures var db' := Next(db, a); var s := a.session;
            s in db'.sessions && db'.sessions[s].active.None? && db'.sessions[s].owner == db.sessions[s].owner
            && Visible(db, s, a.actor) && db'.sandboxes == db.sandboxes
  {
    hide Reachable, Next, Inv, SessionAfter, Frees;
    var s := a.session;
    NextIsBeside(db, a);
    TurnEnd.BrowserRows(db, a);
    BeginsTakes(db, a);
    ReachableSound(db);
    TakesOwn(db, a, s);
    TakeFrees(db, a, s);
    OnlyPosts(db, a, s);
    EverySessionMovesExactly(db, a, s);
    SilentSession(db, a, s);
  }

  lemma BeginsTakes(db: Db, a: Action)
    requires a.TakeBrowser? && BeginsControl(db, a)
    ensures TakesBrowser(db, a, a.session) && Visible(db, a.session, a.actor) && !a.refused && SandboxAvailable(db, a.session, a.now)
  {
    hide SameControl, Busy;
  }

  lemma TakenControlFits(db: Db, a: Action, now: int)
    requires a.TakeBrowser? && BeginsControl(db, a)
    requires var db' := Next(db, a); var s := a.session;
             && s in db'.controls && s in db.sandboxes && db'.sandboxes == db.sandboxes && now < db'.controls[s].expiresAt
             && var box := db.sandboxes[s];
                db'.controls[s] == Control(box.holder, box.generation, box.fence, Manual, db'.controls[s].revision,
                                           Min(box.expiresAt, a.now + Min(a.ttl, MAX_CONTROL_SECONDS)), a.signingKey)
    requires a.session in Next(db, a).sessions && Next(db, a).sessions[a.session].active.None?
    requires Visible(Next(db, a), a.session, a.actor)
    ensures MayTake(Next(db, a), a.actor, a.session, a.refused, now) && SameControl(Next(db, a), a.session, a.signingKey, now)
  {
    hide Next;
    BeginsTakes(db, a);
    hide BeginsControl, TakesBrowser;
  }

  lemma TakeSame(db: Db, a: Action)
    requires a.TakeBrowser? && a.session in db.sessions && db.sessions[a.session].active.None?
    requires MayTake(db, a.actor, a.session, a.refused, a.now) && SameControl(db, a.session, a.signingKey, a.now)
    ensures Take(db, a.actor, a.session, a.refused, a.signingKey, a.now, a.ttl) == db
  {
    hide MayTake, SameControl;
  }

  // ---- the sandbox lease ----------------------------------------------------------------------------------------------

  /** A worker inside an execution that may use the sandbox takes it: there is none, it asks for a new one, or the one there
      is in use. */
  predicate TakesSandbox(db: Db, a: Action, s: SessionId) {
    && a.AcquireSandbox? && a.run in db.runs && db.runs[a.run].session == s && (a.worker, a.run) in db.executing
    && db.runs[a.run].ledger.policy.sandboxAllowed
    && (s in db.sandboxes ==> !a.reuse || db.sandboxes[s].status.Active?)
  }

  /** The session's sandbox after the transaction. A taken one belongs to the worker's turn until its time is over, and its
      fencing token is greater than any before unless the turn keeps the sandbox it holds. */
  predicate LeaseMoves(db: Db, boxes: map<SessionId, Sandbox>, a: Action, s: SessionId) {
    var before := db.sandboxes;
    if TakesSandbox(db, a, s) then
      && s in boxes && boxes[s].holder == a.run && boxes[s].status.Active? && boxes[s].expiresAt == a.now + a.ttl
      && (if s !in before then boxes[s].generation == 1 && boxes[s].fence == 1
          else && boxes[s].generation == before[s].generation + (if a.reuse then 0 else 1)
               && boxes[s].fence == before[s].fence + (if a.reuse && before[s].holder == a.run then 0 else 1))
    else
      && (s in boxes <==> s in before)
      && (s in before ==> boxes[s] == before[s].(status :=
            if a == DirtySandbox(s, before[s].generation, before[s].fence) && before[s].status.Active? then Dirty
            else if a.RetireSandbox? && a.session == s
                    && (before[s].status.Dirty? || (before[s].status.Active? && before[s].expiresAt <= a.now)) then Retired
            else before[s].status))
  }

  /** In every state, reachable or not, each transaction moves each session's lease just so. */
  lemma LeasesMoveExactly(db: Db, a: Action, s: SessionId)
    ensures LeaseMoves(db, Next(db, a).sandboxes, a, s)
  {
    hide Next, Beside;
    if AboutLease(a) {
      NextIsBeside(db, a);
      hide AboutLease;
      LeaseBoxes(db, a, s);
    } else {
      OnlyLeaseMovesSandboxes(db, a);
    }
  }

  lemma LeaseBoxes(db: Db, a: Action, s: SessionId)
    requires AboutLease(a)
    ensures LeaseMoves(db, Beside(db, a).sandboxes, a, s)
  {
    hide Beside, Acquire, MarkDirty, Retire, LeaseMoves;
    match a
    case LeaveRun(w, r) =>
      TurnEnd.LeaveExecution(db, w, r);
      LeaveMoves(db, a, s);
    case AcquireSandbox(w, r, reuse, now, ttl) =>
      TurnEnd.AcquireRows(db, w, r, reuse, now, ttl);
      AcquireMoves(db, w, r, reuse, now, ttl, s);
    case DirtySandbox(t, generation, token) =>
      TurnEnd.DampIs(db, t, generation, token, 0);
      DampMoves(db, t, generation, token, 0, s);
    case RetireSandbox(t, now) =>
      TurnEnd.DampIs(db, t, 0, 0, now);
      DampMoves(db, t, 0, 0, now, s);
  }

  lemma LeaveMoves(db: Db, a: Action, s: SessionId)
    requires a.LeaveRun?
    ensures LeaseMoves(db, db.sandboxes, a, s)
  {
  }

  lemma AcquireMoves(db: Db, w: WorkerId, r: RunId, reuse: bool, now: int, ttl: int, s: SessionId)
    ensures LeaseMoves(db, Acquire(db, w, r, reuse, now, ttl).sandboxes, AcquireSandbox(w, r, reuse, now, ttl), s)
  {
    var a := AcquireSandbox(w, r, reuse, now, ttl);
    var taken := r in db.runs && TakesSandbox(db, a, db.runs[r].session);
    AcquireIs(db, a);
    assert TakesSandbox(db, a, s) <==> taken && s == db.runs[r].session;
    hide Acquire, TakesSandbox;
  }

  /** The box that the turn of a worker gets. */
  function Taken(db: Db, a: Action, s: SessionId): Sandbox
    requires a.AcquireSandbox?
  {
    if s !in db.sandboxes then Sandbox(a.run, 1, 1, Active, a.now + a.ttl)
    else
      var box := db.sandboxes[s];
      if !a.reuse then Sandbox(a.run, box.generation + 1, box.fence + 1, Active, a.now + a.ttl)
      else Sandbox(a.run, box.generation, if box.holder == a.run then box.fence else box.fence + 1, Active, a.now + a.ttl)
  }

  lemma AcquireIs(db: Db, a: Action)
    requires a.AcquireSandbox?
    ensures var db' := Acquire(db, a.worker, a.run, a.reuse, a.now, a.ttl);
            if a.run in db.runs && TakesSandbox(db, a, db.runs[a.run].session) then
              db'.sandboxes == db.sandboxes[db.runs[a.run].session := Taken(db, a, db.runs[a.run].session)]
            else db' == db
  {
  }

  lemma DampMoves(db: Db, t: SessionId, generation: nat, token: nat, now: int, s: SessionId)
    ensures LeaseMoves(db, MarkDirty(db, t, generation, token).sandboxes, DirtySandbox(t, generation, token), s)
    ensures LeaseMoves(db, Retire(db, t, now).sandboxes, RetireSandbox(t, now), s)
  {
    assert !TakesSandbox(db, DirtySandbox(t, generation, token), s) && !TakesSandbox(db, RetireSandbox(t, now), s);
    hide TakesSandbox;
    DirtyMoves(db, t, generation, token, s);
    RetireMoves(db, t, now, s);
    hide LeaseMoves;
  }

  lemma DirtyMoves(db: Db, t: SessionId, generation: nat, token: nat, s: SessionId)
    requires !TakesSandbox(db, DirtySandbox(t, generation, token), s)
    ensures LeaseMoves(db, MarkDirty(db, t, generation, token).sandboxes, DirtySandbox(t, generation, token), s)
  {
    hide TakesSandbox;
  }

  lemma RetireMoves(db: Db, t: SessionId, now: int, s: SessionId)
    requires !TakesSandbox(db, RetireSandbox(t, now), s)
    ensures LeaseMoves(db, Retire(db, t, now).sandboxes, RetireSandbox(t, now), s)
  {
    hide TakesSandbox;
  }
}
