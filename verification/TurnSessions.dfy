/** What every transaction does to every session and to the tables beside the turns, in every reachable state. */
module TurnSessions {
  import opened Wrappers
  import opened Runs
  import opened TurnProtocol
  import opened TurnInvariant
  import opened TurnTheorems
  import opened TurnMoves
  import opened TurnFences
  import TurnEnd
  import Ledger
  import Artifacts
  import ArtifactAnswers

  // ---- sessions ------------------------------------------------------------------------------------------

  predicate PostsTo(db: Db, a: Action, s: SessionId) {
    a.PostMessage? && a.request.session == s && PostReplyFor(db, a.request).Posted?
  }

  /** The owner takes the browser, or has it already under this key. */
  predicate TakesBrowser(db: Db, a: Action, s: SessionId) {
    && a.TakeBrowser? && a.session == s && MayTake(db, a.actor, s, a.refused, a.now)
    && (SameControl(db, s, a.signingKey, a.now) || a.ttl > 0)
  }

  /** The session is freed: its turn ends by the executor's hand, or has ended and somebody notices. */
  ghost predicate Frees(db: Db, a: Action, s: SessionId)
    requires s in db.sessions
  {
    var active := db.sessions[s].active;
    active.Some? && active.value in db.runs && FreedBy(db, a, s, active.value)
  }

  ghost predicate FreedBy(db: Db, a: Action, s: SessionId, r: RunId)
    requires r in db.runs
  {
    match a
    case CommitResult(q, _) => q == r && (db.runs[r].status.CancelRequested? || Delivers(db, a, r))
    case ConfirmCancellation(q) => q == r && (db.runs[r].status.CancelRequested? || db.runs[r].status.Cancelled?)
    case TerminalCallback(q, status) => q == r && status == db.runs[r].status && Terminal(status)
    case TakeBrowser(_, _, _, _, _, _) => TakesBrowser(db, a, s)
    case _ => false
  }

  /** The answer of a turn of this session, if the transaction delivers one. */
  ghost predicate AnswersIn(db: Db, a: Action, s: SessionId) {
    a.CommitResult? && a.run in db.runs && db.runs[a.run].session == s && Delivers(db, a, a.run)
  }

  ghost function MessagesAfter(db: Db, a: Action, s: SessionId): seq<Message>
    requires s in db.sessions
  {
    var messages := db.sessions[s].messages;
    if PostsTo(db, a, s) then messages + [Message(|messages| + 1, User, a.request.run, false)]
    else if AnswersIn(db, a, s) then messages + [Message(|messages| + 1, Assistant, a.run, a.result.cited)]
    else messages
  }

  ghost function SessionAfter(db: Db, a: Action, s: SessionId): Session
    requires s in db.sessions
  {
    Session(db.sessions[s].owner,
            if PostsTo(db, a, s) then Some(a.request.run) else if Frees(db, a, s) then None else db.sessions[s].active,
            |MessagesAfter(db, a, s)| + 1,
            MessagesAfter(db, a, s))
  }

  lemma SessionIs(db: Db, s: SessionId)
    requires Inv(db) && s in db.sessions
    ensures db.sessions[s].nextMessage == |db.sessions[s].messages| + 1
    ensures db.sessions[s].active.Some? ==>
              db.sessions[s].active.value in db.runs && db.runs[db.sessions[s].active.value].session == s
  {
    hide RunSound, RunPlaced, SightSound, MessagePlaced;
    assert SessionSound(db, s);
  }

  /** The session after a step that adds no message. */
  lemma SilentSession(db: Db, a: Action, s: SessionId)
    requires Inv(db) && s in db.sessions && !PostsTo(db, a, s) && !AnswersIn(db, a, s)
    ensures SessionAfter(db, a, s) == if Frees(db, a, s) then db.sessions[s].(active := None) else db.sessions[s]
  {
    hide Inv, PostsTo, AnswersIn, Frees;
    SessionIs(db, s);
  }

  lemma OnlyPosts(db: Db, a: Action, s: SessionId)
    ensures !a.PostMessage? ==> !PostsTo(db, a, s)
    ensures !a.CommitResult? ==> !AnswersIn(db, a, s)
    ensures s in db.sessions && Frees(db, a, s) ==>
              a.CommitResult? || a.ConfirmCancellation? || a.TerminalCallback? || a.TakeBrowser?
  {
    hide Delivers, TakesBrowser, PostReplyFor;
  }

  lemma PostSession(db: Db, a: Action, s: SessionId)
    requires Inv(db) && a.PostMessage? && s in db.sessions
    ensures s in Next(db, a).sessions && Next(db, a).sessions[s] == SessionAfter(db, a, s)
  {
    hide Inv, PostReplyFor, NewRun, Frees, AnswersIn, Next, Post;
    SessionIs(db, s);
    OnlyPosts(db, a, s);
    PostIsNew(db, a.request);
    PostedSession(db, a.request, s);
  }

  lemma PostedSession(db: Db, q: PostRequest, s: SessionId)
    requires s in db.sessions
    ensures s in Next(db, PostMessage(q)).sessions
    ensures var row := db.sessions[s];
            Next(db, PostMessage(q)).sessions[s]
            == if PostReplyFor(db, q).Posted? && q.session == s then
                 Session(row.owner, Some(q.run), row.nextMessage + 1, row.messages + [Message(row.nextMessage, User, q.run, false)])
               else row
  {
    PostIsNew(db, q);
    hide PostReplyFor, NewRun;
  }

  lemma NextIs(db: Db, a: Action)
    ensures a.ConfirmCancellation? ==> Next(db, a) == ConfirmCancel(db, a.run)
    ensures a.CommitResult? ==> Next(db, a) == Succeed(db, a.run, a.result)
    ensures a.TerminalCallback? ==> Next(db, a) == ReleaseIfTerminal(db, a.run, a.status)
    ensures a.TakeBrowser? ==> Next(db, a) == Take(db, a.actor, a.session, a.refused, a.signingKey, a.now, a.ttl)
  {
    hide ConfirmCancel, Succeed, ReleaseIfTerminal, Take;
  }

  /** The session s as it was, or freed. */
  function Kept(db: Db, s: SessionId, freed: bool): Session
    requires s in db.sessions
  {
    if freed then db.sessions[s].(active := None) else db.sessions[s]
  }

  lemma Released(db: Db, at: SessionId, r: RunId, s: SessionId)
    requires s in db.sessions
    ensures s in Release(db, at, r).sessions
    ensures Release(db, at, r).sessions[s] == Kept(db, s, s == at && db.sessions[s].active == Some(r))
  {
  }

  /** Where only the holder of the session decides. */
  lemma SameHome(db: Db, s: SessionId, r: RunId)
    requires Inv(db) && s in db.sessions && r in db.runs
    ensures db.sessions[s].active == Some(r) ==> db.runs[r].session == s
  {
    SessionIs(db, s);
    hide Inv;
  }

  // ---- the executor's commits --------------------------------------------------------------------------------

  /** The session in which the executor's commit frees the turn r, or does not. */
  lemma CommitFrees(db: Db, a: Action, s: SessionId)
    requires (a.CommitResult? || a.ConfirmCancellation?) && s in db.sessions
    ensures Frees(db, a, s) <==>
              && a.run in db.runs && db.sessions[s].active == Some(a.run)
              && (|| db.runs[a.run].status.CancelRequested? || (a.CommitResult? && Delivers(db, a, a.run))
                  || (a.ConfirmCancellation? && db.runs[a.run].status.Cancelled?))
  {
    hide Delivers;
  }

  lemma NoAnswer(db: Db, a: Action, s: SessionId)
    requires a.CommitResult? && (a.run !in db.runs || !Delivers(db, a, a.run))
    ensures !AnswersIn(db, a, s)
  {
    hide Delivers;
  }

  lemma CancelledGivesNothing(db: Db, a: Action)
    requires a.CommitResult? && Is(db, a.run, CancelRequested)
    ensures !Delivers(db, a, a.run)
  {
    hide ArtifactAnswers.Clashes, CurrentFences;
  }

  lemma CancellingSession(db: Db, a: Action, s: SessionId)
    requires Inv(db) && (a.CommitResult? || a.ConfirmCancellation?) && s in db.sessions && Is(db, a.run, CancelRequested)
    ensures s in Next(db, a).sessions && Next(db, a).sessions[s] == SessionAfter(db, a, s)
  {
    hide Inv, Next, Delivers, SessionAfter, Frees, AnswersIn, CommitCancellation;
    NextIs(db, a);
    CancellationIs(db, a.run);
    HolderOf(db, a.run);
    SameHome(db, s, a.run);
    CommitFrees(db, a, s);
    OnlyPosts(db, a, s);
    if a.CommitResult? { CancelledGivesNothing(db, a); NoAnswer(db, a, s); }
    SilentSession(db, a, s);
  }

  lemma ConfirmingSession(db: Db, a: Action, s: SessionId)
    requires Inv(db) && a.ConfirmCancellation? && s in db.sessions && !Is(db, a.run, CancelRequested)
    ensures s in Next(db, a).sessions && Next(db, a).sessions[s] == SessionAfter(db, a, s)
  {
    hide Inv, Next, Delivers, SessionAfter, Frees, AnswersIn, CommitCancellation, Release;
    NextIs(db, a);
    CommitFrees(db, a, s);
    OnlyPosts(db, a, s);
    SilentSession(db, a, s);
    if a.run in db.runs {
      SameHome(db, s, a.run);
      Released(db, db.runs[a.run].session, a.run, s);
    }
  }

  lemma AnsweringSession(db: Db, a: Action, s: SessionId)
    requires Inv(db) && a.CommitResult? && a.run in db.runs && Delivers(db, a, a.run) && s in db.sessions
    ensures s in Next(db, a).sessions && Next(db, a).sessions[s] == SessionAfter(db, a, s)
  {
    hide Inv, Next, Delivers, PostsTo, Frees, Succeed;
    DeliversIff(db, a.run, a.result);
    NextIs(db, a);
    HolderOf(db, a.run) by { hide Holds, SuccessCommits; SuccessIs(db, a.run, a.result); }
    AnswerWrites(db, a.run, a.result, s);
    SameHome(db, s, a.run);
    SessionIs(db, s);
    CommitFrees(db, a, s);
    OnlyPosts(db, a, s);
    hide SuccessCommits;
  }

  lemma AnswerWrites(db: Db, r: RunId, result: TurnResult, s: SessionId)
    requires SuccessCommits(db, r, result) && s in db.sessions
    ensures r in db.runs && s in Succeed(db, r, result).sessions
    ensures var row := db.sessions[s];
            Succeed(db, r, result).sessions[s]
            == if s != db.runs[r].session then row
               else Session(row.owner, None, row.nextMessage + 1, row.messages + [Message(row.nextMessage, Assistant, r, result.cited)])
  {
    SuccessIs(db, r, result);
    hide SucceededRun, ShelfOnSuccess, CommitCancellation;
  }

  /** A result that neither succeeds nor meets a cancellation changes nothing. */
  lemma IgnoredResult(db: Db, r: RunId, result: TurnResult)
    requires Inv(db) && !Is(db, r, CancelRequested) && (r in db.runs ==> !Delivers(db, CommitResult(r, result), r))
    ensures Next(db, CommitResult(r, result)) == db
  {
    hide Inv, Next, Delivers, SucceededRun, CommitCancellation, ShelfOnSuccess, CurrentFences;
    NextIs(db, CommitResult(r, result));
    if r in db.runs { DeliversIff(db, r, result); }
  }

  lemma IgnoredSession(db: Db, a: Action, s: SessionId)
    requires Inv(db) && a.CommitResult? && s in db.sessions
    requires !Is(db, a.run, CancelRequested) && (a.run in db.runs ==> !Delivers(db, a, a.run))
    ensures s in Next(db, a).sessions && Next(db, a).sessions[s] == SessionAfter(db, a, s)
  {
    hide Inv, Next, Delivers, SessionAfter, Frees, AnswersIn;
    IgnoredResult(db, a.run, a.result);
    OnlyPosts(db, a, s);
    CommitFrees(db, a, s);
    NoAnswer(db, a, s);
    SilentSession(db, a, s);
  }

  lemma CommitSession(db: Db, a: Action, s: SessionId)
    requires Inv(db) && (a.CommitResult? || a.ConfirmCancellation?) && s in db.sessions
    ensures s in Next(db, a).sessions && Next(db, a).sessions[s] == SessionAfter(db, a, s)
  {
    hide Inv, Next, Delivers, SessionAfter;
    if Is(db, a.run, CancelRequested) { CancellingSession(db, a, s); }
    else if a.ConfirmCancellation? { ConfirmingSession(db, a, s); }
    else if a.run in db.runs && Delivers(db, a, a.run) { AnsweringSession(db, a, s); }
    else { IgnoredSession(db, a, s); }
  }

  // ---- releases ---------------------------------------------------------------------------------------------------

  lemma CallbackSession(db: Db, a: Action, s: SessionId)
    requires Inv(db) && a.TerminalCallback? && s in db.sessions
    ensures s in Next(db, a).sessions && Next(db, a).sessions[s] == SessionAfter(db, a, s)
  {
    hide Inv, Next, Delivers, SessionAfter, AnswersIn, Release, PostsTo;
    NextIs(db, a);
    OnlyPosts(db, a, s);
    SilentSession(db, a, s);
    if a.run in db.runs {
      SameHome(db, s, a.run);
      Released(db, db.runs[a.run].session, a.run, s);
    }
  }

  lemma TakenSessions(db: Db, a: Action)
    requires a.TakeBrowser?
    ensures Next(db, a).sessions == if TakesBrowser(db, a, a.session) then Vacated(db, a.session).sessions else db.sessions
  {
    hide SaveControl, SameControl, Busy, NewControl, Vacated, Next;
    NextIs(db, a);
    if MayTake(db, a.actor, a.session, a.refused, a.now) {
      var vacated := Vacated(db, a.session);
      VacatedFrame(db, a.session);
      if Driven(db, a.session) { SaveControlFramed(vacated, a.session, vacated.controls[a.session].(status := Expired)); }
      var closed := if Driven(db, a.session) then CloseControl(vacated, a.session, Expired) else vacated;
      SaveControlFramed(closed, a.session, NewControl(db, a.session, a.signingKey, a.now, a.ttl));
    }
  }

  lemma VacatedSession(db: Db, at: SessionId, s: SessionId)
    requires s in db.sessions && at in db.sessions
    ensures s in Vacated(db, at).sessions
    ensures Vacated(db, at).sessions[s] == Kept(db, s, s == at && db.sessions[s].active.Some?)
  {
  }

  lemma TakeFrees(db: Db, a: Action, s: SessionId)
    requires Inv(db) && a.TakeBrowser? && s in db.sessions
    ensures Frees(db, a, s) <==> db.sessions[s].active.Some? && s == a.session && TakesBrowser(db, a, a.session)
    ensures TakesBrowser(db, a, a.session) ==> a.session in db.sessions
  {
    hide Inv, TakesBrowser, Delivers;
    SessionIs(db, s);
    if TakesBrowser(db, a, s) { TakesOwn(db, a, s); }
    if TakesBrowser(db, a, a.session) { TakesOwn(db, a, a.session); }
  }

  lemma TakesOwn(db: Db, a: Action, s: SessionId)
    requires TakesBrowser(db, a, s)
    ensures a.TakeBrowser? && a.session == s && s in db.sessions
  {
    hide SameControl, Busy, SandboxAvailable;
  }

  lemma TakeSession(db: Db, a: Action, s: SessionId)
    requires Inv(db) && a.TakeBrowser? && s in db.sessions
    ensures s in Next(db, a).sessions && Next(db, a).sessions[s] == SessionAfter(db, a, s)
  {
    hide Inv, Next, SessionAfter, TakesBrowser, Vacated, Frees, PostsTo, AnswersIn;
    OnlyPosts(db, a, s);
    SilentSession(db, a, s);
    TakenSessions(db, a);
    TakeFrees(db, a, s);
    if TakesBrowser(db, a, a.session) { VacatedSession(db, a.session, s); }
  }

  lemma PlainSession(db: Db, a: Action, s: SessionId)
    requires Inv(db) && s in db.sessions
    requires !a.PostMessage? && !a.CommitResult? && !a.ConfirmCancellation? && !a.TerminalCallback? && !a.TakeBrowser?
    ensures s in Next(db, a).sessions && Next(db, a).sessions[s] == SessionAfter(db, a, s)
  {
    hide Inv, Next, SessionAfter, Frees;
    OnlyPosts(db, a, s);
    SilentSession(db, a, s);
    PlainSessions(db, a, s);
  }

  lemma PlainSessions(db: Db, a: Action, s: SessionId)
    requires !a.PostMessage? && !a.CommitResult? && !a.ConfirmCancellation? && !a.TerminalCallback? && !a.TakeBrowser?
    requires s in db.sessions
    ensures s in Next(db, a).sessions && Next(db, a).sessions[s] == db.sessions[s]
  {
    hide Next, Beside, ToolStep, ToolShape;
    if AboutTools(a) {
      NextIsBeside(db, a);
      ToolSteps(db, a);
    } else if AboutLease(a) {
      NextIsBeside(db, a);
      BesideOnlyLease(db, a);
    } else if AboutBrowser(a) {
      NextIsBeside(db, a);
      ClosingSessions(db, a);
    } else {
      TurnStepSessions(db, a, s);
    }
  }

  lemma ClosingSessions(db: Db, a: Action)
    requires a.PeekBrowser? || a.EndBrowser?
    ensures Beside(db, a).sessions == db.sessions
  {
    hide SaveControl, Fits, Live;
    if Driven(db, a.session) {
      SaveControlFramed(db, a.session, db.controls[a.session].(status := Expired));
      SaveControlFramed(db, a.session, db.controls[a.session].(status := Ended));
    }
  }

  lemma TurnStepSessions(db: Db, a: Action, s: SessionId)
    requires !a.PostMessage? && !a.CommitResult? && !a.ConfirmCancellation? && !a.TerminalCallback?
    requires !AboutTools(a) && !AboutLease(a) && !AboutBrowser(a) && s in db.sessions
    ensures s in Next(db, a).sessions && Next(db, a).sessions[s] == db.sessions[s]
  {
    hide Append, UsedRun, Ledger.Apply, Artifacts.Submit, Artifacts.Reject, ClaimCommits;
  }

  /** In every reachable state every transaction does to every session exactly what `SessionAfter` says: who holds it and
      what its transcript gains. */
  lemma EverySessionMovesExactly(db: Db, a: Action, s: SessionId)
    requires Reachable(db) && s in db.sessions
    ensures s in Next(db, a).sessions && Next(db, a).sessions[s] == SessionAfter(db, a, s)
  {
    hide Inv, Next, SessionAfter, Reachable;
    ReachableSound(db);
    if a.PostMessage? { PostSession(db, a, s); }
    else if a.CommitResult? || a.ConfirmCancellation? { CommitSession(db, a, s); }
    else if a.TerminalCallback? { CallbackSession(db, a, s); }
    else if a.TakeBrowser? { TakeSession(db, a, s); }
    else { PlainSession(db, a, s); }
  }
}
