/** What callers of the turn's services can rely on: results, submissions, tool calls and the browser. */
module TurnAnswers {
  import opened Wrappers
  import opened Runs
  import opened TurnProtocol
  import opened TurnInvariant
  import opened TurnTheorems
  import opened TurnMoves
  import opened TurnSessions
  import opened TurnTables
  import TurnEnd
  import ArtifactAnswers
  import ArtifactTheorems
  import Artifacts

  // ---- results ----------------------------------------------------------------------------------------------

  /** A result that comes after the cancellation ends the turn cancelled, whatever it says: the session is free, the log
      gains exactly the two closing events, and nothing of the result is kept. In every other status but RUNNING it
      changes nothing at all. */
  lemma LateResult(db: Db, r: RunId, result: TurnResult)
    requires Reachable(db) && r in db.runs && !db.runs[r].status.Running?
    ensures var db' := Next(db, CommitResult(r, result)); var run := db.runs[r];
            if run.status.CancelRequested? then
              && r in db'.runs && run.session in db.sessions && run.session in db'.sessions
              && db'.runs[r] == run.(status := Cancelled, nextEvent := run.nextEvent + 2,
                                     events := run.events + [Event(run.nextEvent, RunCancelled), Event(run.nextEvent + 1, TurnCancelled)])
              && db'.sessions[run.session] == db.sessions[run.session].(active := None)
              && Holds(db, run.session, r) && !Holds(db', run.session, r)
            else db' == db
  {
    hide Reachable, Inv, Next, CommitCancellation, Delivers;
    ReachableSound(db);
    NextIs(db, CommitResult(r, result));
    if db.runs[r].status.CancelRequested? {
      CancellationIs(db, r);
      HolderOf(db, r);
      assert Numbered(db.runs[r].nextEvent, [RunCancelled, TurnCancelled])
          == [Event(db.runs[r].nextEvent, RunCancelled), Event(db.runs[r].nextEvent + 1, TurnCancelled)];
    } else {
      OnlyRunningDelivers(db, r, result);
      IgnoredResult(db, r, result);
    }
  }

  lemma OnlyRunningDelivers(db: Db, r: RunId, result: TurnResult)
    requires r in db.runs && !db.runs[r].status.Running?
    ensures !Delivers(db, CommitResult(r, result), r)
  {
    hide ArtifactAnswers.Clashes, CurrentFences;
  }

  /** The events of an answer behind the log so far. */
  predicate AnswerLog(events: seq<Event>, events': seq<Event>, next: nat, staged: nat, shown: nat) {
    && events <= events' && |events'| == |events| + staged + shown + 2
    && var added := events'[|events|..];
       forall k :: 0 <= k < |added| ==>
         added[k] == Event(next + k, if k == 0 then RuntimeBound else if k <= staged then ArtifactStaged
                                     else if k <= staged + shown then ArtifactCommitted else TurnSucceeded)
  }

  /** The log of an answer: the binding of the runtime, one event for each reported content, one for each artifact, and the
      success; the answer is the last message of its session, which is free again. */
  lemma AnswerIsLogged(db: Db, r: RunId, result: TurnResult)
    requires Reachable(db) && r in db.runs && Delivers(db, CommitResult(r, result), r)
    ensures var db' := Next(db, CommitResult(r, result)); var run := db.runs[r];
            var staged := |Artifacts.Requested(result.reports)|; var shown := Artifacts.Count(run.shelf.candidates, Artifacts.IsReviewed);
            && r in db'.runs && db'.runs[r].status.Succeeded?
            && AnswerLog(run.events, db'.runs[r].events, run.nextEvent, staged, shown)
            && run.session in db.sessions && run.session in db'.sessions && db'.sessions[run.session].active.None?
            && var messages := db.sessions[run.session].messages;
               db'.sessions[run.session].messages == messages + [Message(|messages| + 1, Assistant, r, result.cited)]
  {
    hide Reachable, Inv, Next, Delivers, ShelfAfter, Artifacts.Requested, Artifacts.Count, StatusAfter, Written, SessionAfter;
    var a := CommitResult(r, result);
    EveryTurnMovesExactly(db, a, r);
    CommitTable(db, a, r);
    ReachableSound(db);
    HolderOf(db, r) by { DeliversIff(db, r, result); SuccessIs(db, r, result); }
    EverySessionMovesExactly(db, a, db.runs[r].session);
    AnswerSessionIs(db, a);
    hide RunAfter;
    RunAfterLog(db, a, r);
  }

  lemma RunAfterLog(db: Db, a: Action, r: RunId)
    requires r in db.runs
    ensures RunAfter(db, a, r).events == db.runs[r].events + Numbered(db.runs[r].nextEvent, Written(db, a, r))
    ensures RunAfter(db, a, r).status == StatusAfter(db, a, r)
  {
    hide Written, StatusAfter, ShelfAfter, Delivers;
  }

  lemma AnswerSessionIs(db: Db, a: Action)
    requires a.CommitResult? && a.run in db.runs && Delivers(db, a, a.run) && Holds(db, db.runs[a.run].session, a.run)
    ensures var s := db.runs[a.run].session;
            SessionAfter(db, a, s)
            == Session(db.sessions[s].owner, None, |db.sessions[s].messages| + 2,
                       db.sessions[s].messages + [Message(|db.sessions[s].messages| + 1, Assistant, a.run, a.result.cited)])
  {
    hide Delivers;
  }

  // ---- submissions --------------------------------------------------------------------------------------------

  /** A rejection of content that is new to a RUNNING turn is recorded with its event, and recording it again changes
      nothing; in any other status nothing is recorded. */
  lemma RejectionIsLogged(db: Db, r: RunId, toolCall: string, fact: Artifacts.Fact, code: string)
    requires Reachable(db) && r in db.runs
    requires ArtifactAnswers.NewTo(db.runs[r].shelf.candidates, Artifacts.Submission(toolCall), fact.digest)
    ensures var a := RejectArtifact(r, toolCall, fact, code); var run := db.runs[r]; var db' := Next(db, a);
            && r in db'.runs && Next(db', a) == db'
            && db'.runs[r] == (if run.status.Running? then
                                 run.(events := run.events + [Event(run.nextEvent, ArtifactRejected)], nextEvent := run.nextEvent + 1,
                                      shelf := run.shelf.(candidates := run.shelf.candidates
                                        + [Artifacts.Candidate(Artifacts.Submission(toolCall), fact, Artifacts.Rejected(code))]))
                               else run)
  {
    hide Reachable, Artifacts.Reject, Artifacts.Submit, ArtifactAnswers.NewTo, RunSound, Artifacts.Sound, Next;
    var run := db.runs[r];
    RejectIs(db, r, toolCall, fact, code);
    if run.status.Running? {
      ArtifactAnswers.NewRejectionIsRecorded(run.shelf, toolCall, fact, code);
      ReachableRunSound(db, r);
      ShelfIsSound(run);
      ArtifactAnswers.RejectionIsFinal(run.shelf, toolCall, fact, code, code, Artifacts.Fence(0, 0));
      assert [Event(run.nextEvent, ArtifactRejected)] == Numbered(run.nextEvent, [ArtifactRejected]);
    }
    RejectIs(Next(db, RejectArtifact(r, toolCall, fact, code)), r, toolCall, fact, code);
  }

  predicate HasRoom(cs: seq<Artifacts.Candidate>, size: nat) {
    && Artifacts.Count(cs, Artifacts.IsAccepted) + 1 <= Artifacts.MAX_PER_TURN
    && Artifacts.Bytes(cs, Artifacts.IsAccepted) + size <= Artifacts.MAX_TOTAL_BYTES
  }

  /** A submission of content that is new to a RUNNING turn is recorded with its event exactly when the turn has room for it,
      and submitting it again changes nothing; in any other status nothing is recorded. */
  lemma SubmissionIsLogged(db: Db, r: RunId, toolCall: string, fact: Artifacts.Fact, fence: Artifacts.Fence)
    requires Reachable(db) && r in db.runs
    requires ArtifactAnswers.NewTo(db.runs[r].shelf.candidates, Artifacts.Submission(toolCall), fact.digest)
    ensures var a := SubmitArtifact(r, toolCall, fact, fence); var run := db.runs[r]; var db' := Next(db, a);
            && r in db'.runs && Next(db', a) == db'
            && db'.runs[r] == (if run.status.Running? && HasRoom(run.shelf.candidates, fact.size) then
                                 run.(events := run.events + [Event(run.nextEvent, ArtifactValidated)], nextEvent := run.nextEvent + 1,
                                      shelf := run.shelf.(candidates := run.shelf.candidates
                                        + [Artifacts.Candidate(Artifacts.Submission(toolCall), fact, Artifacts.Validated(toolCall, fence))]))
                               else run)
  {
    hide Reachable, Artifacts.Reject, Artifacts.Submit, RunSound, Artifacts.Sound, Next, Inv, Holds, Artifacts.Count, Artifacts.Bytes;
    var run := db.runs[r];
    SubmitIs(db, r, toolCall, fact, fence);
    if run.status.Running? {
      ReachableSound(db);
      HolderOf(db, r);
      ArtifactTheorems.NewSubmissionRecordedIff(run.shelf, toolCall, fact, fence);
      ReachableRunSound(db, r);
      ShelfIsSound(run);
      if HasRoom(run.shelf.candidates, fact.size) {
        ArtifactTheorems.ResubmissionIsUnchanged(run.shelf, toolCall, fact, fence, toolCall, fence);
      }
      assert [Event(run.nextEvent, ArtifactValidated)] == Numbered(run.nextEvent, [ArtifactValidated]);
    }
    hide HasRoom, ArtifactAnswers.NewTo;
    SubmitIs(Next(db, SubmitArtifact(r, toolCall, fact, fence)), r, toolCall, fact, fence);
  }

  lemma SubmitIs(db: Db, r: RunId, toolCall: string, fact: Artifacts.Fact, fence: Artifacts.Fence)
    requires r in db.runs
    ensures var (shelf, reply) := Artifacts.Submit(db.runs[r].shelf, toolCall, fact, fence);
            Next(db, SubmitArtifact(r, toolCall, fact, fence))
            == if db.runs[r].status.Running? && Holds(db, db.runs[r].session, r) && reply.Recorded? then
                 WithRun(db, r, Append(db.runs[r].(shelf := shelf), [ArtifactValidated], Running))
               else db
  {
    hide Append, Artifacts.Submit, Holds;
  }

  lemma ShelfIsSound(run: Run)
    requires RunSound(run)
    ensures Artifacts.Sound(run.shelf)
  {
    hide LogSound, Artifacts.Sound;
  }

  lemma ReachableRunSound(db: Db, r: RunId)
    requires Reachable(db) && r in db.runs
    ensures RunSound(db.runs[r])
  {
    hide Reachable, RunSound, Inv;
    ReachableSound(db);
    RunIsSound(db, r);
  }

  lemma RejectIs(db: Db, r: RunId, toolCall: string, fact: Artifacts.Fact, code: string)
    requires r in db.runs
    ensures var (shelf, reply) := Artifacts.Reject(db.runs[r].shelf, toolCall, fact, code);
            Next(db, RejectArtifact(r, toolCall, fact, code))
            == if db.runs[r].status.Running? && reply.Recorded? then
                 WithRun(db, r, Append(db.runs[r].(shelf := shelf), [ArtifactRejected], Running))
               else db
  {
    hide Append, Artifacts.Reject;
  }

  // ---- tool calls ---------------------------------------------------------------------------------------------------

  /** What a caller of a tool service hears: its request took effect, the result of the call is known already, or an error. */
  datatype CallReply = Took | Known(answer: string) | Refused

  /** The answer to the beginning of a call. */
  function BeginReply(db: Db, r: RunId, id: EffectId, tool: string, arguments: string): CallReply {
    if r !in db.runs then CallReply.Refused
    else if BeginsCall(db, BeginEffect(r, id, tool, arguments), r) then Took
    else
      var run := db.runs[r];
      if run.status.Running? && InOrder(run, id, tool) && KnownCall(run, id, tool, arguments) && run.effects[id].status.Done?
      then Known(run.effects[id].status.result) else CallReply.Refused
  }

  /** The answer to the report that a call has finished; the same report again is taken for known. */
  function FinishReply(db: Db, r: RunId, id: EffectId, tool: string, arguments: string, attempt: nat, answer: string): CallReply {
    if r !in db.runs || !db.runs[r].status.Running? || !InOrder(db.runs[r], id, tool) then CallReply.Refused
    else if InFlightCall(db.runs[r], id, tool, arguments, attempt) then Took
    else if KnownCall(db.runs[r], id, tool, arguments) && db.runs[r].effects[id].status == EffectStatus.Done(answer) then Known(answer)
    else CallReply.Refused
  }

  /** The call succeeded, or failed for good. */
  predicate Settled(run: Run, id: EffectId) {
    id in run.effects && match run.effects[id].status
                         case Done(_) => true
                         case Broken(kind) => !kind.Temporary?
                         case InFlight => false
  }

  lemma SettledStays(db: Db, a: Action, r: RunId, id: EffectId)
    requires Reachable(db) && r in db.runs && Settled(db.runs[r], id)
    ensures r in Next(db, a).runs && Settled(Next(db, a).runs[r], id)
    ensures Next(db, a).runs[r].effects[id] == db.runs[r].effects[id]
  {
    hide Reachable, Next, StatusAfter, Written, Delivers, ShelfAfter, InOrder, ClosesControl, BeginsControl;
    EveryTurnMovesExactly(db, a, r);
    hide MovesExactly, CallValid, ToolPermitted;
  }

  /** What became of a call is final over every further run of transactions. */
  lemma {:induction false} SettledCallsAreFinal(db: Db, actions: seq<Action>, r: RunId, id: EffectId)
    requires Reachable(db) && r in db.runs && Settled(db.runs[r], id)
    ensures var later := Play(db, actions);
            r in later.runs && Settled(later.runs[r], id) && later.runs[r].effects[id] == db.runs[r].effects[id]
  {
    hide Reachable, Next, Settled;
    if actions != [] {
      var n := |actions| - 1;
      SettledCallsAreFinal(db, actions[..n], r, id);
      ReachablePlay(db, actions[..n]);
      SettledStays(Play(db, actions[..n]), actions[n], r, id);
    }
  }

  /** A call that finished is never made again: at any later time the same call is answered with its result, as long as
      the turn runs, and changes nothing. */
  lemma FinishedCallIsRemembered(db: Db, r: RunId, id: EffectId, tool: string, arguments: string, attempt: nat, answer: string,
                                 actions: seq<Action>)
    requires Reachable(db) && r in db.runs && FinishesCall(db, FinishEffect(r, id, tool, arguments, attempt, answer), r)
    ensures var later := Play(Next(db, FinishEffect(r, id, tool, arguments, attempt, answer)), actions);
            && r in later.runs && KnownCall(later.runs[r], id, tool, arguments) && later.runs[r].effects[id].status == EffectStatus.Done(answer)
            && (later.runs[r].status.Running? ==> BeginReply(later, r, id, tool, arguments) == Known(answer))
            && (later.runs[r].status.Running? ==> FinishReply(later, r, id, tool, arguments, attempt, answer) == Known(answer))
            && Next(later, BeginEffect(r, id, tool, arguments)) == later
  {
    hide Reachable, Next, Play, StatusAfter, Written, Delivers, ShelfAfter, InOrder, CallsPermitted;
    var a := FinishEffect(r, id, tool, arguments, attempt, answer);
    var db' := Next(db, a);
    EveryTurnMovesExactly(db, a, r);
    ReachableNext(db, a);
    SettledCallsAreFinal(db', actions, r, id);
    ReachablePlay(db', actions);
    var later := Play(db', actions);
    PermittedCalls(later, r);
    InOrderIfKnown(later.runs[r], id);
    hide RunAfter;
    BegunSame(later, r, id, tool, arguments);
  }

  lemma InOrderIfKnown(run: Run, id: EffectId)
    requires CallsPermitted(run) && id in run.effects
    ensures InOrder(run, id, run.effects[id].tool)
  {
    hide CallValid, ToolPermitted;
  }

  lemma BegunSame(db: Db, r: RunId, id: EffectId, tool: string, arguments: string)
    requires r in db.runs && Settled(db.runs[r], id)
    ensures Next(db, BeginEffect(r, id, tool, arguments)) == db
  {
    NextIsBeside(db, BeginEffect(r, id, tool, arguments));
    hide Next, CallValid, ToolPermitted, Noted;
    assert db.runs[r := db.runs[r]] == db.runs;
  }

  /** A call whose attempt failed for the time being begins again, as the next attempt. */
  lemma BrokenCallBeginsAgain(db: Db, r: RunId, id: EffectId)
    requires Reachable(db) && r in db.runs && db.runs[r].status.Running?
    requires id in db.runs[r].effects && db.runs[r].effects[id].status == Broken(Temporary)
    ensures var row := db.runs[r].effects[id];
            && BeginReply(db, r, id, row.tool, row.arguments) == Took
            && var db' := Next(db, BeginEffect(r, id, row.tool, row.arguments));
               r in db'.runs && db'.runs[r].effects == db.runs[r].effects[id := row.(status := InFlight, attempt := row.attempt + 1)]
  {
    hide Reachable, Next, StatusAfter, Written, Delivers, ShelfAfter, InOrder, CallsPermitted;
    PermittedCalls(db, r);
    InOrderIfKnown(db.runs[r], id);
    var row := db.runs[r].effects[id];
    EveryTurnMovesExactly(db, BeginEffect(r, id, row.tool, row.arguments), r);
  }

  // ---- the browser -----------------------------------------------------------------------------------------------------

  /** Whoever takes the browser gets a control that is good: it runs, it belongs to the sandbox as it is and to the turn that
      holds it, under the caller's key, and for at most five minutes. */
  lemma TakenControlIsGood(db: Db, a: Action)
    requires Reachable(db) && a.TakeBrowser? && TakesBrowser(db, a, a.session)
    ensures var db' := Next(db, a); var s := a.session;
            && s in db'.controls && s in db'.sandboxes && db'.sandboxes == db.sandboxes
            && var c := db'.controls[s];
               && c.status.Manual? && Live(c, a.now) && Fits(db', s, c) && c.signedWith == a.signingKey
               && (BeginsControl(db, a) ==> c.anchor == db.sandboxes[s].holder && c.expiresAt <= a.now + MAX_CONTROL_SECONDS)
               && (!BeginsControl(db, a) ==> s in db.controls && c == db.controls[s])
  {
    hide Reachable, Next, Inv, Busy, Fits, Live;
    ControlsMoveExactly(db, a, a.session);
    NextIsBeside(db, a);
    TurnEnd.BrowserRows(db, a);
    if BeginsControl(db, a) {
      NewControlIsGood(db, a, Next(db, a));
    } else {
      SameFits(db, Next(db, a), a.session);
    }
  }

  lemma SameFits(db: Db, db': Db, s: SessionId)
    requires db'.sandboxes == db.sandboxes && s in db.controls
    ensures Fits(db, s, db.controls[s]) <==> Fits(db', s, db.controls[s])
  {
  }

  lemma NewControlIsGood(db: Db, a: Action, db': Db)
    requires a.TakeBrowser? && BeginsControl(db, a) && a.session in db.sandboxes && db'.sandboxes == db.sandboxes && a.session in db'.controls
    requires var box := db.sandboxes[a.session];
             db'.controls[a.session] == Control(box.holder, box.generation, box.fence, Manual, db'.controls[a.session].revision,
                                                Min(box.expiresAt, a.now + Min(a.ttl, MAX_CONTROL_SECONDS)), a.signingKey)
    ensures var c := db'.controls[a.session];
            Live(c, a.now) && Fits(db', a.session, c) && c.expiresAt <= a.now + MAX_CONTROL_SECONDS
  {
    BeginsTakes(db, a);
    assert a.ttl > 0;
    hide BeginsControl, TakesBrowser;
  }

  /** The transaction leaves the session's control no longer matching its sandbox: the sandbox is taken for another turn or anew
      or until too early a time, marked dirty, or retired. */
  predicate Unfits(db: Db, a: Action, s: SessionId)
    requires s in db.controls && s in db.sandboxes
  {
    var box := db.sandboxes[s];
    if TakesSandbox(db, a, s) then !a.reuse || a.run != box.holder || a.now + a.ttl < db.controls[s].expiresAt
    else a == DirtySandbox(s, box.generation, box.fence) || (a.RetireSandbox? && a.session == s && box.expiresAt <= a.now)
  }

  /** A control that fits its sandbox stops fitting in a transaction that leaves it in force if and only if the transaction
      takes the sandbox away from it. */
  lemma ControlFitsUntil(db: Db, a: Action, s: SessionId)
    requires s in db.controls && Fits(db, s, db.controls[s])
    requires s in Next(db, a).controls && Next(db, a).controls[s] == db.controls[s]
    ensures Fits(Next(db, a), s, db.controls[s]) <==> !Unfits(db, a, s)
  {
    LeasesMoveExactly(db, a, s);
    hide Next, TakesSandbox;
  }
}
