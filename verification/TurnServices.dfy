/** The services that move turns, as transactions in the order the code issues its statements. Each
    is proved equal to its step of the protocol, so every run of the services is a run of it. */
module TurnServices {
  import opened Wrappers
  import opened Runs
  import opened TurnProtocol
  import opened TurnInvariant
  import opened Store
  import Artifacts
  import ArtifactServices
  import ArtifactTheorems
  import Ledger

  class AgentSessionService {
    const database: Database

    constructor (d: Database)
      ensures database == d
    {
      database := d;
    }

    method PostMessage(q: PostRequest) returns (reply: PostReply)
      requires Inv(database.state)
      modifies database
      ensures reply == PostReplyFor(old(database.state), q)
      ensures database.state == Post(old(database.state), q)
    {
      hide Inv, NewRun;
      var slot := (q.actor, q.key);
      if !q.stale && slot in database.state.receipts {
        var existing := database.state.receipts[slot];
        return if existing.fingerprint == q.fingerprint then AlreadyPosted(existing.run) else Refused(IdempotencyConflict);
      }
      var tx := new Transaction(database);
      if !Visible(tx.work, q.session, q.actor) {
        return Refused(SessionNotFound);
      }
      if q.refusedEarly {
        return Refused(ScopeRefused);
      }
      if Driven(tx.work, q.session) {
        return Refused(BrowserControlBusy);
      }
      var active := tx.work.sessions[q.session].active;
      if active.Some? {
        if active.value in tx.work.runs && !Terminal(tx.work.runs[active.value].status) {
          return Refused(SessionBusy);
        }
        var _ := tx.ReleaseActiveTurn(q.session, active.value);
      }
      if q.refusedLate || !Ledger.PolicyValid(q.policy) {
        return Refused(InputRefused);
      }
      if q.run in tx.work.runs {
        return Refused(UniqueViolation);
      }
      var sequence := tx.AllocateMessageSequence(q.session);
      var claimed := AddTurn(tx, q, sequence);
      assert claimed;
      var added := tx.AddReceipt(slot, Receipt(q.fingerprint, q.run));
      if !added {
        return Refused(UniqueViolation);
      }
      assert tx.work.runs == Post(old(database.state), q).runs;
      assert tx.work.sessions == Post(old(database.state), q).sessions;
      tx.Commit();
      return Posted(q.run);
    }

    /** The run, the user's message, the claim of the session and the first two events; false stands
        for the exception that the session is busy after all. */
    method AddTurn(tx: Transaction, q: PostRequest, sequence: nat) returns (claimed: bool)
      requires q.session in tx.work.sessions
      modifies tx
      ensures claimed <==> old(tx.work).sessions[q.session].active.None?
      ensures claimed ==>
                var s := old(tx.work).sessions[q.session];
                tx.work == old(tx.work).(
                  runs := old(tx.work).runs[q.run := NewRun(q, sequence)],
                  sessions := old(tx.work).sessions[q.session := s.(active := Some(q.run),
                                                      messages := s.messages + [Message(sequence, User, q.run, false)])])
    {
      hide NewRun;
      var run := Run(q.actor, q.session, sequence, Queued, 3, [], 0, Artifacts.EMPTY_SHELF, Ledger.Opened(q.policy), map[]);
      tx.SaveRun(q.run, run);
      tx.AddMessage(q.session, Message(sequence, User, q.run, false));
      claimed := tx.TryClaimActiveTurn(q.session, q.run);
      if claimed {
        var first := tx.AddEvent(q.run, 1, RunCreated);
        var second := tx.AddEvent(q.run, 2, MessageAccepted);
        assert first && second;
        NewRunEvents(q, run, sequence);
      }
    }
  }

  lemma NewRunEvents(q: PostRequest, run: Run, n: nat)
    requires run == Run(q.actor, q.session, n, Queued, 3, [], 0, Artifacts.EMPTY_SHELF, Ledger.Opened(q.policy), map[])
    ensures run.(events := run.events + [Event(1, RunCreated)] + [Event(2, MessageAccepted)]) == NewRun(q, n)
  {
    assert run.events + [Event(1, RunCreated)] + [Event(2, MessageAccepted)] == Numbered(1, [RunCreated, MessageAccepted]);
  }

  // ---- execution ------------------------------------------------------------------------------------

  /** Adds events of one kind, one per element of the list the caller walks. */
  method AddEach(tx: Transaction, r: RunId, sequence: nat, kind: Kind, count: nat) returns (next: nat)
    requires r in tx.work.runs && Free(tx.work, r, sequence)
    modifies tx
    ensures next == sequence + count
    ensures tx.work == WithEvents(old(tx.work), r, sequence, Repeat(kind, count))
  {
    ghost var before := tx.work;
    next := sequence;
    assert WithEvents(before, r, sequence, Repeat(kind, 0)) == before by {
      assert before.runs[r].events + Numbered(sequence, Repeat(kind, 0)) == before.runs[r].events;
    }
    for i := 0 to count
      invariant next == sequence + i
      invariant tx.work == WithEvents(before, r, sequence, Repeat(kind, i))
    {
      StillFree(before, r, sequence, Repeat(kind, i));
      var added := tx.AddEvent(r, next, kind);
      OneEvent(WithEvents(before, r, sequence, Repeat(kind, i)), r, next, kind);
      MoreEvents(before, r, sequence, Repeat(kind, i), [kind]);
      assert Repeat(kind, i) + [kind] == Repeat(kind, i + 1);
      next := next + 1;
    }
  }

  /** Writes the events of a successful turn and returns the number after the last of them. */
  method AddSuccessEvents(tx: Transaction, r: RunId, sequence: nat, staged: nat, published: nat) returns (next: nat)
    requires r in tx.work.runs && Free(tx.work, r, sequence)
    modifies tx
    ensures next == sequence + |SuccessKinds(staged, published)|
    ensures tx.work == WithEvents(old(tx.work), r, sequence, SuccessKinds(staged, published))
  {
    hide WithEvents;
    ghost var before := tx.work;
    ghost var kinds := [RuntimeBound];
    var bound := tx.AddEvent(r, sequence, RuntimeBound);
    OneEvent(before, r, sequence, RuntimeBound);
    RunKept(before, r, sequence, kinds);
    StillFree(before, r, sequence, kinds);
    next := AddEach(tx, r, sequence + 1, ArtifactStaged, staged);
    MoreEvents(before, r, sequence, kinds, Repeat(ArtifactStaged, staged));
    kinds := kinds + Repeat(ArtifactStaged, staged);
    RunKept(before, r, sequence, kinds);
    StillFree(before, r, sequence, kinds);
    next := AddEach(tx, r, next, ArtifactCommitted, published);
    MoreEvents(before, r, sequence, kinds, Repeat(ArtifactCommitted, published));
    kinds := kinds + Repeat(ArtifactCommitted, published);
    RunKept(before, r, sequence, kinds);
    StillFree(before, r, sequence, kinds);
    var done := tx.AddEvent(r, next, TurnSucceeded);
    OneEvent(WithEvents(before, r, sequence, kinds), r, next, TurnSucceeded);
    MoreEvents(before, r, sequence, kinds, [TurnSucceeded]);
    assert bound && done;
    next := next + 1;
  }

  lemma RunKept(db: Db, r: RunId, sequence: nat, kinds: seq<Kind>)
    requires r in db.runs
    ensures r in WithEvents(db, r, sequence, kinds).runs
  {
  }

  lemma CounterFree(db: Db, r: RunId)
    requires Inv(db) && r in db.runs
    ensures Free(db, r, db.runs[r].nextEvent)
  {
    hide RunPlaced, SessionSound, SightSound, RowsSound, LogFits, BudgetReported;
    assert RunSound(db.runs[r]);
  }

  class AgentTurnExecutor {
    const database: Database

    constructor (d: Database)
      ensures database == d
    {
      database := d;
    }

    /** Ends a cancelled turn inside the caller's transaction; false stands for the exception that the
        session is held by another run. */
    method CommitCancellationInSession(tx: Transaction, r: RunId) returns (committed: bool)
      requires Inv(tx.work) && Is(tx.work, r, CancelRequested)
      modifies tx
      ensures committed && tx.work == TurnProtocol.CommitCancellation(old(tx.work), r)
    {
      hide Inv;
      ghost var before := tx.work;
      CommitCancellationKeeps(before, r);
      CounterFree(before, r);
      var run := tx.work.runs[r];
      var first := tx.AddEvent(r, run.nextEvent, RunCancelled);
      var second := tx.AddEvent(r, run.nextEvent + 1, TurnCancelled);
      var updated := tx.UpdateStatus(r, CancelRequested, Cancelled, run.nextEvent + 2);
      assert first && second && updated;
      assert tx.work == WithRun(before, r, Append(run, [RunCancelled, TurnCancelled], Cancelled)) by {
        assert run.events + [Event(run.nextEvent, RunCancelled)] + [Event(run.nextEvent + 1, TurnCancelled)]
            == run.events + Numbered(run.nextEvent, [RunCancelled, TurnCancelled]);
      }
      var released := tx.ReleaseActiveTurn(run.session, r);
      committed := released || (run.session in tx.work.sessions && tx.work.sessions[run.session].active.None?);
    }

    method CommitCancellation(r: RunId)
      requires Inv(database.state)
      modifies database
      ensures database.state == ConfirmCancel(old(database.state), r)
    {
      hide Inv, TurnProtocol.CommitCancellation;
      var tx := new Transaction(database);
      if r in tx.work.runs && tx.work.runs[r].status.CancelRequested? {
        var committed := CommitCancellationInSession(tx, r);
        if !committed { return; }
      } else if r in tx.work.runs && tx.work.runs[r].status.Cancelled? {
        var _ := tx.ReleaseActiveTurn(tx.work.runs[r].session, r);
      }
      tx.Commit();
    }

    /** The transaction after the runtime has finished: the answer, its claim set, the artifacts, the
        events, the status and the session in one commit. Every early return rolls back. */
    method CommitResult(r: RunId, result: TurnResult)
      requires Inv(database.state)
      modifies database
      ensures database.state == Succeed(old(database.state), r, result)
    {
      hide Inv, TurnProtocol.CommitCancellation, SucceededRun, SuccessKinds, ShelfOnSuccess;
      var requested := ArtifactServices.Deduplicate(result.reports);
      var tx := new Transaction(database);
      if r in tx.work.runs && tx.work.runs[r].status.CancelRequested? {
        var committed := CommitCancellationInSession(tx, r);
        if committed { tx.Commit(); }
        return;
      }
      if r !in tx.work.runs || !tx.work.runs[r].status.Running? {
        tx.Commit();
        return;
      }
      var run := tx.work.runs[r];
      if run.session !in tx.work.sessions || tx.work.sessions[run.session].active != Some(r) {
        return;
      }
      if !result.accepted {
        return;
      }
      var answered := CommitAnswer(tx, r, result, requested);
      if answered { tx.Commit(); }
    }

    /** The answer and everything that comes with it; false stands for an exception on the way. */
    method CommitAnswer(tx: Transaction, r: RunId, result: TurnResult, requested: seq<Artifacts.Candidate>)
      returns (answered: bool)
      requires Inv(tx.work) && Is(tx.work, r, Running) && Holds(tx.work, tx.work.runs[r].session, r) && result.accepted
      requires requested == Artifacts.Requested(result.reports)
      modifies tx
      ensures answered <==> SuccessCommits(old(tx.work), r, result)
      ensures answered ==> tx.work == Succeed(old(tx.work), r, result)
    {
      hide Inv, SucceededRun, SuccessKinds, ShelfOnSuccess, RunSound, Succeed;
      ghost var before := tx.work;
      var run := tx.work.runs[r];
      var fences := tx.CurrentFences(r);
      hide CurrentFences;
      var sequence := tx.AllocateMessageSequence(run.session);
      tx.AddMessage(run.session, Message(sequence, Assistant, r, result.cited));
      var rows := new ArtifactServices.ArtifactRows(run.shelf);
      RunIsSound(before, r);
      var published: nat;
      answered, published := PublishShelf(rows, run, requested, result, fences);
      if answered {
        var row := run.(shelf := rows.Contents(), claimSets := run.claimSets + if result.cited then 1 else 0);
        CounterFree(before, r);
        FinishTurn(tx, r, row, |requested|, published);
        var released := tx.ReleaseActiveTurn(run.session, r);
        assert released;
        SuccessRow(run, row, result, fences);
        SuccessState(before, r, result, tx.work);
      }
    }

    /** The run's rows, events and status. */
    method FinishTurn(tx: Transaction, r: RunId, answered: Run, staged: nat, published: nat)
      requires Is(tx.work, r, Running) && Free(tx.work, r, answered.nextEvent)
      requires answered.events == tx.work.runs[r].events && answered.status.Running?
      modifies tx
      ensures var kinds := SuccessKinds(staged, published);
              tx.work == WithRun(old(tx.work), r,
                                 answered.(events := answered.events + Numbered(answered.nextEvent, kinds),
                                           status := Succeeded, nextEvent := answered.nextEvent + |kinds|))
    {
      hide SuccessKinds;
      tx.SaveRun(r, answered);
      var next := AddSuccessEvents(tx, r, answered.nextEvent, staged, published);
      var updated := tx.UpdateStatus(r, Running, Succeeded, next);
      assert updated;
    }

    /** Stages what the runtime reported and publishes; false stands for an exception in either. */
    method PublishShelf(rows: ArtifactServices.ArtifactRows, ghost run: Run, requested: seq<Artifacts.Candidate>,
                        result: TurnResult, fences: set<Artifacts.Fence>) returns (shelved: bool, published: nat)
      requires RunSound(run) && rows.Contents() == run.shelf && requested == Artifacts.Requested(result.reports)
      modifies rows
      ensures shelved == ShelfOnSuccess(run, result, fences).Some?
      ensures shelved ==> var p := ShelfOnSuccess(run, result, fences).value; rows.Contents() == p.shelf && published == |p.published|
    {
      assert Artifacts.Sound(run.shelf);
      hide RunSound, Artifacts.Sound, Artifacts.StageAll, Artifacts.Requested, Artifacts.Publish;
      published := 0;
      shelved := ArtifactServices.StageCandidates(rows, requested);
      if shelved {
        ArtifactTheorems.StageAllKeeps(run.shelf, requested);
        var artifacts := ArtifactServices.PublishForSuccess(rows, fences);
        shelved := artifacts.Some?;
        if shelved {
          published := |artifacts.value|;
        }
      }
    }
  }

  lemma SuccessRow(run: Run, answered: Run, result: TurnResult, fences: set<Artifacts.Fence>)
    requires ShelfOnSuccess(run, result, fences).Some?
    requires answered == run.(shelf := ShelfOnSuccess(run, result, fences).value.shelf,
                              claimSets := run.claimSets + if result.cited then 1 else 0)
    ensures var kinds := SuccessKinds(|Artifacts.Requested(result.reports)|, |ShelfOnSuccess(run, result, fences).value.published|);
            answered.(events := run.events + Numbered(run.nextEvent, kinds), status := Succeeded,
                      nextEvent := run.nextEvent + |kinds|)
            == SucceededRun(run, result, fences)
  {
    hide ShelfOnSuccess, SuccessKinds;
  }

  lemma SuccessState(before: Db, r: RunId, result: TurnResult, after: Db)
    requires SuccessCommits(before, r, result) && Is(before, r, Running)
    requires var id := before.runs[r].session; var s := before.sessions[id];
             after == before.(runs := before.runs[r := SucceededRun(before.runs[r], result, CurrentFences(before, r))],
                              sessions := before.sessions[id := s.(active := None, nextMessage := s.nextMessage + 1,
                                messages := s.messages + [Message(s.nextMessage, Assistant, r, result.cited)])])
    ensures after == Succeed(before, r, result)
  {
    hide SuccessCommits, SucceededRun;
  }

  // ---- late callbacks -------------------------------------------------------------------------------

  class AgentTurnLifecycleService {
    const database: Database

    constructor (d: Database)
      ensures database == d
    {
      database := d;
    }

    method ReleaseIfTerminal(r: RunId, status: Status)
      modifies database
      ensures database.state == TurnProtocol.ReleaseIfTerminal(old(database.state), r, status)
    {
      if !Terminal(status) {
        return;
      }
      var tx := new Transaction(database);
      if r !in tx.work.runs || tx.work.runs[r].status != status {
        return;
      }
      var _ := tx.ReleaseActiveTurn(tx.work.runs[r].session, r);
      tx.Commit();
    }
  }

  // ---- artifacts during a turn ------------------------------------------------------------------------

  class AgentArtifactService {
    const database: Database

    constructor (d: Database)
      ensures database == d
    {
      database := d;
    }

    /** Saves the shelf with the event that announces the change. */
    method RecordStage(tx: Transaction, r: RunId, shelf: Artifacts.Shelf, kind: Kind)
      requires Inv(tx.work) && Is(tx.work, r, Running)
      modifies tx
      ensures tx.work == WithRun(old(tx.work), r, Append(old(tx.work).runs[r].(shelf := shelf), [kind], Running))
    {
      hide Inv;
      CounterFree(tx.work, r);
      var run := tx.work.runs[r];
      tx.SaveRun(r, run.(shelf := shelf));
      var added := tx.AddEvent(r, run.nextEvent, kind);
      var updated := tx.UpdateStatus(r, Running, Running, run.nextEvent + 1);
      assert added && updated;
      assert run.events + [Event(run.nextEvent, kind)] == run.events + Numbered(run.nextEvent, [kind]);
    }

    /** Records a submission that passed content validation. */
    method RecordCandidate(r: RunId, toolCall: string, fact: Artifacts.Fact, fence: Artifacts.Fence)
      returns (reply: Artifacts.Reply)
      requires Inv(database.state)
      modifies database
      ensures database.state == Submit(old(database.state), r, toolCall, fact, fence)
      ensures reply == if Is(old(database.state), r, Running) && Holds(old(database.state), old(database.state).runs[r].session, r)
                       then Artifacts.Submit(old(database.state).runs[r].shelf, toolCall, fact, fence).1 else Artifacts.Refused
    {
      hide Inv, Append, Artifacts.Submit;
      var tx := new Transaction(database);
      if r !in tx.work.runs || !tx.work.runs[r].status.Running? {
        return Artifacts.Refused;
      }
      var run := tx.work.runs[r];
      if run.session !in tx.work.sessions || tx.work.sessions[run.session].active != Some(r) {
        return Artifacts.Refused;
      }
      var rows := new ArtifactServices.ArtifactRows(run.shelf);
      reply := ValidateRow(rows, toolCall, fact, fence);
      if reply.Recorded? {
        RecordStage(tx, r, rows.Contents(), ArtifactValidated);
        tx.Commit();
      }
    }

    method ValidateRow(rows: ArtifactServices.ArtifactRows, toolCall: string, fact: Artifacts.Fact, fence: Artifacts.Fence)
      returns (reply: Artifacts.Reply)
      modifies rows
      ensures reply == Artifacts.Submit(old(rows.Contents()), toolCall, fact, fence).1
      ensures reply.Recorded? ==> rows.Contents() == Artifacts.Submit(old(rows.Contents()), toolCall, fact, fence).0
    {
      hide Artifacts.Locate, Artifacts.Count, Artifacts.Bytes, Artifacts.IndexOfId;
      ghost var cs := rows.candidates;
      var staged := Artifacts.Candidate(Artifacts.Submission(toolCall), fact, Artifacts.Staged);
      var existing := rows.GetOrAddCandidate(staged);
      if existing.None? {
        return Artifacts.Refused;
      }
      if existing.value.stage.Validated? || existing.value.stage.Committed? {
        return Artifacts.Unchanged;
      }
      if existing.value.stage.Rejected? {
        return Artifacts.Refused;
      }
      if Artifacts.Count(rows.candidates, Artifacts.IsAccepted) > Artifacts.MAX_PER_TURN
         || Artifacts.Bytes(rows.candidates, Artifacts.IsAccepted) > Artifacts.MAX_TOTAL_BYTES {
        return Artifacts.Refused;
      }
      ghost var listed := rows.candidates;
      var saved := rows.SaveCandidate(staged.(stage := Artifacts.Validated(toolCall, fence)), true);
      SavedWhereFound(cs, staged, listed);
      return if saved then Artifacts.Recorded else Artifacts.Refused;
    }

    /** Records a refused submission; it changes nothing when the candidate is already settled. */
    method RecordRejection(r: RunId, toolCall: string, fact: Artifacts.Fact, code: string)
      requires Inv(database.state)
      modifies database
      ensures database.state == Reject(old(database.state), r, toolCall, fact, code)
    {
      hide Inv, Append, Artifacts.Reject;
      var tx := new Transaction(database);
      if r !in tx.work.runs || !tx.work.runs[r].status.Running? {
        return;
      }
      var rows := new ArtifactServices.ArtifactRows(tx.work.runs[r].shelf);
      var reply := RejectRow(rows, toolCall, fact, code);
      if reply.Recorded? {
        RecordStage(tx, r, rows.Contents(), ArtifactRejected);
        tx.Commit();
      }
    }

    method RejectRow(rows: ArtifactServices.ArtifactRows, toolCall: string, fact: Artifacts.Fact, code: string)
      returns (reply: Artifacts.Reply)
      modifies rows
      ensures reply == Artifacts.Reject(old(rows.Contents()), toolCall, fact, code).1
      ensures reply.Recorded? ==> rows.Contents() == Artifacts.Reject(old(rows.Contents()), toolCall, fact, code).0
    {
      hide Artifacts.Locate, Artifacts.IndexOfId;
      ghost var cs := rows.candidates;
      var staged := Artifacts.Candidate(Artifacts.Submission(toolCall), fact, Artifacts.Staged);
      var existing := rows.GetOrAddCandidate(staged);
      if existing.None? || !existing.value.stage.Staged? {
        return Artifacts.Unchanged;
      }
      ghost var listed := rows.candidates;
      var saved := rows.SaveCandidate(staged.(stage := Artifacts.Rejected(code)), true);
      SavedWhereFound(cs, staged, listed);
      return if saved then Artifacts.Recorded else Artifacts.Unchanged;
    }
  }

  /** A row found by its identifier is the row a write by identifier meets; a row found by its content
      under another identifier is not met at all. */
  lemma SavedWhereFound(cs: seq<Artifacts.Candidate>, staged: Artifacts.Candidate, listed: seq<Artifacts.Candidate>)
    requires Artifacts.Locate(cs, staged).Some?
    requires listed == if Artifacts.Locate(cs, staged).value < |cs| then cs else cs + [staged]
    ensures var at := Artifacts.Locate(cs, staged).value;
            && at < |listed| && listed[at].fact == staged.fact
            && (if listed[at].id == staged.id then Artifacts.IndexOfId(listed, staged.id) == at
                else Artifacts.IndexOfId(listed, staged.id) == |listed|)
  {
  }
}
