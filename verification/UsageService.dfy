/** The budget service: each request is one transaction on the locked run and its ledger rows. */
module UsageService {
  import opened Wrappers
  import opened TurnProtocol
  import opened TurnInvariant
  import opened Ledger
  import Runs
  import Store
  import TurnServices

  function ReplyFor(db: Db, r: RunId, op: Op): Answer {
    if r !in db.runs then Answer.Refused(ScopeInvalid) else Apply(db.runs[r].ledger, db.runs[r].status, op).answer
  }

  class AgentUsageService {
    const database: Store.Database

    constructor (d: Store.Database)
      ensures database == d
    {
      database := d;
    }

    /** Why the locked run may not use its budget, if so. Failure reports skip the status check. */
    function Closed(work: Db, r: RunId, allowCancelled: bool): Option<Code> {
      if r !in work.runs then Some(ScopeInvalid)
      else if allowCancelled then None
      else RunningCode(work.runs[r].status)
    }

    /** Saves the ledger alone. */
    method Save(tx: Store.Transaction, r: RunId, usage: Ledger)
      requires r in tx.work.runs && tx.database == database
      modifies tx, database
      ensures database.state == WithRun(old(tx.work), r, old(tx.work).runs[r].(ledger := usage))
    {
      tx.SaveRun(r, tx.work.runs[r].(ledger := usage));
      tx.Commit();
    }

    /** Saves the ledger with the event that reports its new counters. */
    method SaveWithBudgetEvent(tx: Store.Transaction, r: RunId, usage: Ledger)
      requires Inv(tx.work) && r in tx.work.runs && tx.database == database
      modifies tx, database
      ensures var run := old(tx.work).runs[r];
              database.state == WithRun(old(tx.work), r,
                                        Append(run.(ledger := usage),
                                               [Runs.BudgetUpdated(usage.modelReserved, usage.toolReserved)], run.status))
    {
      hide Inv;
      TurnServices.CounterFree(tx.work, r);
      var run := tx.work.runs[r];
      var kind := Runs.BudgetUpdated(usage.modelReserved, usage.toolReserved);
      tx.SaveRun(r, run.(ledger := usage));
      var added := tx.AddEvent(r, run.nextEvent, kind);
      var updated := tx.UpdateStatus(r, run.status, run.status, run.nextEvent + 1);
      assert added && updated;
      assert run.events + [Runs.Event(run.nextEvent, kind)] == run.events + Runs.Numbered(run.nextEvent, [kind]);
      tx.Commit();
    }

    method StartTurn(r: RunId, now: int) returns (answer: Answer)
      requires Inv(database.state)
      modifies database
      ensures answer == ReplyFor(old(database.state), r, Op.StartTurn(now))
      ensures database.state == Usage(old(database.state), r, Op.StartTurn(now))
    {
      hide Inv;
      var tx := new Store.Transaction(database);
      var refusal := Closed(tx.work, r, false);
      if refusal.Some? { return Answer.Refused(refusal.value); }
      var usage := tx.work.runs[r].ledger;
      var started := Start(usage, now);
      if PastDeadline(started, now) { return Answer.Refused(DeadlineExceeded); }
      Save(tx, r, started);
      return if usage.startedAt.Some? then Replayed else Accepted;
    }

    method ReserveModelCall(r: RunId, ordinal: int, approximateInput: int, now: int) returns (answer: Answer)
      requires Inv(database.state)
      modifies database
      ensures answer == ReplyFor(old(database.state), r, ReserveModel(ordinal, approximateInput, now))
      ensures database.state == Usage(old(database.state), r, ReserveModel(ordinal, approximateInput, now))
    {
      hide Inv;
      var tx := new Store.Transaction(database);
      var refusal := Closed(tx.work, r, false);
      if refusal.Some? { return Answer.Refused(refusal.value); }
      var usage := Start(tx.work.runs[r].ledger, now);
      if PastDeadline(usage, now) { return Answer.Refused(DeadlineExceeded); }
      if approximateInput > usage.policy.maxInputTokensPerCall { return Answer.Refused(InputTokenBudgetExceeded); }
      if ordinal < 1 { return Answer.Refused(InvalidValue); }
      if ordinal in usage.modelCalls {
        tx.Commit();
        Unwritten(old(database.state), r, ReserveModel(ordinal, approximateInput, now));
        return Replayed;
      }
      if usage.modelReserved >= usage.policy.maxModelCalls { return Answer.Refused(ModelBudgetExceeded); }
      usage := usage.(modelCalls := usage.modelCalls[ordinal := ModelCall(None, None)]);
      usage := usage.(modelReserved := usage.modelReserved + 1);
      SaveWithBudgetEvent(tx, r, usage);
      return Accepted;
    }

    method RecordModelUsage(r: RunId, ordinal: int, input: Option<int>, output: Option<int>) returns (answer: Answer)
      requires Inv(database.state)
      modifies database
      ensures answer == ReplyFor(old(database.state), r, RecordUsage(ordinal, input, output))
      ensures database.state == Usage(old(database.state), r, RecordUsage(ordinal, input, output))
    {
      hide Inv;
      var tx := new Store.Transaction(database);
      var refusal := Closed(tx.work, r, false);
      if refusal.Some? { return Answer.Refused(refusal.value); }
      var usage := tx.work.runs[r].ledger;
      if ordinal !in usage.modelCalls { return Answer.Refused(ModelReservationMissing); }
      var reservation := usage.modelCalls[ordinal];
      if Negative(input) || Negative(output) || Conflicts(reservation.input, input) || Conflicts(reservation.output, output) {
        return Answer.Refused(ModelUsageConflict);
      }
      var recorded := ModelCall(Merge(reservation.input, input), Merge(reservation.output, output));
      if recorded == reservation {
        tx.Commit();
        Unwritten(old(database.state), r, RecordUsage(ordinal, input, output));
        return Replayed;
      }
      usage := usage.(modelCalls := usage.modelCalls[ordinal := recorded]);
      var inputDelta := if reservation.input.None? then input else None;
      var outputDelta := if reservation.output.None? then output else None;
      usage := usage.(inputTokens := AddOptional(usage.inputTokens, inputDelta),
                      outputTokens := AddOptional(usage.outputTokens, outputDelta));
      Save(tx, r, usage);
      return Accepted;
    }

    method ReserveToolCall(r: RunId, invocation: InvocationId, request: ToolRequest, now: int) returns (answer: Answer)
      requires Inv(database.state)
      modifies database
      ensures answer == ReplyFor(old(database.state), r, ReserveTool(invocation, request, now))
      ensures database.state == Usage(old(database.state), r, ReserveTool(invocation, request, now))
    {
      hide Inv;
      var tx := new Store.Transaction(database);
      var refusal := Closed(tx.work, r, false);
      if refusal.Some? { return Answer.Refused(refusal.value); }
      var usage := Start(tx.work.runs[r].ledger, now);
      if PastDeadline(usage, now) { return Answer.Refused(DeadlineExceeded); }
      if request.tool !in usage.policy.allowedTools { return Answer.Refused(ToolNotAllowed); }
      if request.tool !in usage.policy.toolSchemas { return Answer.Refused(ToolContractMissing); }
      if request.schema != usage.policy.toolSchemas[request.tool] { return Answer.Refused(ToolSchemaDrift); }
      if !RequestValid(request) { return Answer.Refused(InvalidValue); }
      if invocation in usage.toolCalls {
        if usage.toolCalls[invocation].request != request { return Answer.Refused(ToolReservationConflict); }
        tx.Commit();
        Unwritten(old(database.state), r, ReserveTool(invocation, request, now));
        return Replayed;
      }
      if usage.toolReserved >= usage.policy.maxToolCalls { return Answer.Refused(ToolBudgetExceeded); }
      var repeated := WithSignature(usage.toolCalls, Signature(request));
      if |repeated| >= usage.policy.maxRepeatedToolCalls { return Answer.Refused(ToolLoopRejected); }
      usage := usage.(toolCalls := usage.toolCalls[invocation := NewToolCall(request)]);
      usage := usage.(toolReserved := usage.toolReserved + 1);
      SaveWithBudgetEvent(tx, r, usage);
      return Accepted;
    }

    method StartToolCall(r: RunId, invocation: InvocationId, now: int, startNow: int) returns (answer: Answer)
      requires Inv(database.state)
      modifies database
      ensures answer == ReplyFor(old(database.state), r, StartTool(invocation, now, startNow))
      ensures database.state == Usage(old(database.state), r, StartTool(invocation, now, startNow))
    {
      hide Inv;
      var tx := new Store.Transaction(database);
      var refusal := Closed(tx.work, r, false);
      if refusal.Some? { return Answer.Refused(refusal.value); }
      var usage := tx.work.runs[r].ledger;
      if PastDeadline(usage, now) { return Answer.Refused(DeadlineExceeded); }
      if invocation !in usage.toolCalls { return Answer.Refused(ToolReservationMissing); }
      var value := usage.toolCalls[invocation];
      if value.status.ToolRunning? { return Answer.Refused(ToolEffectInProgress); }
      if value.status.ToolSucceeded? || value.status.ToolFailed? { return Answer.Refused(ToolEffectTerminal); }
      var started := value.(status := ToolRunning, startedAt := Some(startNow));
      Save(tx, r, usage.(toolCalls := usage.toolCalls[invocation := started]));
      return Accepted;
    }

    method SucceedToolCall(r: RunId, invocation: InvocationId, outputBytes: int, resultHash: Digest, excerpt: Excerpt, now: int)
      returns (answer: Answer)
      requires Inv(database.state)
      modifies database
      ensures answer == ReplyFor(old(database.state), r, SucceedTool(invocation, outputBytes, resultHash, excerpt, now))
      ensures database.state == Usage(old(database.state), r, SucceedTool(invocation, outputBytes, resultHash, excerpt, now))
    {
      hide Inv, ExcerptValid;
      var tx := new Store.Transaction(database);
      var refusal := Closed(tx.work, r, false);
      if refusal.Some? { return Answer.Refused(refusal.value); }
      var usage := tx.work.runs[r].ledger;
      if outputBytes > usage.policy.maxToolOutputBytes { return Answer.Refused(ToolOutputTooLarge); }
      if invocation !in usage.toolCalls { return Answer.Refused(ToolReservationMissing); }
      var value := usage.toolCalls[invocation];
      if value.status.ToolSucceeded? {
        if value.outputBytes != Some(outputBytes) || value.resultHash != Some(resultHash) || value.excerpt != excerpt {
          return Answer.Refused(ToolResultConflict);
        }
        tx.Commit();
        Unwritten(old(database.state), r, SucceedTool(invocation, outputBytes, resultHash, excerpt, now));
        return Replayed;
      }
      if !value.status.ToolRunning? { return Answer.Refused(ToolCompleteConflict); }
      if value.startedAt.None? || now < value.startedAt.value || !(0 <= outputBytes <= MAX_TOOL_OUTPUT_BYTES)
         || !ExcerptValid(excerpt, OUTPUT_PREVIEW_BYTES) {
        return Answer.Refused(InvalidValue);
      }
      var succeeded := value.(status := ToolSucceeded, outputBytes := Some(outputBytes), resultHash := Some(resultHash),
                              excerpt := excerpt, duration := Some(now - value.startedAt.value), completedAt := Some(now));
      Save(tx, r, usage.(toolCalls := usage.toolCalls[invocation := succeeded]));
      return Accepted;
    }

    method FailToolCall(r: RunId, invocation: InvocationId, errorCode: string, safeMessage: string, excerpt: Excerpt, now: int)
      returns (answer: Answer)
      requires Inv(database.state)
      modifies database
      ensures answer == ReplyFor(old(database.state), r, FailTool(invocation, errorCode, safeMessage, excerpt, now))
      ensures database.state == Usage(old(database.state), r, FailTool(invocation, errorCode, safeMessage, excerpt, now))
    {
      hide Inv, ExcerptValid, Blank;
      var tx := new Store.Transaction(database);
      var refusal := Closed(tx.work, r, true);
      if refusal.Some? { return Answer.Refused(refusal.value); }
      var usage := tx.work.runs[r].ledger;
      if invocation !in usage.toolCalls { return Answer.Refused(ToolReservationMissing); }
      var value := usage.toolCalls[invocation];
      if value.status.ToolFailed? {
        if value.errorCode != Some(errorCode) || value.safeMessage != Some(safeMessage) || value.excerpt != excerpt {
          return Answer.Refused(ToolErrorConflict);
        }
        tx.Commit();
        Unwritten(old(database.state), r, FailTool(invocation, errorCode, safeMessage, excerpt, now));
        return Replayed;
      }
      if !value.status.ToolRunning? { return Answer.Refused(ToolCompleteConflict); }
      if value.startedAt.None? || now < value.startedAt.value || Blank(errorCode) || |errorCode| > 100
         || Blank(safeMessage) || |safeMessage| > 500 || !ExcerptValid(excerpt, OUTPUT_PREVIEW_BYTES) {
        return Answer.Refused(InvalidValue);
      }
      var failed := value.(status := ToolFailed, errorCode := Some(errorCode), safeMessage := Some(safeMessage),
                           excerpt := excerpt, duration := Some(now - value.startedAt.value), completedAt := Some(now));
      Save(tx, r, usage.(toolCalls := usage.toolCalls[invocation := failed]));
      return Accepted;
    }
  }

  /** A replayed request leaves every row as it was. */
  lemma Unwritten(db: Db, r: RunId, op: Op)
    requires r in db.runs && Apply(db.runs[r].ledger, db.runs[r].status, op).answer.Replayed?
    requires Apply(db.runs[r].ledger, db.runs[r].status, op).ledger == db.runs[r].ledger
    ensures Usage(db, r, op) == db
  {
    hide Apply;
    assert db.runs[r := db.runs[r]] == db.runs;
  }
}
