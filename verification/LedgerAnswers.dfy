/** Which requests a turn's budget grants, and what they leave behind, over every run of requests. */
module LedgerAnswers {
  import opened Wrappers
  import opened Ledger
  import opened LedgerTheorems
  import Runs

  /** The ledger that some run of requests leaves. */
  lemma Played(policy: Policy, calls: seq<Call>) returns (l: Ledger)
    requires PolicyValid(policy)
    ensures l == Play(Opened(policy), calls) && Sound(l) && l.policy == policy
  {
    l := Play(Opened(policy), calls);
    EveryRunKeeps(policy, calls);
    hide Sound, Play;
    EveryRunEvolves(Opened(policy), calls);
  }

  // ---- the clock of a turn ------------------------------------------------------------------------------

  /** The first request to start a turn starts its clock; later ones find it running until the limit is over. */
  lemma ClockStartsOnce(policy: Policy, calls: seq<Call>, now: int)
    requires PolicyValid(policy)
    ensures var l := Play(Opened(policy), calls); var out := Apply(l, Runs.Running, StartTurn(now));
            if l.startedAt.None? then
              && out.answer.Accepted?
              && out.ledger == l.(startedAt := Some(now), deadlineAt := Some(now + policy.wallClockLimit))
            else
              && out.ledger == l
              && out.answer == if now < l.startedAt.value + policy.wallClockLimit then Replayed else Answer.Refused(DeadlineExceeded)
  {
    var _ := Played(policy, calls);
    hide Play, IsTotal, FieldsFit, WithSignature;
  }

  // ---- reservations ---------------------------------------------------------------------------------------

  /** What a granted reservation writes: one row and one count more, and the clock runs. */
  predicate ReservationWritten(l: Ledger, l': Ledger, op: Op)
    requires Reserves(op)
  {
    && l'.startedAt == (if l.startedAt.Some? then l.startedAt else Some(op.now))
    && l' == l.(startedAt := l'.startedAt, deadlineAt := l'.deadlineAt, modelReserved := l'.modelReserved,
                toolReserved := l'.toolReserved, modelCalls := l'.modelCalls, toolCalls := l'.toolCalls)
    && match op
       case ReserveModel(ordinal, _, _) =>
         ordinal !in l.modelCalls && l'.modelCalls == l.modelCalls[ordinal := ModelCall(None, None)] && l'.toolCalls == l.toolCalls
       case ReserveTool(invocation, request, _) =>
         && invocation !in l.toolCalls && l'.modelCalls == l.modelCalls && invocation in l'.toolCalls
         && l'.toolCalls == l.toolCalls[invocation := l'.toolCalls[invocation]]
         && l'.toolCalls[invocation].request == request && l'.toolCalls[invocation].status.Reserved?
       case _ => false
  }

  lemma ReservationWrites(l: Ledger, op: Op)
    requires Reserves(op) && Apply(l, Runs.Running, op).answer.Accepted?
    ensures ReservationWritten(l, Apply(l, Runs.Running, op).ledger, op)
  {
    hide PastDeadline, RequestValid, WithSignature;
  }

  /** A granted reservation adds its row, counts it and starts the clock if nothing has. */
  lemma ReservationsWrite(policy: Policy, calls: seq<Call>, op: Op)
    requires PolicyValid(policy) && Reserves(op)
    requires Apply(Play(Opened(policy), calls), Runs.Running, op).answer.Accepted?
    ensures var l := Play(Opened(policy), calls); var l' := Apply(l, Runs.Running, op).ledger;
            && ReservationWritten(l, l', op)
            && l'.startedAt.Some? && l'.deadlineAt == Some(l'.startedAt.value + policy.wallClockLimit)
            && l'.modelReserved == |l'.modelCalls| && l'.toolReserved == |l'.toolCalls|
  {
    var l := Played(policy, calls);
    ApplyKeeps(l, Runs.Running, op);
    ReservationWrites(l, op);
    hide Play, Apply, IsTotal, FieldsFit, WithSignature;
  }

  /** A reservation is refused for the lack of budget alone, once the turn is open and the request is in order. */
  lemma RefusedReservations(policy: Policy, calls: seq<Call>, op: Op)
    requires PolicyValid(policy) && Reserves(op)
    ensures var l := Play(Opened(policy), calls); var answer := Apply(l, Runs.Running, op).answer;
            if l.startedAt.Some? && op.now >= l.startedAt.value + policy.wallClockLimit then answer == Answer.Refused(DeadlineExceeded)
            else match op
                 case ReserveModel(ordinal, approximateInput, _) =>
                   && (approximateInput > policy.maxInputTokensPerCall <==> answer == Answer.Refused(InputTokenBudgetExceeded))
                   && (answer == Answer.Refused(InvalidValue) <==> approximateInput <= policy.maxInputTokensPerCall && ordinal < 1)
                 case ReserveTool(_, request, _) =>
                   && (request.tool !in policy.allowedTools <==> answer == Answer.Refused(ToolNotAllowed))
                   && (request.tool in policy.allowedTools ==>
                         && (request.tool !in policy.toolSchemas <==> answer == Answer.Refused(ToolContractMissing))
                         && (request.tool in policy.toolSchemas ==>
                               && (request.schema != policy.toolSchemas[request.tool] <==> answer == Answer.Refused(ToolSchemaDrift))
                               && (answer == Answer.Refused(InvalidValue)
                                   <==> request.schema == policy.toolSchemas[request.tool] && !RequestValid(request))))
                 case _ => false
  {
    var _ := Played(policy, calls);
    hide Play, IsTotal, FieldsFit, WithSignature, RequestValid;
  }

  // ---- usage reports ----------------------------------------------------------------------------------------

  predicate Agrees(stored: Option<int>, given: Option<int>) {
    given.Some? ==> given.value >= 0 && (stored.None? || stored == given)
  }

  /** A usage report for a reserved call is taken exactly when it contradicts nothing; it then fills in what was open and
      the totals grow by just that. */
  lemma UsageTakenIff(policy: Policy, calls: seq<Call>, ordinal: int, input: Option<int>, output: Option<int>)
    requires PolicyValid(policy)
    requires ordinal in Play(Opened(policy), calls).modelCalls
    ensures var l := Play(Opened(policy), calls); var row := l.modelCalls[ordinal];
            var out := Apply(l, Runs.Running, RecordUsage(ordinal, input, output));
            && (out.answer != Answer.Refused(ModelUsageConflict) <==> Agrees(row.input, input) && Agrees(row.output, output))
            && (out.answer.Accepted? <==>
                  && Agrees(row.input, input) && Agrees(row.output, output)
                  && ((row.input.None? && input.Some?) || (row.output.None? && output.Some?)))
            && (out.answer.Accepted? ==>
                  && out.ledger == l.(modelCalls := out.ledger.modelCalls, inputTokens := out.ledger.inputTokens,
                                      outputTokens := out.ledger.outputTokens)
                  && out.ledger.modelCalls == l.modelCalls[ordinal := out.ledger.modelCalls[ordinal]]
                  && (input.Some? ==> out.ledger.modelCalls[ordinal].input == input)
                  && (output.Some? ==> out.ledger.modelCalls[ordinal].output == output)
                  && (input.None? ==> out.ledger.modelCalls[ordinal].input == row.input)
                  && (output.None? ==> out.ledger.modelCalls[ordinal].output == row.output))
            && (!out.answer.Accepted? ==> out.ledger == l && (out.answer.Replayed? || out.answer == Answer.Refused(ModelUsageConflict)))
  {
    var _ := Played(policy, calls);
    hide Play, Sound, AddOptional;
  }

  // ---- tool calls --------------------------------------------------------------------------------------------

  /** A call that is reserved is claimed exactly before the deadline; one that was claimed is never claimed again. */
  lemma ClaimGrantedIff(policy: Policy, calls: seq<Call>, k: InvocationId, now: int, startNow: int)
    requires PolicyValid(policy)
    requires k in Play(Opened(policy), calls).toolCalls
    ensures var l := Play(Opened(policy), calls); var row := l.toolCalls[k];
            var out := Apply(l, Runs.Running, StartTool(k, now, startNow));
            && l.startedAt.Some?
            && (out.answer.Accepted? <==> row.status.Reserved? && now < l.startedAt.value + policy.wallClockLimit)
            && (out.answer == Answer.Refused(DeadlineExceeded) <==> now >= l.startedAt.value + policy.wallClockLimit)
            && (out.answer.Accepted? ==> Claimed(l, out.ledger, k, startNow))
            && (out.answer == Answer.Refused(ToolEffectInProgress)
                <==> row.status.ToolRunning? && now < l.startedAt.value + policy.wallClockLimit)
            && !out.answer.Replayed? && (!out.answer.Accepted? ==> out.ledger == l)
  {
    hide Play, PolicyValid, Sound, Apply, Claimed;
    var l := Played(policy, calls);
    ClockRuns(l, k);
    ClaimStep(l, k, now, startNow);
  }

  /** A ledger with a call in it has started its clock. */
  lemma ClockRuns(l: Ledger, k: InvocationId)
    requires Sound(l) && k in l.toolCalls
    ensures l.startedAt.Some? && l.deadlineAt == Some(l.startedAt.value + l.policy.wallClockLimit)
    ensures l.toolCalls[k].status.Reserved? ==> l.toolCalls[k] == NewToolCall(l.toolCalls[k].request)
  {
    assert l.toolCalls != map[];
    ToolCallKept(l);
    hide IsTotal, WithSignature;
  }

  lemma ClaimStep(l: Ledger, k: InvocationId, now: int, startNow: int)
    requires k in l.toolCalls && l.startedAt.Some? && l.deadlineAt == Some(l.startedAt.value + l.policy.wallClockLimit)
    requires l.toolCalls[k].status.Reserved? ==> l.toolCalls[k] == NewToolCall(l.toolCalls[k].request)
    ensures var row := l.toolCalls[k]; var out := Apply(l, Runs.Running, StartTool(k, now, startNow));
            var deadline := l.startedAt.value + l.policy.wallClockLimit;
            && (out.answer.Accepted? <==> row.status.Reserved? && now < deadline)
            && (out.answer == Answer.Refused(DeadlineExceeded) <==> now >= deadline)
            && (out.answer.Accepted? ==> Claimed(l, out.ledger, k, startNow))
            && (out.answer == Answer.Refused(ToolEffectInProgress) <==> row.status.ToolRunning? && now < deadline)
            && !out.answer.Replayed? && (!out.answer.Accepted? ==> out.ledger == l)
  {
    hide StartTurnTx, ReserveModelTx, ReserveToolTx, RecordUsageTx, SucceedToolTx, FailToolTx;
  }

  /** The call k runs since then; everything else is as before. */
  predicate Claimed(l: Ledger, l': Ledger, k: InvocationId, since: int) {
    && k in l.toolCalls && k in l'.toolCalls
    && l' == l.(toolCalls := l.toolCalls[k := l'.toolCalls[k]])
    && l'.toolCalls[k] == ToolCall(l.toolCalls[k].request, ToolRunning, None, None, None, None, None, Some(since), None, NO_EXCERPT)
  }

  /** The result a running call may report. */
  predicate ResultFits(policy: Policy, outputBytes: int, excerpt: Excerpt) {
    0 <= outputBytes <= policy.maxToolOutputBytes && outputBytes <= MAX_TOOL_OUTPUT_BYTES && ExcerptValid(excerpt, OUTPUT_PREVIEW_BYTES)
  }

  predicate ErrorFits(errorCode: string, safeMessage: string, excerpt: Excerpt) {
    && !Blank(errorCode) && |errorCode| <= 100 && !Blank(safeMessage) && |safeMessage| <= 500
    && ExcerptValid(excerpt, OUTPUT_PREVIEW_BYTES)
  }

  /** A running call succeeds with every result that fits, at any time from its start on, also after the deadline. */
  lemma SuccessTakenIff(policy: Policy, calls: seq<Call>, k: InvocationId, outputBytes: int, hash: Digest, excerpt: Excerpt, now: int)
    requires PolicyValid(policy)
    requires var l := Play(Opened(policy), calls); k in l.toolCalls && l.toolCalls[k].status.ToolRunning?
    ensures var l := Play(Opened(policy), calls); var row := l.toolCalls[k];
            var out := Apply(l, Runs.Running, SucceedTool(k, outputBytes, hash, excerpt, now));
            && row.startedAt.Some?
            && (out.answer.Accepted? <==> ResultFits(policy, outputBytes, excerpt) && row.startedAt.value <= now)
            && out.ledger == (if out.answer.Accepted? then Finished(l, k, ToolSucceeded, Some(outputBytes), Some(hash), None, None, excerpt, now)
                              else l)
            && (out.answer == Answer.Refused(ToolOutputTooLarge) <==> outputBytes > policy.maxToolOutputBytes)
            && (out.answer.Accepted? || out.answer == Answer.Refused(ToolOutputTooLarge) || out.answer == Answer.Refused(InvalidValue))
  {
    hide Play, PolicyValid, Sound, Apply, ResultFits, Finished;
    var l := Played(policy, calls);
    RunningRow(l, k);
    SuccessStep(l, k, outputBytes, hash, excerpt, now);
  }

  /** A running call has a start and nothing of an end yet. */
  lemma RunningRow(l: Ledger, k: InvocationId)
    requires Sound(l) && k in l.toolCalls && l.toolCalls[k].status.ToolRunning?
    ensures var since := l.toolCalls[k].startedAt;
            since.Some? && l.toolCalls[k] == ToolCall(l.toolCalls[k].request, ToolRunning, None, None, None, None, None, since, None, NO_EXCERPT)
  {
    hide Sound;
    ToolCallKept(l);
  }

  /** The ledger after the end of the running call k. */
  function Finished(l: Ledger, k: InvocationId, status: ToolStatus, outputBytes: Option<int>, hash: Option<Digest>, code: Option<string>,
                    message: Option<string>, excerpt: Excerpt, now: int): Ledger
    requires k in l.toolCalls && l.toolCalls[k].startedAt.Some?
  {
    var row := l.toolCalls[k];
    l.(toolCalls := l.toolCalls[k := ToolCall(row.request, status, outputBytes, hash, code, message, Some(now - row.startedAt.value),
                                              row.startedAt, Some(now), excerpt)])
  }

  lemma SuccessStep(l: Ledger, k: InvocationId, outputBytes: int, hash: Digest, excerpt: Excerpt, now: int)
    requires k in l.toolCalls
    requires var since := l.toolCalls[k].startedAt;
             since.Some? && l.toolCalls[k] == ToolCall(l.toolCalls[k].request, ToolRunning, None, None, None, None, None, since, None, NO_EXCERPT)
    ensures var out := Apply(l, Runs.Running, SucceedTool(k, outputBytes, hash, excerpt, now));
            && (out.answer.Accepted? <==> ResultFits(l.policy, outputBytes, excerpt) && l.toolCalls[k].startedAt.value <= now)
            && out.ledger == (if out.answer.Accepted? then Finished(l, k, ToolSucceeded, Some(outputBytes), Some(hash), None, None, excerpt, now)
                              else l)
            && (out.answer == Answer.Refused(ToolOutputTooLarge) <==> outputBytes > l.policy.maxToolOutputBytes)
            && (out.answer.Accepted? || out.answer == Answer.Refused(ToolOutputTooLarge) || out.answer == Answer.Refused(InvalidValue))
  {
    hide ExcerptValid, StartTurnTx, ReserveModelTx, ReserveToolTx, RecordUsageTx, StartToolTx, FailToolTx;
  }

  lemma FailureStep(l: Ledger, status: Runs.Status, k: InvocationId, code: string, message: string, excerpt: Excerpt, now: int)
    requires k in l.toolCalls
    requires var since := l.toolCalls[k].startedAt;
             since.Some? && l.toolCalls[k] == ToolCall(l.toolCalls[k].request, ToolRunning, None, None, None, None, None, since, None, NO_EXCERPT)
    ensures var out := Apply(l, status, FailTool(k, code, message, excerpt, now));
            && (out.answer.Accepted? <==> ErrorFits(code, message, excerpt) && l.toolCalls[k].startedAt.value <= now)
            && out.ledger == (if out.answer.Accepted? then Finished(l, k, ToolFailed, None, None, Some(code), Some(message), excerpt, now) else l)
            && (out.answer.Accepted? || out.answer == Answer.Refused(InvalidValue))
  {
    hide ExcerptValid, Blank, StartTurnTx, ReserveModelTx, ReserveToolTx, RecordUsageTx, StartToolTx, SucceedToolTx;
  }

  /** A running call fails with every error that fits, whatever the status of its turn. */
  lemma FailureTakenIff(policy: Policy, calls: seq<Call>, status: Runs.Status, k: InvocationId, code: string, message: string,
                        excerpt: Excerpt, now: int)
    requires PolicyValid(policy)
    requires var l := Play(Opened(policy), calls); k in l.toolCalls && l.toolCalls[k].status.ToolRunning?
    ensures var l := Play(Opened(policy), calls); var row := l.toolCalls[k];
            var out := Apply(l, status, FailTool(k, code, message, excerpt, now));
            && row.startedAt.Some?
            && (out.answer.Accepted? <==> ErrorFits(code, message, excerpt) && row.startedAt.value <= now)
            && out.ledger == (if out.answer.Accepted? then Finished(l, k, ToolFailed, None, None, Some(code), Some(message), excerpt, now) else l)
            && (out.answer.Accepted? || out.answer == Answer.Refused(InvalidValue))
  {
    hide Play, PolicyValid, Sound, Apply, ErrorFits, Finished;
    var l := Played(policy, calls);
    RunningRow(l, k);
    FailureStep(l, status, k, code, message, excerpt, now);
  }

  /** Reports for a call that does not run are refused, except the repetition of the report that ended it. */
  lemma ReportsNeedARunningCall(policy: Policy, calls: seq<Call>, status: Runs.Status, op: Op)
    requires PolicyValid(policy) && (op.SucceedTool? || op.FailTool?)
    requires var l := Play(Opened(policy), calls); op.invocation !in l.toolCalls || !l.toolCalls[op.invocation].status.ToolRunning?
    ensures var l := Play(Opened(policy), calls); var out := Apply(l, status, op);
            && out.ledger == l && !out.answer.Accepted?
            && (op.invocation !in l.toolCalls && (op.FailTool? || (status.Running? && op.outputBytes <= policy.maxToolOutputBytes)) ==>
                  out.answer == Answer.Refused(ToolReservationMissing))
            && (op.invocation in l.toolCalls && l.toolCalls[op.invocation].status.Reserved?
                && (op.FailTool? || (status.Running? && op.outputBytes <= policy.maxToolOutputBytes)) ==>
                  out.answer == Answer.Refused(ToolCompleteConflict))
  {
    var _ := Played(policy, calls);
    hide Play, Sound, ExcerptValid, Blank;
  }

  /** Every request but a failure report meets the status of the turn first. */
  lemma ClosedTurnRefuses(policy: Policy, calls: seq<Call>, status: Runs.Status, op: Op)
    requires PolicyValid(policy) && !op.FailTool? && !status.Running?
    ensures var l := Play(Opened(policy), calls); var out := Apply(l, status, op);
            out.ledger == l && out.answer == Answer.Refused(if status.CancelRequested? then TurnCancelledCode else TurnNotRunning)
  {
    hide Play, StartTurnTx, ReserveModelTx, ReserveToolTx, RecordUsageTx, StartToolTx, SucceedToolTx;
  }

  // ---- the life of a tool call ---------------------------------------------------------------------------------

  /** The request reports the end of call k. */
  predicate Reports(op: Op, k: InvocationId) {
    (op.SucceedTool? || op.FailTool?) && op.invocation == k
  }

  /** Only its own report touches a running call. */
  lemma OthersLeaveRunning(l: Ledger, status: Runs.Status, op: Op, k: InvocationId)
    requires k in l.toolCalls && l.toolCalls[k].status.ToolRunning? && !Reports(op, k)
    ensures k in Apply(l, status, op).ledger.toolCalls && Apply(l, status, op).ledger.toolCalls[k] == l.toolCalls[k]
  {
    hide ExcerptValid, RequestValid, Blank, PastDeadline, Conflicts, Negative;
  }

  lemma {:induction false} RunningStays(l: Ledger, calls: seq<Call>, k: InvocationId)
    requires k in l.toolCalls && l.toolCalls[k].status.ToolRunning?
    requires forall i :: 0 <= i < |calls| ==> !Reports(calls[i].op, k)
    ensures k in Play(l, calls).toolCalls && Play(l, calls).toolCalls[k] == l.toolCalls[k]
  {
    hide Apply;
    if calls != [] {
      RunningStays(l, calls[..|calls| - 1], k);
      OthersLeaveRunning(Play(l, calls[..|calls| - 1]), calls[|calls| - 1].status, calls[|calls| - 1].op, k);
    }
  }

  /** Whatever other requests come between a granted claim and the first report of its end: a result that fits is taken,
      under the request that was reserved and with the time since the claim. */
  lemma ClaimedCallFinishes(policy: Policy, before: seq<Call>, k: InvocationId, now: int, since: int, between: seq<Call>,
                            outputBytes: int, hash: Digest, excerpt: Excerpt, end: int)
    requires PolicyValid(policy)
    requires Apply(Play(Opened(policy), before), Runs.Running, StartTool(k, now, since)).answer.Accepted?
    requires forall i :: 0 <= i < |between| ==> !Reports(between[i].op, k)
    requires ResultFits(policy, outputBytes, excerpt) && since <= end
    ensures var reserved := Play(Opened(policy), before);
            var l := Play(Opened(policy), before + [Call(Runs.Running, StartTool(k, now, since))] + between);
            var out := Apply(l, Runs.Running, SucceedTool(k, outputBytes, hash, excerpt, end));
            && out.answer.Accepted? && k in reserved.toolCalls && k in out.ledger.toolCalls
            && out.ledger.toolCalls[k] == ToolCall(reserved.toolCalls[k].request, ToolSucceeded, Some(outputBytes), Some(hash), None, None,
                                                   Some(end - since), Some(since), Some(end), excerpt)
  {
    hide Apply, ResultFits, PolicyValid, Play, Finished;
    ClaimedStaysRunning(policy, before, k, now, since, between);
    var calls := before + [Call(Runs.Running, StartTool(k, now, since))] + between;
    SuccessTakenIff(policy, calls, k, outputBytes, hash, excerpt, end);
    FinishedRow(Play(Opened(policy), calls), k, outputBytes, hash, excerpt, end);
  }

  lemma FinishedRow(l: Ledger, k: InvocationId, outputBytes: int, hash: Digest, excerpt: Excerpt, end: int)
    requires k in l.toolCalls && l.toolCalls[k].startedAt.Some?
    ensures var l' := Finished(l, k, ToolSucceeded, Some(outputBytes), Some(hash), None, None, excerpt, end); var row := l.toolCalls[k];
            k in l'.toolCalls
            && l'.toolCalls[k] == ToolCall(row.request, ToolSucceeded, Some(outputBytes), Some(hash), None, None,
                                           Some(end - row.startedAt.value), row.startedAt, Some(end), excerpt)
  {
  }

  /** Whatever other requests come, a claimed call runs until its own report, for the request that was reserved. */
  lemma ClaimedStaysRunning(policy: Policy, before: seq<Call>, k: InvocationId, now: int, since: int, between: seq<Call>)
    requires PolicyValid(policy)
    requires Apply(Play(Opened(policy), before), Runs.Running, StartTool(k, now, since)).answer.Accepted?
    requires forall i :: 0 <= i < |between| ==> !Reports(between[i].op, k)
    ensures var reserved := Play(Opened(policy), before);
            var l := Play(Opened(policy), before + [Call(Runs.Running, StartTool(k, now, since))] + between);
            && k in reserved.toolCalls && k in l.toolCalls && l.toolCalls[k].status.ToolRunning?
            && l.toolCalls[k].request == reserved.toolCalls[k].request && l.toolCalls[k].startedAt == Some(since)
  {
    hide Apply, PolicyValid;
    var claim := Call(Runs.Running, StartTool(k, now, since));
    ClaimedRow(policy, before, k, now, since);
    PlayConcat(Opened(policy), before + [claim], between);
    hide Play;
    RunningStays(Play(Opened(policy), before + [claim]), between, k);
  }

  lemma ClaimedRow(policy: Policy, before: seq<Call>, k: InvocationId, now: int, since: int)
    requires PolicyValid(policy)
    requires Apply(Play(Opened(policy), before), Runs.Running, StartTool(k, now, since)).answer.Accepted?
    ensures Claimed(Play(Opened(policy), before), Play(Opened(policy), before + [Call(Runs.Running, StartTool(k, now, since))]), k, since)
  {
    hide Apply, PolicyValid, Claimed;
    var claim := Call(Runs.Running, StartTool(k, now, since));
    ClaimNeedsRow(Play(Opened(policy), before), k, now, since);
    ClaimGrantedIff(policy, before, k, now, since);
    assert (before + [claim])[..|before|] == before;
  }

  lemma ClaimNeedsRow(l: Ledger, k: InvocationId, now: int, since: int)
    requires Apply(l, Runs.Running, StartTool(k, now, since)).answer.Accepted?
    ensures k in l.toolCalls
  {
  }
}
