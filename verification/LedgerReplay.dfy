/** Runs with any number of repeated requests, and what the repetitions are answered. */
module LedgerReplay {
  import opened Wrappers
  import opened Ledger
  import opened LedgerTheorems
  import Runs

  // ---- any number of duplicates -----------------------------------------------------------------------

  /** The i-th request of the run was not refused. */
  predicate Took(policy: Policy, calls: seq<Call>, i: nat)
    requires i < |calls|
  {
    !Apply(Play(Opened(policy), calls[..i]), calls[i].status, calls[i].op).answer.Refused?
  }

  /** The request repeats one that the run has taken. */
  ghost predicate RepeatsTaken(policy: Policy, calls: seq<Call>, op: Op) {
    exists i :: 0 <= i < |calls| && Took(policy, calls, i) && Repeats(calls[i].op, op)
  }

  /** The run without the requests that repeat a taken one. */
  ghost function WithoutDuplicates(policy: Policy, calls: seq<Call>): seq<Call> {
    if calls == [] then []
    else
      var kept := WithoutDuplicates(policy, calls[..|calls| - 1]);
      var last := calls[|calls| - 1];
      if RepeatsTaken(policy, kept, last.op) then kept else kept + [last]
  }

  lemma TakenIsAbsorbed(policy: Policy, calls: seq<Call>, i: nat)
    requires PolicyValid(policy) && i < |calls| && Took(policy, calls, i)
    ensures Absorbed(Play(Opened(policy), calls), calls[i].op)
  {
    var l := Opened(policy);
    var before, after := calls[..i], calls[i + 1..];
    EveryRunKeeps(policy, before);
    AcceptedIsAbsorbed(Play(l, before), calls[i].status, calls[i].op);
    assert (before + [calls[i]])[..i] == before;
    AbsorbedAcross(Play(l, before + [calls[i]]), after, calls[i].op);
    PlayConcat(l, before + [calls[i]], after);
    assert before + [calls[i]] + after == calls;
  }

  /** A run with arbitrary duplicates, in any number and at any places, ends in the ledger of the run
      without them. */
  lemma {:induction false} AllDuplicatesAreInvisible(policy: Policy, calls: seq<Call>)
    requires PolicyValid(policy)
    ensures Play(Opened(policy), calls) == Play(Opened(policy), WithoutDuplicates(policy, calls))
  {
    hide Apply, Took, Repeats, Absorbed;
    if calls != [] {
      var n := |calls| - 1;
      AllDuplicatesAreInvisible(policy, calls[..n]);
      var kept := WithoutDuplicates(policy, calls[..n]);
      if RepeatsTaken(policy, kept, calls[n].op) {
        var i :| 0 <= i < |kept| && Took(policy, kept, i) && Repeats(kept[i].op, calls[n].op);
        TakenIsAbsorbed(policy, kept, i);
        AbsorbedStutters(Play(Opened(policy), kept), calls[n].status, kept[i].op, calls[n].op);
      } else {
        assert (kept + [calls[n]])[..|kept|] == kept;
      }
    }
  }

  // ---- the budget can be used up, and no further -----------------------------------------------------------

  /** While a turn is open a new model call is granted exactly as long as fewer distinct calls are held than the limit. */
  lemma ModelCallsGrantedUpToTheLimit(policy: Policy, calls: seq<Call>, ordinal: int, approximateInput: int, now: int)
    requires PolicyValid(policy)
    requires var l := Play(Opened(policy), calls);
             ordinal >= 1 && ordinal !in l.modelCalls && approximateInput <= policy.maxInputTokensPerCall
             && !PastDeadline(l, now)
    ensures var l := Play(Opened(policy), calls);
            var answer := Apply(l, Runs.Running, ReserveModel(ordinal, approximateInput, now)).answer;
            if |l.modelCalls| < policy.maxModelCalls then answer == Accepted else answer == Answer.Refused(ModelBudgetExceeded)
  {
    EveryRunKeeps(policy, calls);
    EveryRunEvolves(Opened(policy), calls);
    hide Play, Evolves, IsTotal, FieldsFit, WithSignature;
    PolicyStays(Opened(policy), Play(Opened(policy), calls));
  }

  /** A new tool call is granted exactly as long as fewer calls are held than the limit, and fewer of its signature
      than the loop limit. */
  lemma ToolCallsGrantedUpToTheLimits(policy: Policy, calls: seq<Call>, invocation: InvocationId, request: ToolRequest, now: int)
    requires PolicyValid(policy)
    requires var l := Play(Opened(policy), calls);
             && invocation !in l.toolCalls && RequestValid(request) && !PastDeadline(l, now)
             && request.tool in policy.allowedTools && request.tool in policy.toolSchemas
             && request.schema == policy.toolSchemas[request.tool]
    ensures var l := Play(Opened(policy), calls);
            var answer := Apply(l, Runs.Running, ReserveTool(invocation, request, now)).answer;
            if |l.toolCalls| >= policy.maxToolCalls then answer == Answer.Refused(ToolBudgetExceeded)
            else if |WithSignature(l.toolCalls, Signature(request))| >= policy.maxRepeatedToolCalls
            then answer == Answer.Refused(ToolLoopRejected)
            else answer == Accepted
  {
    EveryRunKeeps(policy, calls);
    EveryRunEvolves(Opened(policy), calls);
    hide Play, Evolves, IsTotal, FieldsFit, WithSignature, RequestValid;
    PolicyStays(Opened(policy), Play(Opened(policy), calls));
  }

  lemma PolicyStays(l: Ledger, l': Ledger)
    requires Evolves(l, l')
    ensures l'.policy == l.policy
  {
  }

  // ---- what a repetition is answered ----------------------------------------------------------------------

  /** The rows hold what the request said. */
  predicate Stored(l: Ledger, op: Op) {
    match op
    case StartTurn(_) => l.startedAt.Some?
    case ReserveModel(ordinal, _, _) => ordinal >= 1 && ordinal in l.modelCalls
    case RecordUsage(ordinal, input, output) =>
      && ordinal in l.modelCalls && !Negative(input) && !Negative(output)
      && (input.Some? ==> l.modelCalls[ordinal].input == input)
      && (output.Some? ==> l.modelCalls[ordinal].output == output)
    case ReserveTool(invocation, request, _) =>
      && request.tool in l.policy.allowedTools && request.tool in l.policy.toolSchemas
      && request.schema == l.policy.toolSchemas[request.tool] && RequestValid(request)
      && invocation in l.toolCalls && l.toolCalls[invocation].request == request
    case StartTool(invocation, _, _) => invocation in l.toolCalls && !l.toolCalls[invocation].status.Reserved?
    case SucceedTool(invocation, outputBytes, resultHash, excerpt, _) =>
      && outputBytes <= l.policy.maxToolOutputBytes
      && invocation in l.toolCalls
      && var c := l.toolCalls[invocation];
         c.status.ToolSucceeded? && c.outputBytes == Some(outputBytes) && c.resultHash == Some(resultHash) && c.excerpt == excerpt
    case FailTool(invocation, errorCode, safeMessage, excerpt, _) =>
      && invocation in l.toolCalls
      && var c := l.toolCalls[invocation];
         c.status.ToolFailed? && c.errorCode == Some(errorCode) && c.safeMessage == Some(safeMessage) && c.excerpt == excerpt
  }

  lemma TakenIsStored(l: Ledger, status: Runs.Status, op: Op)
    requires Sound(l) && !Apply(l, status, op).answer.Refused?
    ensures Stored(Apply(l, status, op).ledger, op)
  {
    hide RequestValid, ExcerptValid, Blank, IsTotal, FieldsFit, WithSignature;
  }

  lemma StoredStays(l: Ledger, l': Ledger, op: Op)
    requires Stored(l, op) && Evolves(l, l')
    ensures Stored(l', op)
  {
    hide RequestValid;
  }

  /** The same request again: same keys and contents, with its own clock. */
  predicate Same(op: Op, again: Op) {
    match op
    case StartTurn(_) => again.StartTurn?
    case ReserveModel(ordinal, _, _) => again.ReserveModel? && again.ordinal == ordinal
    case RecordUsage(ordinal, input, output) => again == op
    case ReserveTool(invocation, request, _) => again.ReserveTool? && again.invocation == invocation && again.request == request
    case StartTool(invocation, _, _) => again.StartTool? && again.invocation == invocation
    case SucceedTool(invocation, outputBytes, resultHash, excerpt, _) =>
      again.SucceedTool? && again.invocation == invocation && again.outputBytes == outputBytes
      && again.resultHash == resultHash && again.excerpt == excerpt
    case FailTool(invocation, errorCode, safeMessage, excerpt, _) =>
      again.FailTool? && again.invocation == invocation && again.errorCode == errorCode && again.safeMessage == safeMessage
      && again.excerpt == excerpt
  }

  /** The turn still takes requests of this kind: it is RUNNING and before its deadline where that is asked. */
  predicate Open(l: Ledger, status: Runs.Status, op: Op) {
    && (!op.FailTool? ==> status.Running?)
    && (op.StartTurn? || op.ReserveModel? || op.ReserveTool? || op.StartTool? ==> !PastDeadline(l, op.now))
    && (op.ReserveModel? ==> op.approximateInput <= l.policy.maxInputTokensPerCall)
  }

  lemma StoredIsReplayed(l: Ledger, status: Runs.Status, op: Op, again: Op)
    requires Stored(l, op) && Same(op, again) && Open(l, status, again)
    requires op.StartTurn? || op.ReserveModel? || op.ReserveTool? || op.StartTool? ==> l.startedAt.Some?
    ensures Apply(l, status, again).ledger == l
    ensures Apply(l, status, again).answer
            == if op.StartTool? then
                 Answer.Refused(if l.toolCalls[op.invocation].status.ToolRunning? then ToolEffectInProgress else ToolEffectTerminal)
               else Replayed
  {
    hide RequestValid, ExcerptValid, Blank;
  }

  /** A matching repetition of a request that was taken, at any later point of any run, is recognised and answered
      from the stored row; a claim alone is never granted again. */
  lemma MatchingRepetitionIsRecognised(policy: Policy, before: seq<Call>, call: Call, between: seq<Call>, again: Call)
    requires PolicyValid(policy)
    requires !Apply(Play(Opened(policy), before), call.status, call.op).answer.Refused?
    requires Same(call.op, again.op) && Open(Play(Opened(policy), before + [call] + between), again.status, again.op)
    ensures var out := Apply(Play(Opened(policy), before + [call] + between), again.status, again.op);
            && out.ledger == Play(Opened(policy), before + [call] + between)
            && if call.op.StartTool? then out.answer == Answer.Refused(ToolEffectInProgress) || out.answer == Answer.Refused(ToolEffectTerminal)
               else out.answer == Replayed
  {
    hide Apply, Sound, Stored, Open, Same, Play;
    var last := StoredAcross(policy, before, call, between);
    StoredIsReplayed(last, again.status, call.op, again.op);
  }

  lemma StoredAcross(policy: Policy, before: seq<Call>, call: Call, between: seq<Call>) returns (last: Ledger)
    requires PolicyValid(policy)
    requires !Apply(Play(Opened(policy), before), call.status, call.op).answer.Refused?
    ensures last == Play(Opened(policy), before + [call] + between) && Stored(last, call.op)
    ensures call.op.StartTurn? || call.op.ReserveModel? || call.op.ReserveTool? || call.op.StartTool? ==> last.startedAt.Some?
  {
    var l := Opened(policy);
    EveryRunKeeps(policy, before);
    hide Apply, Evolves;
    TakenIsStored(Play(l, before), call.status, call.op);
    assert (before + [call])[..|before|] == before;
    var taken := Play(l, before + [call]);
    EveryRunKeeps(policy, before + [call]);
    assert taken.modelCalls != map[] || taken.toolCalls != map[] ==> taken.startedAt.Some?;
    hide Sound;
    last := Play(taken, between);
    PlayConcat(l, before + [call], between);
    EveryRunEvolves(taken, between);
    hide Play;
    StoredStays(taken, last, call.op);
    StartStays(taken, last);
  }

  lemma StartStays(l: Ledger, l': Ledger)
    requires Evolves(l, l')
    ensures l.startedAt.Some? ==> l'.startedAt.Some?
  {
  }

  /** The same key with other contents. */
  predicate Contradicts(op: Op, again: Op) {
    match op
    case RecordUsage(ordinal, input, output) =>
      again.RecordUsage? && again.ordinal == ordinal && (Conflicts(input, again.input) || Conflicts(output, again.output))
    case ReserveTool(invocation, request, _) => again.ReserveTool? && again.invocation == invocation && again.request != request
    case SucceedTool(invocation, outputBytes, resultHash, excerpt, _) =>
      again.SucceedTool? && again.invocation == invocation
      && !(again.outputBytes == outputBytes && again.resultHash == resultHash && again.excerpt == excerpt)
    case FailTool(invocation, errorCode, safeMessage, excerpt, _) =>
      again.FailTool? && again.invocation == invocation
      && !(again.errorCode == errorCode && again.safeMessage == safeMessage && again.excerpt == excerpt)
    case _ => false
  }

  /** The repetition gets as far as the comparison with the stored row. */
  predicate Compared(l: Ledger, status: Runs.Status, op: Op, again: Op) {
    && Open(l, status, again)
    && (op.SucceedTool? && again.SucceedTool? ==> again.outputBytes <= l.policy.maxToolOutputBytes)
    && (op.ReserveTool? && again.ReserveTool? ==>
          again.request.tool == op.request.tool && again.request.schema == op.request.schema && RequestValid(again.request))
  }

  function ConflictCode(op: Op): Code {
    if op.RecordUsage? then ModelUsageConflict
    else if op.ReserveTool? then ToolReservationConflict
    else if op.SucceedTool? then ToolResultConflict
    else ToolErrorConflict
  }

  lemma StoredRefuses(l: Ledger, status: Runs.Status, op: Op, again: Op)
    requires Stored(l, op) && Contradicts(op, again)
    requires op.ReserveTool? ==> l.startedAt.Some?
    ensures Apply(l, status, again).answer.Refused?
    ensures Compared(l, status, op, again) ==> Apply(l, status, again).answer == Answer.Refused(ConflictCode(op))
  {
    hide RequestValid, ExcerptValid, Blank;
  }

  /** A contradicting repetition is refused at any later point, as the conflict it is whenever it gets as far as
      the comparison. */
  lemma ContradictionIsRefused(policy: Policy, before: seq<Call>, call: Call, between: seq<Call>, again: Call)
    requires PolicyValid(policy)
    requires !Apply(Play(Opened(policy), before), call.status, call.op).answer.Refused?
    requires Contradicts(call.op, again.op)
    ensures var l := Play(Opened(policy), before + [call] + between);
            && Apply(l, again.status, again.op).answer.Refused?
            && (Compared(l, again.status, call.op, again.op) ==>
                  Apply(l, again.status, again.op).answer == Answer.Refused(ConflictCode(call.op)))
  {
    hide Apply, Sound, Stored, Contradicts, Play, Compared;
    var last := StoredAcross(policy, before, call, between);
    StoredRefuses(last, again.status, call.op, again.op);
  }
}
