/** The budget ledger of one agent turn: keyed reservations of model and tool calls, their
    counters and token totals, and the tool-call state machine. */
module Ledger {
  import opened Wrappers
  import Runs

  const MAX_TOOL_OUTPUT_BYTES: int := 64 * 1024
  const INPUT_PREVIEW_BYTES: nat := 8 * 1024
  const OUTPUT_PREVIEW_BYTES: nat := 16 * 1024

  type Name = string
  type Digest = string
  type InvocationId = string

  /** A bounded excerpt, with the facts its validation looks at. */
  datatype Preview = Preview(text: string, encodedBytes: nat, blank: bool)

  datatype Excerpt = Excerpt(preview: Option<Preview>, truncated: bool)

  const NO_EXCERPT := Excerpt(None, false)

  predicate ExcerptValid(e: Excerpt, maxBytes: nat) {
    match e.preview
    case None => !e.truncated
    case Some(p) => !p.blank && p.encodedBytes <= maxBytes
  }

  predicate Space(c: char) {
    c == ' ' || '\t' <= c <= '\r' || '\U{1c}' <= c <= '\U{1f}'
  }

  predicate Blank(s: string) {
    forall i :: 0 <= i < |s| ==> Space(s[i])
  }

  // ---- policy and rows --------------------------------------------------------------------------

  /** The limits frozen into the turn when it was posted, with its policy's tool contracts. */
  datatype Policy = Policy(
    maxModelCalls: nat,
    maxToolCalls: nat,
    wallClockLimit: int,
    maxToolOutputBytes: int,
    maxRepeatedToolCalls: int,
    maxInputTokensPerCall: int,
    allowedTools: set<Name>,
    toolSchemas: map<Name, Digest>,
    externalTools: set<Name>,
    sandboxAllowed: bool)

  predicate PolicyValid(p: Policy) {
    p.wallClockLimit > 0 && p.maxToolOutputBytes > 0 && p.maxRepeatedToolCalls > 0 && p.maxInputTokensPerCall > 0
  }

  datatype ModelCall = ModelCall(input: Option<int>, output: Option<int>)

  datatype ToolRequest = ToolRequest(tool: Name, schema: Digest, arguments: Digest, inputBytes: int, excerpt: Excerpt)

  datatype ToolStatus = Reserved | ToolRunning | ToolSucceeded | ToolFailed

  datatype ToolCall = ToolCall(
    request: ToolRequest,
    status: ToolStatus,
    outputBytes: Option<int>,
    resultHash: Option<Digest>,
    errorCode: Option<string>,
    safeMessage: Option<string>,
    duration: Option<int>,
    startedAt: Option<int>,
    completedAt: Option<int>,
    excerpt: Excerpt)

  datatype Ledger = Ledger(
    policy: Policy,
    modelReserved: nat,
    toolReserved: nat,
    inputTokens: Option<int>,
    outputTokens: Option<int>,
    startedAt: Option<int>,
    deadlineAt: Option<int>,
    modelCalls: map<int, ModelCall>,
    toolCalls: map<InvocationId, ToolCall>)

  function Opened(policy: Policy): Ledger {
    Ledger(policy, 0, 0, None, None, None, None, map[], map[])
  }

  // ---- requests ---------------------------------------------------------------------------------

  datatype Op =
    | StartTurn(now: int)
    | ReserveModel(ordinal: int, approximateInput: int, now: int)
    | RecordUsage(ordinal: int, input: Option<int>, output: Option<int>)
    | ReserveTool(invocation: InvocationId, request: ToolRequest, now: int)
    | StartTool(invocation: InvocationId, now: int, startNow: int)
    | SucceedTool(invocation: InvocationId, outputBytes: int, resultHash: Digest, excerpt: Excerpt, now: int)
    | FailTool(invocation: InvocationId, errorCode: string, safeMessage: string, excerpt: Excerpt, now: int)

  datatype Code =
    | ScopeInvalid
    | TurnCancelledCode
    | TurnNotRunning
    | DeadlineExceeded
    | InputTokenBudgetExceeded
    | ModelBudgetExceeded
    | ModelReservationMissing
    | ModelUsageConflict
    | ToolNotAllowed
    | ToolContractMissing
    | ToolSchemaDrift
    | ToolReservationConflict
    | ToolBudgetExceeded
    | ToolLoopRejected
    | ToolReservationMissing
    | ToolEffectInProgress
    | ToolEffectTerminal
    | ToolOutputTooLarge
    | ToolResultConflict
    | ToolErrorConflict
    | ToolCompleteConflict
    | InvalidValue

  /** Accepted: the request took effect now. Replayed: it had already taken effect and the stored
      row is returned. Refused: an exception, which rolls the transaction back. */
  datatype Answer = Accepted | Replayed | Refused(code: Code)

  datatype Outcome = Outcome(ledger: Ledger, answer: Answer)

  // ---- pieces -----------------------------------------------------------------------------------

  function Start(l: Ledger, now: int): Ledger {
    if l.startedAt.Some? then l
    else l.(startedAt := Some(now), deadlineAt := Some(now + l.policy.wallClockLimit))
  }

  predicate PastDeadline(l: Ledger, now: int) {
    l.deadlineAt.Some? && now >= l.deadlineAt.value
  }

  function RunningCode(s: Runs.Status): Option<Code> {
    if s.CancelRequested? then Some(TurnCancelledCode)
    else if !s.Running? then Some(TurnNotRunning)
    else None
  }

  function AddOptional(current: Option<int>, value: Option<int>): Option<int> {
    if value.None? then current else Some(current.GetOr(0) + value.value)
  }

  predicate Negative(v: Option<int>) { v.Some? && v.value < 0 }

  predicate Conflicts(stored: Option<int>, given: Option<int>) {
    stored.Some? && given.Some? && stored != given
  }

  function Merge(stored: Option<int>, given: Option<int>): Option<int> {
    if stored.Some? then stored else given
  }

  function Signature(r: ToolRequest): (Name, Digest) { (r.tool, r.arguments) }

  function WithSignature(calls: map<InvocationId, ToolCall>, sig: (Name, Digest)): set<InvocationId> {
    set k | k in calls && Signature(calls[k].request) == sig
  }

  function NewToolCall(r: ToolRequest): ToolCall {
    ToolCall(r, Reserved, None, None, None, None, None, None, None, NO_EXCERPT)
  }

  predicate RequestValid(r: ToolRequest) {
    r.inputBytes >= 0 && ExcerptValid(r.excerpt, INPUT_PREVIEW_BYTES)
  }

  /** Which columns a row may hold in each status. */
  predicate FieldsFit(c: ToolCall) {
    match c.status
    case Reserved =>
      && c.startedAt.None? && c.completedAt.None? && c.outputBytes.None? && c.resultHash.None?
      && c.errorCode.None? && c.safeMessage.None? && c.duration.None? && c.excerpt == NO_EXCERPT
    case ToolRunning =>
      && c.startedAt.Some? && c.completedAt.None? && c.outputBytes.None? && c.resultHash.None?
      && c.errorCode.None? && c.safeMessage.None? && c.duration.None? && c.excerpt == NO_EXCERPT
    case ToolSucceeded =>
      && c.startedAt.Some? && c.completedAt.Some? && c.outputBytes.Some? && c.resultHash.Some?
      && c.errorCode.None? && c.safeMessage.None? && c.duration.Some?
    case ToolFailed =>
      && c.startedAt.Some? && c.completedAt.Some? && c.outputBytes.None? && c.resultHash.None?
      && c.errorCode.Some? && c.safeMessage.Some? && c.duration.Some?
  }

  predicate Final(c: ToolCall) {
    c.status.ToolSucceeded? || c.status.ToolFailed?
  }

  // ---- transactions -----------------------------------------------------------------------------

  function StartTurnTx(l: Ledger, now: int): Outcome {
    var started := Start(l, now);
    if PastDeadline(started, now) then Outcome(l, Refused(DeadlineExceeded))
    else Outcome(started, if l.startedAt.Some? then Replayed else Accepted)
  }

  function ReserveModelTx(l: Ledger, ordinal: int, approximateInput: int, now: int): Outcome {
    var started := Start(l, now);
    if PastDeadline(started, now) then Outcome(l, Refused(DeadlineExceeded))
    else if approximateInput > l.policy.maxInputTokensPerCall then Outcome(l, Refused(InputTokenBudgetExceeded))
    else if ordinal < 1 then Outcome(l, Refused(InvalidValue))
    else if ordinal in l.modelCalls then Outcome(l, Replayed)
    else if l.modelReserved >= l.policy.maxModelCalls then Outcome(l, Refused(ModelBudgetExceeded))
    else
      Outcome(
        started.(modelReserved := l.modelReserved + 1, modelCalls := l.modelCalls[ordinal := ModelCall(None, None)]),
        Accepted)
  }

  function RecordUsageTx(l: Ledger, ordinal: int, input: Option<int>, output: Option<int>): Outcome {
    if ordinal !in l.modelCalls then Outcome(l, Refused(ModelReservationMissing))
    else
      var call := l.modelCalls[ordinal];
      if Negative(input) || Negative(output) || Conflicts(call.input, input) || Conflicts(call.output, output) then
        Outcome(l, Refused(ModelUsageConflict))
      else
        var recorded := ModelCall(Merge(call.input, input), Merge(call.output, output));
        if recorded == call then Outcome(l, Replayed)
        else
          Outcome(
            l.(modelCalls := l.modelCalls[ordinal := recorded],
               inputTokens := AddOptional(l.inputTokens, if call.input.None? then input else None),
               outputTokens := AddOptional(l.outputTokens, if call.output.None? then output else None)),
            Accepted)
  }

  function ReserveToolTx(l: Ledger, invocation: InvocationId, r: ToolRequest, now: int): Outcome {
    var started := Start(l, now);
    if PastDeadline(started, now) then Outcome(l, Refused(DeadlineExceeded))
    else if r.tool !in l.policy.allowedTools then Outcome(l, Refused(ToolNotAllowed))
    else if r.tool !in l.policy.toolSchemas then Outcome(l, Refused(ToolContractMissing))
    else if r.schema != l.policy.toolSchemas[r.tool] then Outcome(l, Refused(ToolSchemaDrift))
    else if !RequestValid(r) then Outcome(l, Refused(InvalidValue))
    else if invocation in l.toolCalls then
      Outcome(l, if l.toolCalls[invocation].request == r then Replayed else Refused(ToolReservationConflict))
    else if l.toolReserved >= l.policy.maxToolCalls then Outcome(l, Refused(ToolBudgetExceeded))
    else if |WithSignature(l.toolCalls, Signature(r))| >= l.policy.maxRepeatedToolCalls then
      Outcome(l, Refused(ToolLoopRejected))
    else
      Outcome(
        started.(toolReserved := l.toolReserved + 1, toolCalls := l.toolCalls[invocation := NewToolCall(r)]),
        Accepted)
  }

  function StartToolTx(l: Ledger, invocation: InvocationId, now: int, startNow: int): Outcome {
    if PastDeadline(l, now) then Outcome(l, Refused(DeadlineExceeded))
    else if invocation !in l.toolCalls then Outcome(l, Refused(ToolReservationMissing))
    else
      var call := l.toolCalls[invocation];
      if call.status.ToolRunning? then Outcome(l, Refused(ToolEffectInProgress))
      else if Final(call) then Outcome(l, Refused(ToolEffectTerminal))
      else
        Outcome(
          l.(toolCalls := l.toolCalls[invocation := call.(status := ToolRunning, startedAt := Some(startNow))]),
          Accepted)
  }

  function SucceedToolTx(l: Ledger, invocation: InvocationId, outputBytes: int, resultHash: Digest, e: Excerpt,
                         now: int): Outcome {
    if outputBytes > l.policy.maxToolOutputBytes then Outcome(l, Refused(ToolOutputTooLarge))
    else if invocation !in l.toolCalls then Outcome(l, Refused(ToolReservationMissing))
    else
      var call := l.toolCalls[invocation];
      if call.status.ToolSucceeded? then
        Outcome(l,
                if call.outputBytes == Some(outputBytes) && call.resultHash == Some(resultHash) && call.excerpt == e
                then Replayed else Refused(ToolResultConflict))
      else if !call.status.ToolRunning? then Outcome(l, Refused(ToolCompleteConflict))
      else if call.startedAt.None? || now < call.startedAt.value || !(0 <= outputBytes <= MAX_TOOL_OUTPUT_BYTES)
              || !ExcerptValid(e, OUTPUT_PREVIEW_BYTES) then
        Outcome(l, Refused(InvalidValue))
      else
        var done := call.(status := ToolSucceeded, outputBytes := Some(outputBytes), resultHash := Some(resultHash),
                          excerpt := e, duration := Some(now - call.startedAt.value), completedAt := Some(now));
        Outcome(l.(toolCalls := l.toolCalls[invocation := done]), Accepted)
  }

  function FailToolTx(l: Ledger, invocation: InvocationId, errorCode: string, safeMessage: string, e: Excerpt,
                      now: int): Outcome {
    if invocation !in l.toolCalls then Outcome(l, Refused(ToolReservationMissing))
    else
      var call := l.toolCalls[invocation];
      if call.status.ToolFailed? then
        Outcome(l,
                if call.errorCode == Some(errorCode) && call.safeMessage == Some(safeMessage) && call.excerpt == e
                then Replayed else Refused(ToolErrorConflict))
      else if !call.status.ToolRunning? then Outcome(l, Refused(ToolCompleteConflict))
      else if call.startedAt.None? || now < call.startedAt.value || Blank(errorCode) || |errorCode| > 100
              || Blank(safeMessage) || |safeMessage| > 500 || !ExcerptValid(e, OUTPUT_PREVIEW_BYTES) then
        Outcome(l, Refused(InvalidValue))
      else
        var done := call.(status := ToolFailed, errorCode := Some(errorCode), safeMessage := Some(safeMessage),
                          excerpt := e, duration := Some(now - call.startedAt.value), completedAt := Some(now));
        Outcome(l.(toolCalls := l.toolCalls[invocation := done]), Accepted)
  }

  /** One request against a turn whose run has the given status. Only failure reports are taken
      from a run that is not RUNNING. */
  function Apply(l: Ledger, status: Runs.Status, op: Op): Outcome {
    if !op.FailTool? && RunningCode(status).Some? then Outcome(l, Refused(RunningCode(status).value))
    else
      match op
      case StartTurn(now) => StartTurnTx(l, now)
      case ReserveModel(ordinal, approximateInput, now) => ReserveModelTx(l, ordinal, approximateInput, now)
      case RecordUsage(ordinal, input, output) => RecordUsageTx(l, ordinal, input, output)
      case ReserveTool(invocation, request, now) => ReserveToolTx(l, invocation, request, now)
      case StartTool(invocation, now, startNow) => StartToolTx(l, invocation, now, startNow)
      case SucceedTool(invocation, outputBytes, resultHash, excerpt, now) =>
        SucceedToolTx(l, invocation, outputBytes, resultHash, excerpt, now)
      case FailTool(invocation, errorCode, safeMessage, excerpt, now) =>
        FailToolTx(l, invocation, errorCode, safeMessage, excerpt, now)
  }

  /** A request that was accepted wrote a budget event exactly when it reserved a call. */
  predicate Reserves(op: Op) {
    op.ReserveModel? || op.ReserveTool?
  }

  // ---- runs -------------------------------------------------------------------------------------

  /** One call by some worker, with the run status its transaction finds. */
  datatype Call = Call(status: Runs.Status, op: Op)

  function Play(l: Ledger, calls: seq<Call>): Ledger {
    if calls == [] then l
    else Apply(Play(l, calls[..|calls| - 1]), calls[|calls| - 1].status, calls[|calls| - 1].op).ledger
  }

  // ---- invariant --------------------------------------------------------------------------------

  /** Sum of the recorded values, with nothing recorded counting as zero. */
  ghost function Total(values: map<int, Option<int>>): int {
    if values == map[] then 0
    else
      EmptyOrNot(values);
      var k :| k in values;
      values[k].GetOr(0) + Total(values - {k})
  }

  lemma EmptyOrNot(values: map<int, Option<int>>)
    ensures values == map[] || exists k :: k in values
  {
    if forall k :: k !in values {
      assert values == map[];
    }
  }

  ghost function Inputs(calls: map<int, ModelCall>): map<int, Option<int>> {
    map k | k in calls :: calls[k].input
  }

  ghost function Outputs(calls: map<int, ModelCall>): map<int, Option<int>> {
    map k | k in calls :: calls[k].output
  }

  /** The optional total is the sum of what was recorded, and null exactly when nothing was. */
  ghost predicate IsTotal(total: Option<int>, values: map<int, Option<int>>) {
    && (total.None? <==> forall k :: k in values ==> values[k].None?)
    && total.GetOr(0) == Total(values)
  }

  ghost predicate Sound(l: Ledger) {
    && PolicyValid(l.policy)
    && l.modelReserved == |l.modelCalls| <= l.policy.maxModelCalls
    && l.toolReserved == |l.toolCalls| <= l.policy.maxToolCalls
    && (forall sig :: |WithSignature(l.toolCalls, sig)| <= l.policy.maxRepeatedToolCalls)
    && (l.modelCalls != map[] || l.toolCalls != map[] ==> l.startedAt.Some?)
    && (l.startedAt.Some? <==> l.deadlineAt.Some?)
    && (l.startedAt.Some? ==> l.deadlineAt.value == l.startedAt.value + l.policy.wallClockLimit)
    && IsTotal(l.inputTokens, Inputs(l.modelCalls))
    && IsTotal(l.outputTokens, Outputs(l.modelCalls))
    && (forall k :: k in l.toolCalls ==> FieldsFit(l.toolCalls[k]))
    && (forall k :: k in l.toolCalls && l.toolCalls[k].status.ToolSucceeded? ==>
          0 <= l.toolCalls[k].outputBytes.value <= l.policy.maxToolOutputBytes)
  }
}
