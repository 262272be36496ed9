/** What every run of budget requests keeps, and why replaying requests is harmless. */
module LedgerTheorems {
  import opened Wrappers
  import Runs
  import opened Ledger

  // ---- token totals -------------------------------------------------------------------------------

  /** The sum does not depend on the order in which the rows are visited. */
  lemma {:induction false} TotalSplit(values: map<int, Option<int>>, k: int)
    requires k in values
    ensures Total(values) == values[k].GetOr(0) + Total(values - {k})
    decreases |values|
  {
    var first :| first in values && Total(values) == values[first].GetOr(0) + Total(values - {first});
    if first != k {
      TotalSplit(values - {first}, k);
      TotalSplit(values - {k}, first);
      assert values - {first} - {k} == values - {k} - {first};
    }
  }

  lemma TotalSet(values: map<int, Option<int>>, k: int, v: Option<int>)
    ensures Total(values[k := v]) == v.GetOr(0) + Total(values - {k})
  {
    TotalSplit(values[k := v], k);
    assert values[k := v] - {k} == values - {k};
  }

  lemma TotalStep(total: Option<int>, values: map<int, Option<int>>, k: int, given: Option<int>)
    requires IsTotal(total, values) && k in values && values[k].None?
    ensures IsTotal(AddOptional(total, given), values[k := given])
  {
    TotalSplit(values, k);
    TotalSet(values, k, given);
    var after := values[k := given];
    if given.Some? {
      assert after[k].Some?;
    } else {
      assert after == values;
    }
  }

  lemma RecordKeepsTotals(l: Ledger, ordinal: int, input: Option<int>, output: Option<int>)
    requires Sound(l)
    ensures var l' := RecordUsageTx(l, ordinal, input, output).ledger;
            IsTotal(l'.inputTokens, Inputs(l'.modelCalls)) && IsTotal(l'.outputTokens, Outputs(l'.modelCalls))
  {
    var out := RecordUsageTx(l, ordinal, input, output);
    if out.answer.Accepted? {
      var call := l.modelCalls[ordinal];
      assert Inputs(out.ledger.modelCalls) == Inputs(l.modelCalls)[ordinal := Merge(call.input, input)];
      assert Outputs(out.ledger.modelCalls) == Outputs(l.modelCalls)[ordinal := Merge(call.output, output)];
      if call.input.None? {
        TotalStep(l.inputTokens, Inputs(l.modelCalls), ordinal, input);
      } else {
        assert Inputs(out.ledger.modelCalls) == Inputs(l.modelCalls);
      }
      if call.output.None? {
        TotalStep(l.outputTokens, Outputs(l.modelCalls), ordinal, output);
      } else {
        assert Outputs(out.ledger.modelCalls) == Outputs(l.modelCalls);
      }
    }
  }

  lemma ReserveKeepsTotal(total: Option<int>, values: map<int, Option<int>>, k: int)
    requires IsTotal(total, values) && k !in values
    ensures IsTotal(total, values[k := None])
  {
    TotalSet(values, k, None);
    assert values - {k} == values;
    if total.Some? {
      var j :| j in values && values[j].Some?;
      assert values[k := None][j].Some?;
    }
  }

  // ---- the invariant ------------------------------------------------------------------------------

  lemma SignatureCounts(calls: map<InvocationId, ToolCall>, k: InvocationId, c: ToolCall, sig: (Name, Digest))
    requires k in calls ==> calls[k].request == c.request
    ensures |WithSignature(calls[k := c], sig)|
            == |WithSignature(calls, sig)| + (if k !in calls && Signature(c.request) == sig then 1 else 0)
  {
    if k !in calls && Signature(c.request) == sig {
      assert WithSignature(calls[k := c], sig) == WithSignature(calls, sig) + {k};
    } else {
      assert WithSignature(calls[k := c], sig) == WithSignature(calls, sig);
    }
  }

  lemma ToolCallKeeps(l: Ledger, k: InvocationId, c: ToolCall)
    requires Sound(l) && k in l.toolCalls && c.request == l.toolCalls[k].request && FieldsFit(c)
    requires c.status.ToolSucceeded? ==> 0 <= c.outputBytes.value <= l.policy.maxToolOutputBytes
    ensures Sound(l.(toolCalls := l.toolCalls[k := c]))
  {
    var l' := l.(toolCalls := l.toolCalls[k := c]);
    assert l'.toolCalls.Keys == l.toolCalls.Keys;
    assert |l'.toolCalls| == |l'.toolCalls.Keys| && |l.toolCalls| == |l.toolCalls.Keys|;
    forall sig ensures |WithSignature(l'.toolCalls, sig)| <= l.policy.maxRepeatedToolCalls {
      SignatureCounts(l.toolCalls, k, c, sig);
    }
  }

  lemma ReserveModelKeeps(l: Ledger, ordinal: int, approximateInput: int, now: int)
    requires Sound(l)
    ensures Sound(ReserveModelTx(l, ordinal, approximateInput, now).ledger)
  {
    hide FieldsFit, WithSignature, PastDeadline;
    var out := ReserveModelTx(l, ordinal, approximateInput, now);
    if out.answer.Accepted? {
      ReservedTotals(l, ordinal);
      hide IsTotal, Inputs, Outputs;
    }
  }

  lemma ReservedTotals(l: Ledger, ordinal: int)
    requires ordinal !in l.modelCalls
    requires IsTotal(l.inputTokens, Inputs(l.modelCalls)) && IsTotal(l.outputTokens, Outputs(l.modelCalls))
    ensures var calls := l.modelCalls[ordinal := ModelCall(None, None)];
            IsTotal(l.inputTokens, Inputs(calls)) && IsTotal(l.outputTokens, Outputs(calls))
  {
    var calls := l.modelCalls[ordinal := ModelCall(None, None)];
    assert Inputs(calls) == Inputs(l.modelCalls)[ordinal := None];
    assert Outputs(calls) == Outputs(l.modelCalls)[ordinal := None];
    hide IsTotal;
    ReserveKeepsTotal(l.inputTokens, Inputs(l.modelCalls), ordinal);
    ReserveKeepsTotal(l.outputTokens, Outputs(l.modelCalls), ordinal);
  }

  lemma ReserveToolKeeps(l: Ledger, invocation: InvocationId, r: ToolRequest, now: int)
    requires Sound(l)
    ensures Sound(ReserveToolTx(l, invocation, r, now).ledger)
  {
    hide IsTotal, Inputs, Outputs, WithSignature, PastDeadline, RequestValid;
    var out := ReserveToolTx(l, invocation, r, now);
    if out.answer.Accepted? {
      forall sig ensures |WithSignature(out.ledger.toolCalls, sig)| <= l.policy.maxRepeatedToolCalls {
        SignatureCounts(l.toolCalls, invocation, NewToolCall(r), sig);
      }
    }
  }

  lemma RecordUsageKeeps(l: Ledger, ordinal: int, input: Option<int>, output: Option<int>)
    requires Sound(l)
    ensures Sound(RecordUsageTx(l, ordinal, input, output).ledger)
  {
    hide IsTotal, FieldsFit, WithSignature, Inputs, Outputs, Conflicts, Negative, Merge, AddOptional;
    var l' := RecordUsageTx(l, ordinal, input, output).ledger;
    RecordKeepsTotals(l, ordinal, input, output);
    assert l'.modelCalls.Keys == l.modelCalls.Keys;
    assert |l'.modelCalls| == |l'.modelCalls.Keys| && |l.modelCalls| == |l.modelCalls.Keys|;
  }

  lemma StartTurnKeeps(l: Ledger, now: int)
    requires Sound(l)
    ensures Sound(StartTurnTx(l, now).ledger)
  {
    hide IsTotal, FieldsFit, WithSignature;
  }

  lemma StartToolKeeps(l: Ledger, invocation: InvocationId, now: int, startNow: int)
    requires Sound(l)
    ensures Sound(StartToolTx(l, invocation, now, startNow).ledger)
  {
    ToolCallKept(l);
    hide Sound, PastDeadline;
    var out := StartToolTx(l, invocation, now, startNow);
    if out.answer.Accepted? { ToolCallKeeps(l, invocation, out.ledger.toolCalls[invocation]); }
  }

  lemma SucceedToolKeeps(l: Ledger, invocation: InvocationId, outputBytes: int, resultHash: Digest, e: Excerpt, now: int)
    requires Sound(l)
    ensures Sound(SucceedToolTx(l, invocation, outputBytes, resultHash, e, now).ledger)
  {
    ToolCallKept(l);
    hide Sound, ExcerptValid;
    var out := SucceedToolTx(l, invocation, outputBytes, resultHash, e, now);
    if out.answer.Accepted? { ToolCallKeeps(l, invocation, out.ledger.toolCalls[invocation]); }
  }

  lemma FailToolKeeps(l: Ledger, invocation: InvocationId, errorCode: string, safeMessage: string, e: Excerpt, now: int)
    requires Sound(l)
    ensures Sound(FailToolTx(l, invocation, errorCode, safeMessage, e, now).ledger)
  {
    ToolCallKept(l);
    hide Sound, ExcerptValid;
    var out := FailToolTx(l, invocation, errorCode, safeMessage, e, now);
    if out.answer.Accepted? { ToolCallKeeps(l, invocation, out.ledger.toolCalls[invocation]); }
  }

  lemma ToolCallKept(l: Ledger)
    requires Sound(l)
    ensures forall k :: k in l.toolCalls ==> FieldsFit(l.toolCalls[k])
  {
    hide IsTotal, FieldsFit, WithSignature;
  }

  lemma ApplyKeeps(l: Ledger, status: Runs.Status, op: Op)
    requires Sound(l)
    ensures Sound(Apply(l, status, op).ledger)
  {
    hide Sound, StartTurnTx, ReserveModelTx, RecordUsageTx, ReserveToolTx, StartToolTx, SucceedToolTx, FailToolTx;
    match op
    case StartTurn(now) => StartTurnKeeps(l, now);
    case ReserveModel(ordinal, approximateInput, now) => ReserveModelKeeps(l, ordinal, approximateInput, now);
    case RecordUsage(ordinal, input, output) => RecordUsageKeeps(l, ordinal, input, output);
    case ReserveTool(invocation, request, now) => ReserveToolKeeps(l, invocation, request, now);
    case StartTool(invocation, now, startNow) => StartToolKeeps(l, invocation, now, startNow);
    case SucceedTool(invocation, bytes, hash, e, now) => SucceedToolKeeps(l, invocation, bytes, hash, e, now);
    case FailTool(invocation, code, message, e, now) => FailToolKeeps(l, invocation, code, message, e, now);
  }

  /** In every reachable ledger the counters equal the reservations held and stay within the limits,
      no call signature exceeds the loop limit, and the totals equal what was recorded. */
  lemma {:induction false} EveryRunKeeps(policy: Policy, calls: seq<Call>)
    requires PolicyValid(policy)
    ensures Sound(Play(Opened(policy), calls))
  {
    if calls == [] {
      var l := Opened(policy);
      assert forall sig :: WithSignature(l.toolCalls, sig) == {};
      assert Inputs(l.modelCalls) == map[] && Outputs(l.modelCalls) == map[];
    } else {
      EveryRunKeeps(policy, calls[..|calls| - 1]);
      ApplyKeeps(Play(Opened(policy), calls[..|calls| - 1]), calls[|calls| - 1].status, calls[|calls| - 1].op);
    }
  }

  /** A request raises the reservation counters by one exactly when it is an accepted reservation,
      which only a RUNNING turn can make. */
  lemma ReservationsCounted(l: Ledger, status: Runs.Status, op: Op)
    ensures var out := Apply(l, status, op);
            && out.ledger.modelReserved + out.ledger.toolReserved
               == l.modelReserved + l.toolReserved + (if out.answer.Accepted? && Reserves(op) then 1 else 0)
            && (out.answer.Accepted? && Reserves(op) ==> status.Running?)
  {
    hide PastDeadline, RequestValid, ExcerptValid, Blank, Conflicts, Negative;
  }

  // ---- replay -------------------------------------------------------------------------------------

  /** What an accepted request leaves behind for ever. */
  predicate Absorbed(l: Ledger, op: Op) {
    match op
    case StartTurn(_) => l.startedAt.Some?
    case ReserveModel(ordinal, _, _) => ordinal in l.modelCalls
    case RecordUsage(ordinal, input, output) =>
      && ordinal in l.modelCalls
      && (input.Some? ==> l.modelCalls[ordinal].input.Some?)
      && (output.Some? ==> l.modelCalls[ordinal].output.Some?)
    case ReserveTool(invocation, _, _) => invocation in l.toolCalls
    case StartTool(invocation, _, _) => invocation in l.toolCalls && !l.toolCalls[invocation].status.Reserved?
    case SucceedTool(invocation, _, _, _, _) => invocation in l.toolCalls && Final(l.toolCalls[invocation])
    case FailTool(invocation, _, _, _, _) => invocation in l.toolCalls && Final(l.toolCalls[invocation])
  }

  /** The later request repeats the earlier one: same kind, same key, and (for usage reports) no
      field the earlier one left open. Every other argument, and the clock, may differ. */
  predicate Repeats(op: Op, later: Op) {
    match op
    case StartTurn(_) => later.StartTurn?
    case ReserveModel(ordinal, _, _) => later.ReserveModel? && later.ordinal == ordinal
    case RecordUsage(ordinal, input, output) =>
      && later.RecordUsage? && later.ordinal == ordinal
      && (later.input.Some? ==> input.Some?) && (later.output.Some? ==> output.Some?)
    case ReserveTool(invocation, _, _) => later.ReserveTool? && later.invocation == invocation
    case StartTool(invocation, _, _) => later.StartTool? && later.invocation == invocation
    case SucceedTool(invocation, _, _, _, _) =>
      (later.SucceedTool? || later.FailTool?) && later.invocation == invocation
    case FailTool(invocation, _, _, _, _) => (later.SucceedTool? || later.FailTool?) && later.invocation == invocation
  }

  lemma AcceptedIsAbsorbed(l: Ledger, status: Runs.Status, op: Op)
    requires !Apply(l, status, op).answer.Refused?
    requires Sound(l)
    ensures Absorbed(Apply(l, status, op).ledger, op)
  {
  }

  lemma AbsorbedForever(l: Ledger, status: Runs.Status, next: Op, op: Op)
    requires Absorbed(l, op)
    ensures Absorbed(Apply(l, status, next).ledger, op)
  {
  }

  lemma AbsorbedStutters(l: Ledger, status: Runs.Status, op: Op, later: Op)
    requires Absorbed(l, op) && Repeats(op, later)
    ensures Apply(l, status, later).ledger == l
    ensures !Apply(l, status, later).answer.Accepted?
  {
  }

  lemma {:induction false} AbsorbedAcross(l: Ledger, calls: seq<Call>, op: Op)
    requires Absorbed(l, op)
    ensures Absorbed(Play(l, calls), op)
  {
    if calls != [] {
      AbsorbedAcross(l, calls[..|calls| - 1], op);
      AbsorbedForever(Play(l, calls[..|calls| - 1]), calls[|calls| - 1].status, calls[|calls| - 1].op, op);
    }
  }

  lemma {:induction false} PlayConcat(l: Ledger, a: seq<Call>, b: seq<Call>)
    ensures Play(l, a + b) == Play(Play(l, a), b)
  {
    if b == [] {
      assert a + b == a;
    } else {
      PlayConcat(l, a, b[..|b| - 1]);
      assert (a + b)[..|a + b| - 1] == a + b[..|b| - 1];
    }
  }

  /** A request that was not refused can be repeated at any later point of any run, with matching or
      conflicting arguments and at any time: the run ends in the ledger it would have ended in. */
  lemma DuplicatesAreInvisible(policy: Policy, before: seq<Call>, call: Call, between: seq<Call>, dup: Call,
                               after: seq<Call>)
    requires PolicyValid(policy)
    requires !Apply(Play(Opened(policy), before), call.status, call.op).answer.Refused?
    requires Repeats(call.op, dup.op)
    ensures Play(Opened(policy), before + [call] + between + [dup] + after)
            == Play(Opened(policy), before + [call] + between + after)
    ensures !Apply(Play(Opened(policy), before + [call] + between), dup.status, dup.op).answer.Accepted?
  {
    var l := Opened(policy);
    EveryRunKeeps(policy, before);
    var mid := Play(l, before + [call]);
    assert (before + [call])[..|before|] == before;
    AcceptedIsAbsorbed(Play(l, before), call.status, call.op);
    AbsorbedAcross(mid, between, call.op);
    AbsorbedStutters(Play(mid, between), dup.status, call.op, dup.op);
    PlayConcat(l, before + [call], between);
    var all := before + [call] + between;
    assert (all + [dup])[..|all|] == all;
    PlayConcat(l, all + [dup], after);
    PlayConcat(l, all, after);
  }

  /** Over all workers and retries, a tool call is claimed for execution at most once. */
  lemma ClaimedAtMostOnce(policy: Policy, before: seq<Call>, first: Call, between: seq<Call>, second: Call)
    requires PolicyValid(policy)
    requires first.op.StartTool? && second.op.StartTool? && first.op.invocation == second.op.invocation
    requires Apply(Play(Opened(policy), before), first.status, first.op).answer.Accepted?
    ensures Apply(Play(Opened(policy), before + [first] + between), second.status, second.op).answer.Refused?
  {
    DuplicatesAreInvisible(policy, before, first, between, second, []);
  }

  // ---- progress -----------------------------------------------------------------------------------

  function Rank(s: ToolStatus): nat {
    match s
    case Reserved => 0
    case ToolRunning => 1
    case _ => 2
  }

  /** Everything one request may change: rows are never removed, a recorded token count and the
      deadline never change, a tool call climbs one rank at a time and a finished one is frozen. */
  ghost predicate Evolves(l: Ledger, l': Ledger) {
    && l'.policy == l.policy
    && (l.startedAt.Some? ==> l'.startedAt == l.startedAt && l'.deadlineAt == l.deadlineAt)
    && l.modelReserved <= l'.modelReserved && l.toolReserved <= l'.toolReserved
    && (forall k :: k in l.modelCalls ==>
          && k in l'.modelCalls
          && (l.modelCalls[k].input.Some? ==> l'.modelCalls[k].input == l.modelCalls[k].input)
          && (l.modelCalls[k].output.Some? ==> l'.modelCalls[k].output == l.modelCalls[k].output))
    && (forall k :: k in l.toolCalls ==>
          && k in l'.toolCalls
          && l'.toolCalls[k].request == l.toolCalls[k].request
          && Rank(l.toolCalls[k].status) <= Rank(l'.toolCalls[k].status)
          && (Final(l.toolCalls[k]) ==> l'.toolCalls[k] == l.toolCalls[k]))
  }

  lemma ApplyEvolves(l: Ledger, status: Runs.Status, op: Op)
    ensures Evolves(l, Apply(l, status, op).ledger)
  {
    var out := Apply(l, status, op);
    if out.answer.Accepted? {
      match op
      case StartTurn(_) =>
      case ReserveModel(_, _, _) =>
      case RecordUsage(ordinal, input, output) => RecordEvolves(l, ordinal, input, output);
      case ReserveTool(_, _, _) =>
      case StartTool(invocation, _, _) => ToolCallEvolves(l, invocation, out.ledger.toolCalls[invocation]);
      case SucceedTool(invocation, _, _, _, _) => ToolCallEvolves(l, invocation, out.ledger.toolCalls[invocation]);
      case FailTool(invocation, _, _, _, _) => ToolCallEvolves(l, invocation, out.ledger.toolCalls[invocation]);
    }
  }

  lemma RecordEvolves(l: Ledger, ordinal: int, input: Option<int>, output: Option<int>)
    ensures Evolves(l, RecordUsageTx(l, ordinal, input, output).ledger)
  {
  }

  lemma ToolCallEvolves(l: Ledger, k: InvocationId, c: ToolCall)
    requires k in l.toolCalls && c.request == l.toolCalls[k].request
    requires !Final(l.toolCalls[k]) && Rank(l.toolCalls[k].status) <= Rank(c.status)
    ensures Evolves(l, l.(toolCalls := l.toolCalls[k := c]))
  {
  }

  /** A new tool call is reserved, and an existing one climbs at most one rank. */
  lemma OneRankAtATime(l: Ledger, status: Runs.Status, op: Op, k: InvocationId)
    requires k in Apply(l, status, op).ledger.toolCalls
    ensures var c := Apply(l, status, op).ledger.toolCalls[k];
            if k !in l.toolCalls then c.status.Reserved?
            else Rank(l.toolCalls[k].status) <= Rank(c.status) <= Rank(l.toolCalls[k].status) + 1
  {
  }

  lemma {:induction false} EveryRunEvolves(l: Ledger, calls: seq<Call>)
    ensures Evolves(l, Play(l, calls))
  {
    if calls != [] {
      EveryRunEvolves(l, calls[..|calls| - 1]);
      ApplyEvolves(Play(l, calls[..|calls| - 1]), calls[|calls| - 1].status, calls[|calls| - 1].op);
    }
  }

  /** Outside RUNNING, and at or after the deadline, nothing is reserved and no tool call is claimed:
      an accepted reservation or claim was made while RUNNING and before the deadline in force. */
  lemma NothingLate(l: Ledger, status: Runs.Status, op: Op)
    requires Sound(l)
    requires op.ReserveModel? || op.ReserveTool? || op.StartTool?
    requires Apply(l, status, op).answer.Accepted?
    ensures status.Running?
    ensures Apply(l, status, op).ledger.deadlineAt.Some? && op.now < Apply(l, status, op).ledger.deadlineAt.value
  {
    if op.StartTool? {
      assert op.invocation in l.toolCalls;
    }
  }

  /** A run that is not RUNNING keeps its counters, totals and reservations for ever. */
  lemma {:induction false} FrozenOutsideRunning(l: Ledger, calls: seq<Call>)
    requires forall i :: 0 <= i < |calls| ==> !calls[i].status.Running?
    ensures Play(l, calls).(toolCalls := l.toolCalls) == l
    ensures Play(l, calls).toolCalls.Keys == l.toolCalls.Keys
  {
    if calls != [] {
      FrozenOutsideRunning(l, calls[..|calls| - 1]);
    }
  }
}
