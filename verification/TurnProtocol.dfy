/** Sessions, turns and every transaction that moves them, as steps on one database value. */
module TurnProtocol {
  import opened Wrappers
  import opened Runs
  import Artifacts
  import Ledger

  type RunId = string
  type SessionId = string
  type OwnerId = string
  type WorkerId = string
  type Key = string
  type Fingerprint = string

  // ---- rows -------------------------------------------------------------------------------------

  datatype Role = User | Assistant

  /** A message, with whether it carries a claim set. */
  datatype Message = Message(sequence: nat, role: Role, run: RunId, cited: bool)

  datatype Session = Session(owner: OwnerId, active: Option<RunId>, nextMessage: nat, messages: seq<Message>)

  /** The identity of a tool effect: external tools are named by the invocation, the project's own by what they do. */
  datatype EffectId = Invocation(id: string) | Content(tool: string, arguments: string)

  datatype ErrorKind = Temporary | Permanent | CancelledCall

  datatype EffectStatus = InFlight | Done(result: string) | Broken(error: ErrorKind)

  datatype Effect = Effect(tool: string, arguments: string, status: EffectStatus, attempt: nat)

  /** A turn's run together with the rows keyed by it. */
  datatype Run = Run(
    owner: OwnerId,
    session: SessionId,
    userMessage: nat,
    status: Status,
    nextEvent: nat,
    events: seq<Event>,
    claimSets: nat,
    shelf: Artifacts.Shelf,
    ledger: Ledger.Ledger,
    effects: map<EffectId, Effect>)

  datatype SandboxStatus = Active | Dirty | Retired

  /** The session's one sandbox lease. The fencing token rises with every new holder or generation. */
  datatype Sandbox = Sandbox(holder: RunId, generation: nat, fence: nat, status: SandboxStatus, expiresAt: int)

  datatype ControlStatus = Manual | Ended | Expired

  /** The session's latest browser control; it is anchored to the run that held the sandbox when it began. */
  datatype Control = Control(anchor: RunId, generation: nat, fence: nat, status: ControlStatus, revision: nat,
                             expiresAt: int, signedWith: Key)

  datatype Receipt = Receipt(fingerprint: Fingerprint, run: RunId)

  /** What a worker or dispatcher read from a run row without locking it. */
  datatype Sight = Sight(run: RunId, status: Status, nextEvent: nat)

  datatype Db = Db(
    sessions: map<SessionId, Session>,
    runs: map<RunId, Run>,
    receipts: map<(OwnerId, Key), Receipt>,
    sights: map<WorkerId, Sight>,
    executing: set<(WorkerId, RunId)>,
    sandboxes: map<SessionId, Sandbox>,
    controls: map<SessionId, Control>)

  const EMPTY_DB := Db(map[], map[], map[], map[], {}, map[], map[])

  // ---- pieces -----------------------------------------------------------------------------------

  /** Appends consecutively numbered events and moves the status, as one conditional update does. */
  function Append(run: Run, kinds: seq<Kind>, status: Status): Run {
    run.(status := status, events := run.events + Numbered(run.nextEvent, kinds), nextEvent := run.nextEvent + |kinds|)
  }

  function WithRun(db: Db, r: RunId, run: Run): Db {
    db.(runs := db.runs[r := run])
  }

  predicate Holds(db: Db, s: SessionId, r: RunId) {
    s in db.sessions && db.sessions[s].active == Some(r)
  }

  /** Frees the session only if this run still holds it. */
  function Release(db: Db, s: SessionId, r: RunId): Db {
    if Holds(db, s, r) then db.(sessions := db.sessions[s := db.sessions[s].(active := None)]) else db
  }

  /** One event that leaves the status as it is. */
  function Noted(run: Run, kind: Kind): Run {
    Append(run, [kind], run.status)
  }

  predicate Is(db: Db, r: RunId, status: Status) {
    r in db.runs && db.runs[r].status == status
  }

  function Repeat(k: Kind, n: nat): (kinds: seq<Kind>)
    ensures |kinds| == n && forall i :: 0 <= i < n ==> kinds[i] == k
  {
    seq(n, _ => k)
  }

  // ---- posting a message --------------------------------------------------------------------------

  datatype PostError =
    | IdempotencyConflict
    | SessionNotFound
    | SessionBusy
    | BrowserControlBusy
    | ScopeRefused
    | InputRefused
    | UniqueViolation

  /** The request. `run` is the fresh identifier; `refusedEarly` and `refusedLate` say whether the
      checks on project and attachments (before the browser control and the active turn are looked at) and on
      review output, index and profiles (after them) raise. `stale` says that the receipt was looked
      up before a concurrent post with the same key committed. */
  datatype PostRequest = PostRequest(
    actor: OwnerId,
    session: SessionId,
    key: Key,
    fingerprint: Fingerprint,
    run: RunId,
    policy: Ledger.Policy,
    refusedEarly: bool,
    refusedLate: bool,
    stale: bool)

  datatype PostReply = Posted(run: RunId) | AlreadyPosted(run: RunId) | Refused(error: PostError)

  predicate Visible(db: Db, s: SessionId, actor: OwnerId) {
    s in db.sessions && db.sessions[s].owner == actor
  }

  /** The session is held by a run that has not ended. */
  predicate Busy(db: Db, s: SessionId)
    requires s in db.sessions
  {
    var active := db.sessions[s].active;
    active.Some? && active.value in db.runs && !Terminal(db.runs[active.value].status)
  }

  /** Somebody drives the session's browser by hand; a control past its time still counts until it is closed. */
  predicate Driven(db: Db, s: SessionId) {
    s in db.controls && db.controls[s].status.Manual?
  }

  function NewRun(q: PostRequest, userMessage: nat): Run {
    Run(q.actor, q.session, userMessage, Queued, 3, Numbered(1, [RunCreated, MessageAccepted]), 0,
        Artifacts.EMPTY_SHELF, Ledger.Opened(q.policy), map[])
  }

  function PostReplyFor(db: Db, q: PostRequest): PostReply {
    var slot := (q.actor, q.key);
    if !q.stale && slot in db.receipts then
      if db.receipts[slot].fingerprint == q.fingerprint then AlreadyPosted(db.receipts[slot].run)
      else Refused(IdempotencyConflict)
    else if !Visible(db, q.session, q.actor) then Refused(SessionNotFound)
    else if q.refusedEarly then Refused(ScopeRefused)
    else if Driven(db, q.session) then Refused(BrowserControlBusy)
    else if Busy(db, q.session) then Refused(SessionBusy)
    else if q.refusedLate || !Ledger.PolicyValid(q.policy) then Refused(InputRefused)
    else if q.run in db.runs || slot in db.receipts then Refused(UniqueViolation)
    else Posted(q.run)
  }

  function Post(db: Db, q: PostRequest): Db {
    if PostReplyFor(db, q).Posted? then
      var s := db.sessions[q.session];
      var n := s.nextMessage;
      db.(sessions := db.sessions[q.session := s.(active := Some(q.run), nextMessage := n + 1,
                                                  messages := s.messages + [Message(n, User, q.run, false)])],
          runs := db.runs[q.run := NewRun(q, n)],
          receipts := db.receipts[(q.actor, q.key) := Receipt(q.fingerprint, q.run)])
    else db
  }

  function Create(db: Db, s: SessionId, actor: OwnerId): Db {
    if s in db.sessions then db else db.(sessions := db.sessions[s := Session(actor, None, 1, [])])
  }

  // ---- unlocked claims ----------------------------------------------------------------------------

  /** The conditional update on status matches and the unique index on (run, sequence) takes the event. */
  predicate ClaimCommits(db: Db, sight: Sight, expected: Status) {
    && Is(db, sight.run, expected)
    && sight.status == expected
    && forall e :: e in db.runs[sight.run].events ==> e.sequence != sight.nextEvent
  }

  function LookAt(db: Db, w: WorkerId, r: RunId): Db {
    if r !in db.runs then db else db.(sights := db.sights[w := Sight(r, db.runs[r].status, db.runs[r].nextEvent)])
  }

  /** Moves a run on the strength of an unlocked read: the sequence comes from the read. */
  function ClaimFrom(db: Db, w: WorkerId, expected: Status, to: Status, kind: Kind): Db {
    if w in db.sights && ClaimCommits(db, db.sights[w], expected) then
      var sight := db.sights[w];
      var run := db.runs[sight.run];
      WithRun(db, sight.run, run.(status := to, events := run.events + [Event(sight.nextEvent, kind)],
                                  nextEvent := sight.nextEvent + 1))
    else db
  }

  /** A worker takes a queued run and is inside its execution from then on. */
  function Claim(db: Db, w: WorkerId): Db {
    if w in db.sights && ClaimCommits(db, db.sights[w], Queued) then
      Enter(ClaimFrom(db, w, Queued, Running, RunStarted), w, db.sights[w].run)
    else db
  }

  function Enter(db: Db, w: WorkerId, r: RunId): Db {
    db.(executing := db.executing + {(w, r)})
  }

  // ---- ending a turn ------------------------------------------------------------------------------

  /** The user's cancellation: direct while nothing executes, cooperative while it does. */
  function Cancel(db: Db, actor: OwnerId, r: RunId): Db {
    if r !in db.runs || db.runs[r].owner != actor then db
    else
      match db.runs[r].status
      case Running => WithRun(db, r, Append(db.runs[r], [RunCancelRequested], CancelRequested))
      case CancelRequested => WithRun(db, r, Append(db.runs[r], [RunCancelled], Cancelled))
      case Queued => WithRun(db, r, Append(db.runs[r], [RunCancelled], Cancelled))
      case RetryWait => WithRun(db, r, Append(db.runs[r], [RunCancelled], Cancelled))
      case WaitingInput => WithRun(db, r, Append(db.runs[r], [RunCancelled], Cancelled))
      case WaitingDependency => WithRun(db, r, Append(db.runs[r], [RunCancelled], Cancelled))
      case _ => db
  }

  /** The failure policy applied to an execution that raised or whose worker crashed. */
  function FailAttempt(db: Db, r: RunId, retry: bool): Db {
    if !Is(db, r, Running) then db
    else if retry then WithRun(db, r, Append(db.runs[r], [RetryScheduled], RetryWait))
    else WithRun(db, r, Append(db.runs[r], [RunFailed], Failed))
  }

  /** The reconciler closes a cancelled run whose worker crashed. */
  function Reclaim(db: Db, r: RunId): Db {
    if !Is(db, r, CancelRequested) then db
    else WithRun(db, r, Append(db.runs[r], [RunCancelled], Cancelled))
  }

  /** The executor's cancellation commit; it raises when another run holds the session. */
  function CommitCancellation(db: Db, r: RunId): Db
    requires Is(db, r, CancelRequested)
  {
    var run := db.runs[r];
    var cancelled := WithRun(db, r, Append(run, [RunCancelled, TurnCancelled], Cancelled));
    if Holds(db, run.session, r) then Release(cancelled, run.session, r)
    else if run.session in db.sessions && db.sessions[run.session].active.None? then cancelled
    else db
  }

  function ConfirmCancel(db: Db, r: RunId): Db {
    if Is(db, r, CancelRequested) then CommitCancellation(db, r)
    else if Is(db, r, Cancelled) then Release(db, db.runs[r].session, r)
    else db
  }

  /** The runtime's result. `accepted` is false when bindings, citations or the workspace snapshot
      make the transaction raise. */
  datatype TurnResult = TurnResult(
    reports: seq<Artifacts.Report>,
    cited: bool,
    accepted: bool)

  function SuccessKinds(staged: nat, published: nat): seq<Kind> {
    [RuntimeBound] + Repeat(ArtifactStaged, staged) + Repeat(ArtifactCommitted, published) + [TurnSucceeded]
  }

  /** The fence of the session's sandbox, if it is in use and held by the run. */
  function CurrentFences(db: Db, r: RunId): set<Artifacts.Fence>
    requires r in db.runs
  {
    var s := db.runs[r].session;
    if s in db.sandboxes && db.sandboxes[s].status.Active? && db.sandboxes[s].holder == r
    then {Artifacts.Fence(db.sandboxes[s].generation, db.sandboxes[s].fence)} else {}
  }

  /** Candidates staged and artifacts published under the fences that are current, or None when either step raises. */
  function ShelfOnSuccess(run: Run, result: TurnResult, fences: set<Artifacts.Fence>): Option<Artifacts.Publication> {
    var staged := Artifacts.StageAll(run.shelf.candidates, Artifacts.Requested(result.reports));
    if staged.None? then None
    else Artifacts.Publish(run.shelf.(candidates := staged.value), fences)
  }

  predicate SuccessCommits(db: Db, r: RunId, result: TurnResult) {
    && Is(db, r, Running)
    && result.accepted
    && Holds(db, db.runs[r].session, r)
    && ShelfOnSuccess(db.runs[r], result, CurrentFences(db, r)).Some?
  }

  /** The run row and the rows keyed by it after the success transaction. */
  function SucceededRun(run: Run, result: TurnResult, fences: set<Artifacts.Fence>): Run
    requires ShelfOnSuccess(run, result, fences).Some?
  {
    var publication := ShelfOnSuccess(run, result, fences).value;
    var kinds := SuccessKinds(|Artifacts.Requested(result.reports)|, |publication.published|);
    Append(run, kinds, Succeeded).(shelf := publication.shelf,
                                   claimSets := run.claimSets + if result.cited then 1 else 0)
  }

  function Succeed(db: Db, r: RunId, result: TurnResult): Db {
    if Is(db, r, CancelRequested) then CommitCancellation(db, r)
    else if !SuccessCommits(db, r, result) then db
    else
      var run := db.runs[r];
      var s := db.sessions[run.session];
      var answer := Message(s.nextMessage, Assistant, r, result.cited);
      db.(runs := db.runs[r := SucceededRun(run, result, CurrentFences(db, r))],
          sessions := db.sessions[run.session := s.(active := None, nextMessage := s.nextMessage + 1,
                                                    messages := s.messages + [answer])])
  }

  /** The best-effort callback after some service saw the run end in this status. */
  function ReleaseIfTerminal(db: Db, r: RunId, status: Status): Db {
    if Terminal(status) && Is(db, r, status) then Release(db, db.runs[r].session, r) else db
  }

  // ---- writers inside a turn ----------------------------------------------------------------------

  /** The run after a budget request; a new reservation also appends a budget event with the new counters. */
  function UsedRun(run: Run, op: Ledger.Op): Run {
    var out := Ledger.Apply(run.ledger, run.status, op);
    var counted := run.(ledger := out.ledger);
    if out.answer.Accepted? && Ledger.Reserves(op) then
      Append(counted, [BudgetUpdated(out.ledger.modelReserved, out.ledger.toolReserved)], run.status)
    else counted
  }

  function Usage(db: Db, r: RunId, op: Ledger.Op): Db {
    if r !in db.runs || Ledger.Apply(db.runs[r].ledger, db.runs[r].status, op).answer.Refused? then db
    else WithRun(db, r, UsedRun(db.runs[r], op))
  }

  function Submit(db: Db, r: RunId, toolCall: string, fact: Artifacts.Fact, fence: Artifacts.Fence): Db {
    if !Is(db, r, Running) || !Holds(db, db.runs[r].session, r) then db
    else
      var (shelf, reply) := Artifacts.Submit(db.runs[r].shelf, toolCall, fact, fence);
      if reply.Recorded? then WithRun(db, r, Append(db.runs[r].(shelf := shelf), [ArtifactValidated], Running)) else db
  }

  function Reject(db: Db, r: RunId, toolCall: string, fact: Artifacts.Fact, code: string): Db {
    if !Is(db, r, Running) then db
    else
      var (shelf, reply) := Artifacts.Reject(db.runs[r].shelf, toolCall, fact, code);
      if reply.Recorded? then WithRun(db, r, Append(db.runs[r].(shelf := shelf), [ArtifactRejected], Running)) else db
  }

  // ---- tool effects -----------------------------------------------------------------------------------

  predicate CallValid(id: EffectId, tool: string) {
    && 0 < |tool| <= 100
    && (id.Invocation? ==> !Ledger.Blank(id.id) && |id.id| <= 255)
  }

  predicate ToolPermitted(policy: Ledger.Policy, id: EffectId, tool: string) {
    if id.Invocation? then tool in policy.externalTools else tool in policy.allowedTools
  }

  /** The row exists and was made by this very call. */
  predicate KnownCall(run: Run, id: EffectId, tool: string, arguments: string) {
    id in run.effects && run.effects[id].tool == tool && run.effects[id].arguments == arguments
  }

  function WithEffect(run: Run, id: EffectId, effect: Effect): Run {
    run.(effects := run.effects[id := effect])
  }

  /** A call starts, or starts again after a temporary failure. */
  function Begun(run: Run, id: EffectId, tool: string, arguments: string): Run {
    if !run.status.Running? || !CallValid(id, tool) || !ToolPermitted(run.ledger.policy, id, tool) then run
    else if id !in run.effects then
      if |run.effects| >= run.ledger.policy.maxToolCalls then run
      else Noted(WithEffect(run, id, Effect(tool, arguments, InFlight, 1)), ToolProgress)
    else if KnownCall(run, id, tool, arguments) && run.effects[id].status == Broken(Temporary) then
      Noted(WithEffect(run, id, Effect(tool, arguments, InFlight, run.effects[id].attempt + 1)), ToolProgress)
    else run
  }

  /** A call's result arrives. The project's own tools remember their attempt; external tools do not. */
  function Finished(run: Run, id: EffectId, tool: string, arguments: string, attempt: nat, result: string): Run {
    if !run.status.Running? || !CallValid(id, tool) || !ToolPermitted(run.ledger.policy, id, tool) then run
    else if KnownCall(run, id, tool, arguments) && run.effects[id].status.InFlight?
            && (id.Content? ==> run.effects[id].attempt == attempt) then
      Noted(WithEffect(run, id, run.effects[id].(status := Done(result))), ToolProgress)
    else run
  }

  datatype ToolError = ToolError(kind: ErrorKind, code: string, safeMessage: string)

  predicate ErrorFits(e: ToolError) {
    0 < |e.code| <= 100 && 0 < |e.safeMessage| <= 500
  }

  /** The failure report of an external tool looks at the row only; the project's own tools close their row at any
      status and report while the turn is RUNNING or CANCEL_REQUESTED. */
  function FailedCall(run: Run, id: EffectId, tool: string, arguments: string, attempt: nat, e: ToolError): Run {
    if !CallValid(id, tool) || !ErrorFits(e) || !KnownCall(run, id, tool, arguments) || !run.effects[id].status.InFlight? then run
    else
      var broken := WithEffect(run, id, run.effects[id].(status := Broken(e.kind)));
      match id
      case Invocation(_) => if ToolPermitted(run.ledger.policy, id, tool) then Noted(broken, ToolFailed) else run
      case Content(_, _) =>
        if run.effects[id].attempt != attempt then run
        else if run.status.Running? || run.status.CancelRequested? then Noted(broken, ToolFailed)
        else broken
  }

  // ---- the sandbox lease --------------------------------------------------------------------------------

  /** A worker inside an execution takes the session's sandbox: it renews a healthy one or rotates to a new
      generation. The conditional update compares the fencing token, which fixes holder and generation, so the
      worker's earlier unlocked read of these is as good as the row; `reuse` is what it made of the rest. */
  function Acquire(db: Db, w: WorkerId, r: RunId, reuse: bool, now: int, ttl: int): Db {
    if r !in db.runs || (w, r) !in db.executing || !db.runs[r].ledger.policy.sandboxAllowed then db
    else
      var s := db.runs[r].session;
      if s !in db.sandboxes then WithSandbox(db, s, Sandbox(r, 1, 1, Active, now + ttl))
      else
        var box := db.sandboxes[s];
        if !reuse then WithSandbox(db, s, Sandbox(r, box.generation + 1, box.fence + 1, Active, now + ttl))
        else if box.status.Active? then
          WithSandbox(db, s, Sandbox(r, box.generation, if box.holder == r then box.fence else box.fence + 1, Active, now + ttl))
        else db
  }

  function WithSandbox(db: Db, s: SessionId, box: Sandbox): Db {
    db.(sandboxes := db.sandboxes[s := box])
  }

  function MarkDirty(db: Db, s: SessionId, generation: nat, fence: nat): Db {
    if s in db.sandboxes && db.sandboxes[s].status.Active? && db.sandboxes[s].generation == generation && db.sandboxes[s].fence == fence
    then WithSandbox(db, s, db.sandboxes[s].(status := Dirty)) else db
  }

  function Retire(db: Db, s: SessionId, now: int): Db {
    if s in db.sandboxes && (db.sandboxes[s].status.Dirty? || (db.sandboxes[s].status.Active? && db.sandboxes[s].expiresAt <= now))
    then WithSandbox(db, s, db.sandboxes[s].(status := Retired)) else db
  }

  // ---- driving the browser by hand ----------------------------------------------------------------------

  const MAX_CONTROL_SECONDS: int := 300

  predicate SandboxAvailable(db: Db, s: SessionId, now: int) {
    s in db.sandboxes && db.sandboxes[s].status.Active? && db.sandboxes[s].expiresAt > now
  }

  /** The control still belongs to the sandbox as it is. */
  predicate Fits(db: Db, s: SessionId, c: Control) {
    && s in db.sandboxes
    && var box := db.sandboxes[s];
       c.generation == box.generation && c.fence == box.fence && box.status.Active? && box.expiresAt >= c.expiresAt
  }

  predicate Live(c: Control, now: int) {
    c.status.Manual? && now < c.expiresAt
  }

  /** Saves the session's control and writes its event to the log of the run it is anchored to. */
  function SaveControl(db: Db, s: SessionId, c: Control): Db {
    var saved := db.(controls := db.controls[s := c]);
    if c.anchor in db.runs then WithRun(saved, c.anchor, Noted(db.runs[c.anchor], BrowserControl)) else saved
  }

  function CloseControl(db: Db, s: SessionId, status: ControlStatus): Db
    requires s in db.controls
  {
    SaveControl(db, s, db.controls[s].(status := status))
  }

  function Min(a: int, b: int): int {
    if a < b then a else b
  }

  /** The control that begins now on the session's sandbox. */
  function NewControl(db: Db, s: SessionId, signingKey: Key, now: int, ttl: int): Control
    requires s in db.sandboxes
  {
    var box := db.sandboxes[s];
    Control(box.holder, box.generation, box.fence, Manual, if s in db.controls then db.controls[s].revision + 1 else 1,
            Min(box.expiresAt, now + Min(ttl, MAX_CONTROL_SECONDS)), signingKey)
  }

  function Vacated(db: Db, s: SessionId): Db
    requires s in db.sessions
  {
    if db.sessions[s].active.Some? then Release(db, s, db.sessions[s].active.value) else db
  }

  predicate MayTake(db: Db, actor: OwnerId, s: SessionId, refused: bool, now: int) {
    Visible(db, s, actor) && !refused && !Busy(db, s) && SandboxAvailable(db, s, now)
  }

  /** The control in force answers a repeated request. */
  predicate SameControl(db: Db, s: SessionId, signingKey: Key, now: int) {
    && Driven(db, s) && Fits(db, s, db.controls[s]) && Live(db.controls[s], now)
    && db.controls[s].signedWith == signingKey
  }

  /** The owner takes over the browser: frees a session held by a turn that has ended, closes a control that is no
      longer good and begins a new one. `refused` says that the project check raises. */
  function Take(db: Db, actor: OwnerId, s: SessionId, refused: bool, signingKey: Key, now: int, ttl: int): Db {
    if !MayTake(db, actor, s, refused, now) then db
    else if SameControl(db, s, signingKey, now) then Vacated(db, s)
    else if ttl <= 0 then db
    else
      var vacated := Vacated(db, s);
      var closed := if Driven(db, s) then CloseControl(vacated, s, Expired) else vacated;
      SaveControl(closed, s, NewControl(db, s, signingKey, now, ttl))
  }

  /** Asking for the control closes one that is out of date. */
  function Peek(db: Db, actor: OwnerId, s: SessionId, now: int): Db {
    if Visible(db, s, actor) && Driven(db, s) && !(Fits(db, s, db.controls[s]) && Live(db.controls[s], now))
    then CloseControl(db, s, Expired) else db
  }

  function Hand(db: Db, actor: OwnerId, s: SessionId, now: int): Db {
    if Visible(db, s, actor) && Driven(db, s) then
      CloseControl(db, s, if Fits(db, s, db.controls[s]) && Live(db.controls[s], now) then Ended else Expired)
    else db
  }

  // ---- steps and runs -----------------------------------------------------------------------------

  datatype Action =
    | CreateSession(session: SessionId, actor: OwnerId)
    | PostMessage(request: PostRequest)
    | Look(worker: WorkerId, run: RunId)
    | ClaimRun(worker: WorkerId)
    | RequeueRun(worker: WorkerId)
    | CancelRun(actor: OwnerId, run: RunId)
    | AttemptFails(run: RunId, retry: bool)
    | ReclaimRun(run: RunId)
    | ConfirmCancellation(run: RunId)
    | CommitResult(run: RunId, result: TurnResult)
    | TerminalCallback(run: RunId, status: Status)
    | UseBudget(run: RunId, op: Ledger.Op)
    | SubmitArtifact(run: RunId, toolCall: string, fact: Artifacts.Fact, fence: Artifacts.Fence)
    | RejectArtifact(run: RunId, toolCall: string, fact: Artifacts.Fact, code: string)
    | BeginEffect(run: RunId, id: EffectId, tool: string, arguments: string)
    | FinishEffect(run: RunId, id: EffectId, tool: string, arguments: string, attempt: nat, answer: string)
    | FailEffect(run: RunId, id: EffectId, tool: string, arguments: string, attempt: nat, error: ToolError)
    | LeaveRun(worker: WorkerId, run: RunId)
    | AcquireSandbox(worker: WorkerId, run: RunId, reuse: bool, now: int, ttl: int)
    | DirtySandbox(session: SessionId, generation: nat, token: nat)
    | RetireSandbox(session: SessionId, now: int)
    | TakeBrowser(actor: OwnerId, session: SessionId, refused: bool, signingKey: Key, now: int, ttl: int)
    | PeekBrowser(actor: OwnerId, session: SessionId, now: int)
    | EndBrowser(actor: OwnerId, session: SessionId, now: int)

  predicate AboutTools(a: Action) {
    a.BeginEffect? || a.FinishEffect? || a.FailEffect?
  }

  predicate AboutLease(a: Action) {
    a.LeaveRun? || a.AcquireSandbox? || a.DirtySandbox? || a.RetireSandbox?
  }

  predicate AboutBrowser(a: Action) {
    a.TakeBrowser? || a.PeekBrowser? || a.EndBrowser?
  }

  function Next(db: Db, a: Action): Db {
    match a
    case CreateSession(s, actor) => Create(db, s, actor)
    case PostMessage(q) => Post(db, q)
    case Look(w, r) => LookAt(db, w, r)
    case ClaimRun(w) => Claim(db, w)
    case RequeueRun(w) => ClaimFrom(db, w, RetryWait, Queued, Requeued)
    case CancelRun(actor, r) => Cancel(db, actor, r)
    case AttemptFails(r, retry) => FailAttempt(db, r, retry)
    case ReclaimRun(r) => Reclaim(db, r)
    case ConfirmCancellation(r) => ConfirmCancel(db, r)
    case CommitResult(r, result) => Succeed(db, r, result)
    case TerminalCallback(r, status) => ReleaseIfTerminal(db, r, status)
    case UseBudget(r, op) => Usage(db, r, op)
    case SubmitArtifact(r, toolCall, fact, fence) => Submit(db, r, toolCall, fact, fence)
    case RejectArtifact(r, toolCall, fact, code) => Reject(db, r, toolCall, fact, code)
    case _ => Beside(db, a)
  }

  /** The steps beside a turn's own: its tool calls, the sandbox lease and the browser control. */
  function Beside(db: Db, a: Action): Db {
    match a
    case BeginEffect(r, id, tool, arguments) =>
      if r in db.runs then WithRun(db, r, Begun(db.runs[r], id, tool, arguments)) else db
    case FinishEffect(r, id, tool, arguments, attempt, answer) =>
      if r in db.runs then WithRun(db, r, Finished(db.runs[r], id, tool, arguments, attempt, answer)) else db
    case FailEffect(r, id, tool, arguments, attempt, error) =>
      if r in db.runs then WithRun(db, r, FailedCall(db.runs[r], id, tool, arguments, attempt, error)) else db
    case LeaveRun(w, r) => db.(executing := db.executing - {(w, r)})
    case AcquireSandbox(w, r, reuse, now, ttl) => Acquire(db, w, r, reuse, now, ttl)
    case DirtySandbox(s, generation, token) => MarkDirty(db, s, generation, token)
    case RetireSandbox(s, now) => Retire(db, s, now)
    case TakeBrowser(actor, s, refused, signingKey, now, ttl) => Take(db, actor, s, refused, signingKey, now, ttl)
    case PeekBrowser(actor, s, now) => Peek(db, actor, s, now)
    case EndBrowser(actor, s, now) => Hand(db, actor, s, now)
    case _ => db
  }

  function Play(db: Db, actions: seq<Action>): Db {
    if actions == [] then db else Next(Play(db, actions[..|actions| - 1]), actions[|actions| - 1])
  }

  // ---- invariant ----------------------------------------------------------------------------------

  function ClosingKind(status: Status): Option<Kind> {
    match status
    case Succeeded => Some(TurnSucceeded)
    case Failed => Some(RunFailed)
    case Cancelled => Some(RunCancelled)
    case _ => None
  }

  /** Event k ends the run: no stream-closing event precedes it, and after it come only late writers'
      events, except the second event of the executor's cancellation right behind the first. */
  predicate EndsAt(events: seq<Event>, status: Status, k: nat) {
    && k < |events|
    && Some(events[k].kind) == ClosingKind(status)
    && (forall i :: 0 <= i < k ==> !ClosesStream(events[i].kind))
    && forall i :: k < i < |events| ==>
         WrittenLate(events[i].kind) || (i == k + 1 && status.Cancelled? && events[i].kind.TurnCancelled?)
  }

  ghost predicate LogFits(events: seq<Event>, status: Status) {
    if Terminal(status) then exists k :: EndsAt(events, status, k)
    else forall i :: 0 <= i < |events| ==> !ClosesStream(events[i].kind)
  }

  function BudgetEvents(events: seq<Event>): nat {
    if events == [] then 0
    else BudgetEvents(events[..|events| - 1]) + (if events[|events| - 1].kind.BudgetUpdated? then 1 else 0)
  }

  /** The n-th budget event reports n reservations. */
  predicate BudgetReported(events: seq<Event>) {
    forall i :: 0 <= i < |events| && events[i].kind.BudgetUpdated? ==>
      events[i].kind.modelCalls + events[i].kind.toolCalls == BudgetEvents(events[..i + 1])
  }

  /** What holds of a run's log. */
  ghost predicate LogSound(events: seq<Event>, next: nat, status: Status) {
    Dense(events, next) && LogFits(events, status) && BudgetReported(events)
  }

  /** What holds of the rows keyed by a run; before success nothing of an answer exists. */
  ghost predicate RowsSound(status: Status, claimSets: nat, shelf: Artifacts.Shelf, ledger: Ledger.Ledger) {
    && !status.WaitingInput? && !status.WaitingDependency?
    && Artifacts.Sound(shelf)
    && Ledger.Sound(ledger)
    && claimSets <= 1
    && (!status.Succeeded? ==> claimSets == 0 && shelf.artifacts == [] && Artifacts.NoneStaged(shelf.candidates))
  }

  /** What holds of a run on its own: there is one budget event for each reservation in the ledger. */
  ghost predicate RunSound(run: Run) {
    && LogSound(run.events, run.nextEvent, run.status)
    && RowsSound(run.status, run.claimSets, run.shelf, run.ledger)
    && BudgetEvents(run.events) == run.ledger.modelReserved + run.ledger.toolReserved
  }

  /** How a run sits in its session: a live run holds the session and owns the last message. */
  ghost predicate RunPlaced(db: Db, r: RunId)
    requires r in db.runs
  {
    var run := db.runs[r];
    && run.session in db.sessions
    && var s := db.sessions[run.session];
       && s.owner == run.owner
       && 1 <= run.userMessage <= |s.messages|
       && s.messages[run.userMessage - 1] == Message(run.userMessage, User, r, false)
       && (!Terminal(run.status) ==> s.active == Some(r) && run.userMessage == |s.messages|)
       && (run.status.Succeeded? ==>
             && run.userMessage < |s.messages|
             && s.messages[run.userMessage] == Message(run.userMessage + 1, Assistant, r, run.claimSets == 1))
  }

  ghost predicate MessagePlaced(db: Db, id: SessionId, i: nat)
    requires id in db.sessions && i < |db.sessions[id].messages|
  {
    var m := db.sessions[id].messages[i];
    && m.sequence == i + 1
    && m.run in db.runs && db.runs[m.run].session == id
    && match m.role
       case User => db.runs[m.run].userMessage == i + 1
       case Assistant => db.runs[m.run].userMessage == i && db.runs[m.run].status.Succeeded?
  }

  ghost predicate SessionSound(db: Db, id: SessionId)
    requires id in db.sessions
  {
    var s := db.sessions[id];
    && s.nextMessage == |s.messages| + 1
    && (s.active.Some? ==> s.active.value in db.runs && db.runs[s.active.value].session == id)
    && forall i :: 0 <= i < |s.messages| ==> MessagePlaced(db, id, i)
  }

  /** An unlocked read is never ahead of the row, and an unmoved log means an unmoved status. */
  ghost predicate SightSound(db: Db, sight: Sight) {
    && sight.run in db.runs
    && 1 <= sight.nextEvent <= db.runs[sight.run].nextEvent
    && (sight.nextEvent == db.runs[sight.run].nextEvent ==> sight.status == db.runs[sight.run].status)
  }

  ghost predicate Inv(db: Db) {
    && (forall r :: r in db.runs ==> RunSound(db.runs[r]) && RunPlaced(db, r))
    && (forall id :: id in db.sessions ==> SessionSound(db, id))
    && (forall w :: w in db.sights ==> SightSound(db, db.sights[w]))
    && (forall k :: k in db.receipts ==> db.receipts[k].run in db.runs)
  }
}
