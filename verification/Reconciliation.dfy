/** How the executor asks the runtime about a turn before it collects, executes or resumes anything. */
module Reconciliation {
  import opened Runs

  datatype RuntimeState = StillRunning | Done | Interrupted | RuntimeCancelled | RuntimeFailed

  /** The failure policy tries again after temporary errors only. */
  datatype ErrorKind = Temporary | Permanent | CancelledKind

  /** What the runtime answers: it may not know the turn, raise, or describe it. `scoped` says that every
      identifier in the description is the requested turn's and session's. */
  datatype Report =
    | UnknownTurn(kind: ErrorKind)
    | ReportRaised(kind: ErrorKind)
    | Described(state: RuntimeState, resultAvailable: bool, resumeAvailable: bool, scoped: bool)

  /** Calls that reach the runtime. */
  datatype RuntimeCall = Reconcile | ExecuteFirstInput | Resume

  datatype Failure =
    | UnknownRaised(kind: ErrorKind)
    | RuntimeRaised(kind: ErrorKind)
    | ScopeMismatch
    | TurnStillRunning
    | TurnInterrupted
    | TurnRuntimeCancelled
    | TurnRuntimeFailed
    | ResultNotReady

  /** Collect the result; leave it, because the run was cancelled or has moved on; or raise. */
  datatype Decision = Collect | Leave | Raise(failure: Failure)

  /** What the executor meets: the reports in the order it asks for them, the run's status when the
      turn is unknown, and whether the run leaves RUNNING while the runtime is working. */
  datatype Meeting = Meeting(
    first: Report,
    status: Status,
    stoppedWhileExecuting: bool,
    afterExecute: Report,
    stoppedWhileResuming: bool,
    afterResume: Report)

  predicate Ready(r: Report) {
    r.Described? && r.scoped && r.state.Done? && r.resultAvailable
  }

  predicate Resumable(r: Report) {
    r.Described? && r.scoped && r.state.StillRunning? && r.resumeAvailable
  }

  /** What a report that offers neither a result nor a resumption means. */
  function FailureOf(r: Report): Failure {
    match r
    case UnknownTurn(kind) => UnknownRaised(kind)
    case ReportRaised(kind) => RuntimeRaised(kind)
    case Described(state, _, _, scoped) =>
      if !scoped then ScopeMismatch
      else
        match state
        case StillRunning => TurnStillRunning
        case Interrupted => TurnInterrupted
        case RuntimeCancelled => TurnRuntimeCancelled
        case RuntimeFailed => TurnRuntimeFailed
        case Done => ResultNotReady
  }

  function KindOf(f: Failure): ErrorKind {
    match f
    case UnknownRaised(kind) => kind
    case RuntimeRaised(kind) => kind
    case ScopeMismatch => Permanent
    case TurnRuntimeFailed => Permanent
    case TurnRuntimeCancelled => CancelledKind
    case _ => Temporary
  }

  /** The report is in scope and says this. */
  predicate Says(r: Report, state: RuntimeState) {
    r.Described? && r.scoped && r.state == state
  }

  /** Asking again later may help: the runtime raised a temporary error, or the turn is on its way there. */
  predicate MayPass(r: Report) {
    match r
    case UnknownTurn(kind) => kind.Temporary?
    case ReportRaised(kind) => kind.Temporary?
    case Described(state, _, _, scoped) => scoped && !state.RuntimeCancelled? && !state.RuntimeFailed?
  }

  /** The first input goes to the runtime exactly when it does not know the turn and the run is still RUNNING, at
      most once and before anything else; a resumption exactly when the latest report offers one; a result is
      collected exactly when the latest report, in scope, says that it is there. Otherwise the failure names what the latest
      report said, and is one to try again after exactly if that may pass. */
  method ReconcileOrExecute(m: Meeting) returns (decision: Decision, calls: seq<RuntimeCall>)
    ensures ExecuteFirstInput in calls <==> m.first.UnknownTurn? && m.status.Running?
    ensures forall i :: 0 <= i < |calls| && calls[i].ExecuteFirstInput? ==> i == 1
    ensures Resume in calls <==>
              Resumable(if ExecuteFirstInput in calls then m.afterExecute else m.first)
              && !(ExecuteFirstInput in calls && m.stoppedWhileExecuting)
    ensures forall i :: 0 <= i < |calls| && calls[i].Resume? ==> i == |calls| - 1 || i == |calls| - 2
    ensures 1 <= |calls| <= 5 && calls[0] == Reconcile
    ensures decision.Collect? <==> calls[|calls| - 1] == Reconcile && Ready(Latest(m, calls))
    ensures decision.Raise? ==>
              var last, failure := Latest(m, calls), decision.failure;
              && calls[|calls| - 1] == Reconcile
              && (failure.UnknownRaised? <==> last.UnknownTurn?) && (failure.RuntimeRaised? <==> last.ReportRaised?)
              && (failure.ScopeMismatch? <==> last.Described? && !last.scoped)
              && (failure.TurnStillRunning? <==> Says(last, StillRunning)) && (failure.TurnInterrupted? <==> Says(last, Interrupted))
              && (failure.TurnRuntimeCancelled? <==> Says(last, RuntimeCancelled)) && (failure.TurnRuntimeFailed? <==> Says(last, RuntimeFailed))
              && (failure.ResultNotReady? <==> Says(last, Done)) && (Says(last, Done) ==> !last.resultAvailable)
              && (KindOf(failure).Temporary? <==> MayPass(last))
    ensures decision.Leave? <==>
              || (m.first.UnknownTurn? && !m.status.Running?)
              || calls[|calls| - 1] != Reconcile
  {
    calls := [Reconcile];
    var report := m.first;
    if report.UnknownTurn? {
      if !m.status.Running? { return Leave, calls; }
      calls := calls + [ExecuteFirstInput];
      if m.stoppedWhileExecuting { return Leave, calls; }
      calls := calls + [Reconcile];
      report := m.afterExecute;
    }
    if !report.Described? || !report.scoped { return Raise(FailureOf(report)), calls; }
    if report.state.Done? && report.resultAvailable { return Collect, calls; }
    if report.state.StillRunning? && report.resumeAvailable {
      calls := calls + [Resume];
      if m.stoppedWhileResuming { return Leave, calls; }
      calls := calls + [Reconcile];
      report := m.afterResume;
      if !report.Described? || !report.scoped { return Raise(FailureOf(report)), calls; }
      if report.state.Done? && report.resultAvailable { return Collect, calls; }
    }
    return Raise(FailureOf(report)), calls;
  }

  /** The report the last question was answered with. */
  function Latest(m: Meeting, calls: seq<RuntimeCall>): Report {
    if Resume in calls then m.afterResume
    else if ExecuteFirstInput in calls then m.afterExecute
    else m.first
  }
}
