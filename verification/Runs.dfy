/** Runs, their status machine and their numbered event logs. */
module Runs {

  datatype Status =
    | Queued
    | Running
    | Succeeded
    | Failed
    | RetryWait
    | WaitingInput
    | WaitingDependency
    | CancelRequested
    | Cancelled

  predicate Terminal(s: Status) {
    s.Succeeded? || s.Failed? || s.Cancelled?
  }

  /** The table of legal status changes; the three final states have no successor. */
  predicate Allowed(from: Status, to: Status) {
    match from
    case Queued => to.Running? || to.Cancelled?
    case Running =>
      to.Succeeded? || to.Failed? || to.RetryWait? || to.WaitingInput? || to.WaitingDependency? || to.CancelRequested?
    case RetryWait => to.Queued? || to.Cancelled?
    case WaitingInput => to.Queued? || to.Cancelled?
    case WaitingDependency => to.Queued? || to.Failed? || to.Cancelled?
    case CancelRequested => to.Cancelled?
    case _ => false
  }

  /** Event types. The first group is written to the log of an agent turn; the last three stand
      for the types only other kinds of run write. */
  datatype Kind =
    | RunCreated
    | MessageAccepted
    | RunStarted
    | RetryScheduled
    | Requeued
    | RunCancelRequested
    | RunCancelled
    | RunFailed
    | BudgetUpdated(modelCalls: nat, toolCalls: nat)
    | ToolProgress
    | ToolFailed
    | ArtifactValidated
    | ArtifactRejected
    | RuntimeBound
    | ArtifactStaged
    | ArtifactCommitted
    | TurnSucceeded
    | TurnCancelled
    | BrowserControl
    | OtherSubscribed
    | OtherUnsubscribed
    | OtherTerminal

  /** The event types on which the browser closes its stream. */
  predicate ClosesStream(k: Kind) {
    k.RunCancelled? || k.RunFailed? || k.TurnSucceeded? || k.TurnCancelled? || k.OtherTerminal?
  }

  /** The event types the browser registers a listener for. Budget, validation, rejection,
      publication and browser-control events are written to the log but never subscribed. */
  predicate Subscribed(k: Kind) {
    !(k.BudgetUpdated? || k.ArtifactValidated? || k.ArtifactRejected? || k.ArtifactCommitted? || k.BrowserControl?
      || k.OtherUnsubscribed?)
  }

  /** The event types that can still be written once the run has ended: browser-control events,
      whose writer never looks at the status, and late failure reports of external tools. */
  predicate WrittenLate(k: Kind) {
    k.BrowserControl? || k.ToolFailed?
  }

  datatype Event = Event(sequence: nat, kind: Kind)

  /** Events carrying the given kinds, numbered consecutively from start. */
  function Numbered(start: nat, kinds: seq<Kind>): (events: seq<Event>)
    ensures |events| == |kinds|
    ensures forall i :: 0 <= i < |events| ==> events[i] == Event(start + i, kinds[i])
  {
    seq(|kinds|, i requires 0 <= i < |kinds| => Event(start + i, kinds[i]))
  }

  /** The log holds exactly the sequences 1, 2, ..., next - 1, in that order. */
  predicate Dense(events: seq<Event>, next: nat) {
    && next == |events| + 1
    && forall i :: 0 <= i < |events| ==> events[i].sequence == i + 1
  }

  predicate Ascending(events: seq<Event>) {
    forall i, j :: 0 <= i < j < |events| ==> events[i].sequence < events[j].sequence
  }
}
