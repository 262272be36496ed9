/** The artifact shelf of one turn: candidates, the artifacts published from them, and the
    transactions that move them. */
module Artifacts {
  import opened Wrappers

  const MAX_PER_TURN: nat := 8
  const MAX_TOTAL_BYTES: nat := 50 * 1024 * 1024

  type ToolCallId = string
  type Digest = string

  /** A submission's candidate is named after its tool call; the runtime names its own. */
  datatype CandidateId = Submission(toolCall: ToolCallId) | Reported(name: string)

  /** The content identity of a candidate. Owner, project, session and turn are those of the shelf. */
  datatype Fact = Fact(name: string, mediaType: string, contentRef: string, digest: Digest, size: nat,
                       source: Option<string>)

  datatype Fence = Fence(generation: nat, token: nat)

  datatype Stage =
    | Staged
    | Validated(toolCall: ToolCallId, fence: Fence)
    | Committed(toolCall: ToolCallId, fence: Fence)
    | Rejected(code: string)

  datatype Candidate = Candidate(id: CandidateId, fact: Fact, stage: Stage)

  datatype Artifact = Artifact(candidate: CandidateId, fact: Fact)

  datatype Shelf = Shelf(candidates: seq<Candidate>, artifacts: seq<Artifact>)

  const EMPTY_SHELF := Shelf([], [])

  /** What a transaction on the shelf reports; Refused stands for an exception, which rolls back. */
  datatype Reply = Recorded | Unchanged | Refused

  predicate IsValidated(c: Candidate) { c.stage.Validated? }

  predicate IsCommitted(c: Candidate) { c.stage.Committed? }

  predicate IsReviewed(c: Candidate) { c.stage.Validated? || c.stage.Committed? }

  predicate IsAccepted(c: Candidate) { !c.stage.Rejected? }

  // ---- counting -------------------------------------------------------------------------------

  function Count(cs: seq<Candidate>, p: Candidate -> bool): nat {
    if cs == [] then 0 else Count(cs[..|cs| - 1], p) + (if p(cs[|cs| - 1]) then 1 else 0)
  }

  function Bytes(cs: seq<Candidate>, p: Candidate -> bool): nat {
    if cs == [] then 0 else Bytes(cs[..|cs| - 1], p) + (if p(cs[|cs| - 1]) then cs[|cs| - 1].fact.size else 0)
  }

  function ArtifactBytes(arts: seq<Artifact>): nat {
    if arts == [] then 0 else ArtifactBytes(arts[..|arts| - 1]) + arts[|arts| - 1].fact.size
  }

  // ---- get-or-add -----------------------------------------------------------------------------

  function IndexOfId(cs: seq<Candidate>, id: CandidateId): (i: nat)
    ensures i <= |cs|
    ensures i < |cs| ==> cs[i].id == id
    ensures forall j :: 0 <= j < i ==> cs[j].id != id
  {
    if cs == [] then 0 else if cs[0].id == id then 0 else 1 + IndexOfId(cs[1..], id)
  }

  function IndexOfDigest(cs: seq<Candidate>, digest: Digest): (i: nat)
    ensures i <= |cs|
    ensures i < |cs| ==> cs[i].fact.digest == digest
    ensures forall j :: 0 <= j < i ==> cs[j].fact.digest != digest
  {
    if cs == [] then 0 else if cs[0].fact.digest == digest then 0 else 1 + IndexOfDigest(cs[1..], digest)
  }

  /** Where the row for this staged candidate is found after an insert that ignores conflicts on
      the identifier and on (turn, content digest): the new length means it was inserted, None that
      the row found there describes other content. */
  function Locate(cs: seq<Candidate>, staged: Candidate): (at: Option<nat>)
    ensures at.Some? ==> at.value <= |cs|
    ensures at.Some? && at.value < |cs| ==> cs[at.value].fact == staged.fact
    ensures at == Some(|cs|) ==> forall j :: 0 <= j < |cs| ==> cs[j].id != staged.id && cs[j].fact.digest != staged.fact.digest
  {
    var byId := IndexOfId(cs, staged.id);
    if byId < |cs| then
      if cs[byId].fact == staged.fact then Some(byId) else None
    else
      var byDigest := IndexOfDigest(cs, staged.fact.digest);
      if byDigest < |cs| then
        if cs[byDigest].fact == staged.fact then Some(byDigest) else None
      else Some(|cs|)
  }

  function GetOrAdd(cs: seq<Candidate>, staged: Candidate): Option<seq<Candidate>> {
    var at := Locate(cs, staged);
    if at.None? then None
    else if at.value < |cs| then Some(cs)
    else Some(cs + [staged])
  }

  // ---- transactions ---------------------------------------------------------------------------

  predicate WithinBudget(cs: seq<Candidate>) {
    && Count(cs, IsAccepted) <= MAX_PER_TURN
    && Bytes(cs, IsAccepted) <= MAX_TOTAL_BYTES
  }

  /** Recording a submission that passed content validation. */
  function Submit(shelf: Shelf, toolCall: ToolCallId, fact: Fact, fence: Fence): (Shelf, Reply) {
    var staged := Candidate(Submission(toolCall), fact, Staged);
    var at := Locate(shelf.candidates, staged);
    if at.None? then (shelf, Refused)
    else
      var cs := if at.value < |shelf.candidates| then shelf.candidates else shelf.candidates + [staged];
      var existing := cs[at.value];
      if IsReviewed(existing) then (shelf, Unchanged)
      else if existing.stage.Rejected? then (shelf, Refused)
      else if !WithinBudget(cs) then (shelf, Refused)
      else if existing.id != staged.id then (shelf, Refused)
      else (shelf.(candidates := cs[at.value := staged.(stage := Validated(toolCall, fence))]), Recorded)
  }

  /** Recording a submission whose content was refused. The placeholder fact has size zero. */
  function Reject(shelf: Shelf, toolCall: ToolCallId, fact: Fact, code: string): (Shelf, Reply) {
    var staged := Candidate(Submission(toolCall), fact, Staged);
    var at := Locate(shelf.candidates, staged);
    if at.None? then (shelf, Unchanged)
    else
      var cs := if at.value < |shelf.candidates| then shelf.candidates else shelf.candidates + [staged];
      if cs[at.value].stage.Staged? && cs[at.value].id == staged.id then
        (shelf.(candidates := cs[at.value := staged.(stage := Rejected(code))]), Recorded)
      else (shelf, Unchanged)
  }

  datatype Report = Report(name: string, fact: Fact)

  predicate Describes(cs: seq<Candidate>, fact: Fact) {
    exists i :: 0 <= i < |cs| && cs[i].fact == fact
  }

  /** The runtime's report with repeated contents dropped; every entry enters as staged. */
  function Requested(reports: seq<Report>): (cs: seq<Candidate>)
    ensures forall i :: 0 <= i < |cs| ==> cs[i].stage.Staged?
  {
    if reports == [] then []
    else
      var earlier := Requested(reports[..|reports| - 1]);
      var last := reports[|reports| - 1];
      if Describes(earlier, last.fact) then earlier else earlier + [Candidate(Reported(last.name), last.fact, Staged)]
  }

  /** Staging what the runtime reported, inside the success transaction and with no budget check. */
  function StageAll(cs: seq<Candidate>, requested: seq<Candidate>): Option<seq<Candidate>> {
    if requested == [] then Some(cs)
    else
      var rest := StageAll(cs, requested[..|requested| - 1]);
      if rest.None? then None else GetOrAdd(rest.value, requested[|requested| - 1])
  }

  function ArtifactOf(c: Candidate): Artifact {
    Artifact(c.id, c.fact)
  }

  function Commit(c: Candidate): Candidate {
    match c.stage
    case Validated(toolCall, fence) => c.(stage := Committed(toolCall, fence))
    case _ => c
  }

  function CommitAll(cs: seq<Candidate>): (committed: seq<Candidate>)
    ensures |committed| == |cs|
    ensures forall i :: 0 <= i < |cs| ==> committed[i] == Commit(cs[i])
  {
    seq(|cs|, i requires 0 <= i < |cs| => Commit(cs[i]))
  }

  /** The artifacts of the candidates satisfying p, in candidate order. */
  function ArtifactsOf(cs: seq<Candidate>, p: Candidate -> bool): seq<Artifact> {
    if cs == [] then []
    else ArtifactsOf(cs[..|cs| - 1], p) + (if p(cs[|cs| - 1]) then [ArtifactOf(cs[|cs| - 1])] else [])
  }

  /** No validated candidate has lost its sandbox fence. */
  predicate FencesHold(cs: seq<Candidate>, current: set<Fence>) {
    forall c :: c in cs && c.stage.Validated? ==> c.stage.fence in current
  }

  datatype Publication = Publication(shelf: Shelf, published: seq<Artifact>)

  /** Publishing for a successful turn: every reviewed candidate is committed and returned. */
  function Publish(shelf: Shelf, current: set<Fence>): Option<Publication> {
    if !FencesHold(shelf.candidates, current) then None
    else
      Some(Publication(
        Shelf(CommitAll(shelf.candidates), shelf.artifacts + ArtifactsOf(shelf.candidates, IsValidated)),
        ArtifactsOf(shelf.candidates, IsReviewed)))
  }

  /** No candidate is waiting for review, as holds between transactions until the turn succeeds. */
  predicate NoneStaged(cs: seq<Candidate>) {
    forall i :: 0 <= i < |cs| ==> !cs[i].stage.Staged?
  }

  // ---- invariant ------------------------------------------------------------------------------

  predicate DistinctKeys(cs: seq<Candidate>) {
    forall i, j :: 0 <= i < j < |cs| ==> cs[i].id != cs[j].id && cs[i].fact.digest != cs[j].fact.digest
  }

  /** Each committed candidate has exactly one artifact and no other candidate has any. */
  ghost predicate Matched(cs: seq<Candidate>, arts: seq<Artifact>) {
    && (forall i, j :: 0 <= i < j < |arts| ==> arts[i].candidate != arts[j].candidate)
    && (forall i :: 0 <= i < |cs| ==> (IsCommitted(cs[i]) <==> ArtifactOf(cs[i]) in arts))
    && (forall a :: a in arts ==> Backed(cs, a))
  }

  ghost predicate Backed(cs: seq<Candidate>, a: Artifact) {
    exists i :: 0 <= i < |cs| && ArtifactOf(cs[i]) == a
  }

  /** Reviewed candidates obey the turn's limits, and the artifacts are those of the committed ones. */
  ghost predicate Sound(shelf: Shelf) {
    && DistinctKeys(shelf.candidates)
    && Count(shelf.candidates, IsReviewed) <= MAX_PER_TURN
    && Bytes(shelf.candidates, IsReviewed) <= MAX_TOTAL_BYTES
    && |shelf.artifacts| == Count(shelf.candidates, IsCommitted)
    && ArtifactBytes(shelf.artifacts) == Bytes(shelf.candidates, IsCommitted)
    && Matched(shelf.candidates, shelf.artifacts)
  }
}
