/** Importing the sources of review runs from arXiv: the shared library of paper versions, the run of a review
    with its waits, cancellations and dependency reconciler, the transactions on one review, and the import loop
    with everything others may commit in between. */
module ArxivImport {
  import opened Wrappers
  import opened Runs

  type OwnerId = string
  type ProjectId = string
  type ReviewId = string
  type PaperId = string
  type VersionId = string
  type ChunkSetId = string
  type RunId = string
  type Hash = string
  type Key = string

  // ---- rows -----------------------------------------------------------------------------------------

  datatype SourceStatus = Discovered | Importing | Ready | Rejected | SourceFailed

  /** A candidate; `identified` says that it carries an arXiv identifier and version. */
  datatype Source = Source(status: SourceStatus, version: Option<VersionId>, identified: bool)

  datatype Target = OnVersion(version: VersionId) | OnChunkSet(chunkSet: ChunkSetId) | OnRun(run: RunId)

  datatype DependencyStatus = Pending | Satisfied | Unmet

  datatype Dependency = Dependency(target: Target, status: DependencyStatus)

  datatype Note =
    | SearchCompleted
    | ImportStarted
    | SourceReady
    | SourceFailedNote
    | ImportCompleted
    | ReviewCancelled
    | StatusChanged
    | OutlineProposed

  datatype ReviewEvent = ReviewEvent(sequence: nat, note: Note)

  /** The matrix stage stands for itself and all stages behind it. */
  datatype Stage = SearchStage | ImportStage | SelectionStage | WaitStage | MatrixStage

  /** A review run; `step` is the completed import step with the number of sources it covered. The two limits come
      from its configuration. */
  datatype Review = Review(
    owner: OwnerId,
    project: ProjectId,
    status: Status,
    nextEvent: nat,
    events: seq<ReviewEvent>,
    sources: seq<Source>,
    dependencies: seq<Dependency>,
    search: Option<Key>,
    step: Option<nat>,
    stage: Stage,
    sourceLimit: nat,
    minimumReady: nat)

  datatype Version = Version(owner: OwnerId, hash: Hash, size: nat, paper: PaperId, run: Option<RunId>, canonical: bool)

  datatype Paper = Paper(owner: OwnerId, archived: bool)

  datatype Ingestion = Ingestion(owner: OwnerId, project: ProjectId)

  datatype Library = Library(
    papers: map<PaperId, Paper>,
    versions: map<VersionId, Version>,
    inProject: set<(ProjectId, PaperId)>,
    ingestions: map<RunId, Ingestion>,
    outbox: seq<RunId>,
    chunkSets: map<VersionId, ChunkSetId>,
    stored: set<(OwnerId, Hash)>)

  datatype World = World(reviews: map<ReviewId, Review>, library: Library)

  const EMPTY_WORLD := World(map[], Library(map[], map[], {}, map[], [], map[], {}))

  // ---- pieces -----------------------------------------------------------------------------------------

  function AppendNote(v: Review, note: Note): Review {
    v.(events := v.events + [ReviewEvent(v.nextEvent, note)], nextEvent := v.nextEvent + 1)
  }

  function WithReview(w: World, r: ReviewId, v: Review): World {
    w.(reviews := w.reviews[r := v])
  }

  function RejectOpen(sources: seq<Source>): (rejected: seq<Source>)
    ensures |rejected| == |sources|
    ensures forall i :: 0 <= i < |sources| ==>
              rejected[i] == if sources[i].status.Discovered? then sources[i].(status := Rejected) else sources[i]
  {
    seq(|sources|, i requires 0 <= i < |sources| =>
      if sources[i].status.Discovered? then sources[i].(status := Rejected) else sources[i])
  }

  /** The import's own confirmation of a cancellation. */
  function Confirmed(v: Review): Review {
    AppendNote(v.(sources := RejectOpen(v.sources), status := Cancelled), ReviewCancelled)
  }

  /** Confirms if requested; says whether the import must stop. */
  function ConfirmIfRequested(w: World, r: ReviewId): (World, bool)
    requires r in w.reviews
  {
    match w.reviews[r].status
    case CancelRequested => (WithReview(w, r, Confirmed(w.reviews[r])), true)
    case Cancelled => (w, true)
    case _ => (w, false)
  }

  function Targets(deps: seq<Dependency>): set<Target> {
    set d | d in deps :: d.target
  }

  function Require(deps: seq<Dependency>, target: Target, status: DependencyStatus): seq<Dependency> {
    if target in Targets(deps) then deps else deps + [Dependency(target, status)]
  }

  // ---- registration -----------------------------------------------------------------------------------------

  /** The identifiers a registration would use for new rows. */
  datatype Fresh = Fresh(paper: PaperId, version: VersionId, run: RunId)

  predicate Unused(l: Library, ids: Fresh) {
    ids.paper !in l.papers && ids.version !in l.versions && ids.run !in l.ingestions
  }

  ghost predicate HasContent(l: Library, owner: OwnerId, hash: Hash) {
    exists x :: x in l.versions && IsContent(l, x, owner, hash)
  }

  predicate IsContent(l: Library, x: VersionId, owner: OwnerId, hash: Hash)
    requires x in l.versions
  {
    l.versions[x].owner == owner && l.versions[x].hash == hash && l.versions[x].canonical
  }

  /** The canonical version with this content. */
  ghost function ContentOf(l: Library, owner: OwnerId, hash: Hash): VersionId
    requires HasContent(l, owner, hash)
  {
    var x :| x in l.versions && IsContent(l, x, owner, hash);
    x
  }

  /** A new paper with its version, project relation, ingestion run and outbox entry. */
  function AddContent(l: Library, v: Review, hash: Hash, size: nat, ids: Fresh): Library {
    l.(papers := l.papers[ids.paper := Paper(v.owner, false)],
       versions := l.versions[ids.version := Version(v.owner, hash, size, ids.paper, Some(ids.run), true)],
       inProject := l.inProject + {(v.project, ids.paper)},
       ingestions := l.ingestions[ids.run := Ingestion(v.owner, v.project)],
       outbox := l.outbox + [ids.run])
  }

  /** Binds the source to the version with the dependencies that follow from the version's state. */
  function Bind(l: Library, v: Review, i: nat, x: VersionId): Review
    requires i < |v.sources| && x in l.versions
  {
    var ready := x in l.chunkSets;
    var bound := v.sources[i].(status := if ready then Ready else Importing, version := Some(x));
    var deps := Require(v.dependencies, OnVersion(x), if ready then Satisfied else Pending);
    var run := l.versions[x].run;
    var more :=
      if ready then Require(deps, OnChunkSet(l.chunkSets[x]), Satisfied)
      else if run.Some? && run.value in l.ingestions && l.ingestions[run.value] == Ingestion(v.owner, v.project) then
        Require(deps, OnRun(run.value), Pending)
      else deps;
    AppendNote(v.(sources := v.sources[i := bound], dependencies := more), if ready then SourceReady else ImportStarted)
  }

  datatype Reply =
    | Bound(ready: bool, created: Option<RunId>)
    | CancelSeen
    | PaperArchived
    | RegisterRaised

  datatype Registration = Registration(world: World, reply: Reply)

  ghost function Register(w: World, r: ReviewId, i: nat, hash: Hash, size: nat, ids: Fresh): Registration {
    if r !in w.reviews || i >= |w.reviews[r].sources| then Registration(w, RegisterRaised)
    else
      var v, l := w.reviews[r], w.library;
      if v.status.CancelRequested? then Registration(WithReview(w, r, Confirmed(v)), CancelSeen)
      else if v.status.Cancelled? then Registration(w, CancelSeen)
      else if !v.sources[i].status.Discovered? then Registration(w, Bound(v.sources[i].status.Ready?, None))
      else if !v.sources[i].identified then Registration(w, RegisterRaised)
      else if HasContent(l, v.owner, hash) then
        var x := ContentOf(l, v.owner, hash);
        var paper := l.versions[x].paper;
        if paper !in l.papers || l.papers[paper].owner != v.owner then Registration(w, RegisterRaised)
        else if l.papers[paper].archived then Registration(w, PaperArchived)
        else
          Registration(
            World(w.reviews[r := Bind(l, v, i, x)], l.(inProject := l.inProject + {(v.project, paper)})),
            Bound(x in l.chunkSets, None))
      else if !Unused(l, ids) then Registration(w, RegisterRaised)
      else
        var added := AddContent(l, v, hash, size, ids);
        Registration(World(w.reviews[r := Bind(added, v, i, ids.version)], added),
                     Bound(ids.version in l.chunkSets, Some(ids.run)))
  }

  /** Records a permanent failure of a source nobody has settled meanwhile. */
  function MarkFailed(w: World, r: ReviewId, i: nat): World {
    if r !in w.reviews || i >= |w.reviews[r].sources| || !w.reviews[r].sources[i].status.Discovered? then w
    else
      var v := w.reviews[r];
      WithReview(w, r, AppendNote(v.(sources := v.sources[i := v.sources[i].(status := SourceFailed)]), SourceFailedNote))
  }

  predicate AllSettled(sources: seq<Source>) {
    forall i :: 0 <= i < |sources| ==> sources[i].status.Ready? || sources[i].status.SourceFailed? || sources[i].status.Rejected?
  }

  datatype Completion = Emitted | AlreadyDone | StepConflict

  /** Completes the import step once, with its event; a replay must cover the same sources. */
  function Complete(w: World, r: ReviewId, ready: nat): (World, Completion)
    requires r in w.reviews
  {
    var v := w.reviews[r];
    if v.step.Some? then (w, if v.step.value == |v.sources| then AlreadyDone else StepConflict)
    else
      var stage := if AllSettled(v.sources) && ready > 0 && v.stage.ImportStage? then MatrixStage else v.stage;
      (WithReview(w, r, AppendNote(v.(step := Some(|v.sources|), stage := stage), ImportCompleted)), Emitted)
  }

  datatype SearchReply = Found | Replayed | SearchConflict

  /** The second transaction of a search: the first one with its key writes the candidates. */
  function Search(v: Review, key: Key, found: seq<bool>): (Review, SearchReply) {
    if v.search == Some(key) then (v, Replayed)
    else if v.search.Some? then (v, SearchConflict)
    else
      var sources := seq(|found|, i requires 0 <= i < |found| => Source(Discovered, None, found[i]));
      (AppendNote(v.(sources := v.sources + sources, search := Some(key),
                     stage := if v.stage.SearchStage? then ImportStage else v.stage), SearchCompleted), Found)
  }

  // ---- the run of a review ---------------------------------------------------------------------------------

  /** The user's cancellation: cooperative while the run executes, otherwise at once; the sources stay as they are. */
  function CancelRun(v: Review): Review {
    match v.status
    case Running => AppendNote(v.(status := CancelRequested), StatusChanged)
    case CancelRequested => AppendNote(v.(status := Cancelled), ReviewCancelled)
    case Queued => AppendNote(v.(status := Cancelled), ReviewCancelled)
    case RetryWait => AppendNote(v.(status := Cancelled), ReviewCancelled)
    case WaitingInput => AppendNote(v.(status := Cancelled), ReviewCancelled)
    case WaitingDependency => AppendNote(v.(status := Cancelled), ReviewCancelled)
    case _ => v
  }

  function MoveStatus(v: Review, from: Status, to: Status): Review {
    if v.status == from then AppendNote(v.(status := to), StatusChanged) else v
  }

  /** The reconciler ends a cancelled run whose worker crashed; it knows nothing of sources. */
  function ReclaimRun(v: Review): Review {
    if v.status.CancelRequested? then AppendNote(v.(status := Cancelled), ReviewCancelled) else v
  }

  /** The run waits for the user: to select candidates, or to decide on the outline. */
  function AwaitUser(v: Review, selection: bool): Review {
    if !v.status.Running? then v
    else if selection then
      if v.stage.ImportStage? then AppendNote(v.(status := WaitingInput, stage := SelectionStage), StatusChanged) else v
    else if v.stage.MatrixStage? then AppendNote(AppendNote(v.(status := WaitingInput), OutlineProposed), StatusChanged)
    else v
  }

  function ReadyCount(sources: seq<Source>): nat {
    if sources == [] then 0
    else ReadyCount(sources[..|sources| - 1]) + if sources[|sources| - 1].status.Ready? then 1 else 0
  }

  function RejectOthers(sources: seq<Source>, selected: set<nat>): (rejected: seq<Source>)
    ensures |rejected| == |sources|
    ensures forall i :: 0 <= i < |sources| ==>
              rejected[i] == if sources[i].status.Discovered? && i !in selected then sources[i].(status := Rejected) else sources[i]
  {
    seq(|sources|, i requires 0 <= i < |sources| =>
      if sources[i].status.Discovered? && i !in selected then sources[i].(status := Rejected) else sources[i])
  }

  /** The user's selection among the open candidates; the others are rejected and the run is queued again. */
  function SelectSources(v: Review, selected: set<nat>): Review {
    if v.status.WaitingInput? && v.stage.SelectionStage?
       && (forall i :: i in selected ==> i < |v.sources| && v.sources[i].status.Discovered?)
       && 1 <= ReadyCount(v.sources) + |selected| <= v.sourceLimit then
      AppendNote(v.(sources := RejectOthers(v.sources, selected), status := Queued, stage := ImportStage), StatusChanged)
    else v
  }

  /** The run waits for the ingestion of its sources. */
  function AwaitIngestion(v: Review): Review {
    if v.status.Running? && (v.stage.SearchStage? || v.stage.ImportStage? || v.stage.WaitStage?) then
      AppendNote(v.(status := WaitingDependency, stage := WaitStage), StatusChanged)
    else v
  }

  // ---- reconciling dependencies ------------------------------------------------------------------------------

  /** What the reconciler finds outside: versions the project no longer selects, versions whose ingestion or indexing
      has ended and left no chunk set, and the ingestion runs that have ended, with whether they succeeded. */
  datatype Outside = Outside(misplaced: set<VersionId>, stalled: set<VersionId>, children: map<RunId, bool>)

  datatype Evaluation = BecomesReady | Fails | StaysAsItIs

  function Evaluate(l: Library, v: Review, i: nat, o: Outside): Evaluation
    requires i < |v.sources|
  {
    match v.sources[i].version
    case None => Fails
    case Some(x) =>
      if v.sources[i].status.Discovered? then Fails
      else if x !in l.versions || l.versions[x].owner != v.owner || x in o.misplaced then Fails
      else if OnVersion(x) !in Targets(v.dependencies) then Fails
      else if x in l.chunkSets then BecomesReady
      else
        match l.versions[x].run
        case None => Fails
        case Some(run) =>
          if run !in l.ingestions || l.ingestions[run].owner != v.owner then Fails
          else if l.ingestions[run].project == v.project && OnRun(run) !in Targets(v.dependencies) then Fails
          else if x in o.stalled then Fails
          else StaysAsItIs
  }

  /** The dependencies on this target that are pending get the status. */
  function Resolve(deps: seq<Dependency>, target: Target, status: DependencyStatus): (after: seq<Dependency>)
    ensures |after| == |deps|
    ensures forall i :: 0 <= i < |deps| ==>
              after[i] == if deps[i].target == target && deps[i].status.Pending? then deps[i].(status := status) else deps[i]
  {
    seq(|deps|, i requires 0 <= i < |deps| =>
      if deps[i].target == target && deps[i].status.Pending? then deps[i].(status := status) else deps[i])
  }

  /** One source: an open candidate of a cancelled run is rejected, an unfinished import follows its evaluation. */
  function ReconcileSource(l: Library, v: Review, i: nat, o: Outside, cancelling: bool): (after: Review)
    requires i < |v.sources|
    ensures |after.sources| == |v.sources|
  {
    var s := v.sources[i];
    if !s.status.Discovered? && !s.status.Importing? then v
    else if cancelling && s.status.Discovered? then v.(sources := v.sources[i := s.(status := Rejected)])
    else
      match Evaluate(l, v, i, o)
      case BecomesReady =>
        var x := s.version.value;
        var deps := Require(Resolve(v.dependencies, OnVersion(x), Satisfied), OnChunkSet(l.chunkSets[x]), Satisfied);
        AppendNote(v.(sources := v.sources[i := s.(status := Ready)], dependencies := deps), SourceReady)
      case Fails =>
        var deps := if s.version.Some? then Resolve(v.dependencies, OnVersion(s.version.value), Unmet) else v.dependencies;
        AppendNote(v.(sources := v.sources[i := s.(status := SourceFailed)], dependencies := deps), SourceFailedNote)
      case StaysAsItIs => v
  }

  function ReconcileFirst(l: Library, v: Review, o: Outside, cancelling: bool, k: nat): (after: Review)
    requires k <= |v.sources|
    ensures |after.sources| == |v.sources|
  {
    if k == 0 then v else ReconcileSource(l, ReconcileFirst(l, v, o, cancelling, k - 1), k - 1, o, cancelling)
  }

  function AdvanceRun(l: Library, v: Review, d: Dependency, o: Outside): Dependency {
    if !d.target.OnRun? || !d.status.Pending? then d
    else
      var run := d.target.run;
      if run !in l.ingestions || l.ingestions[run] != Ingestion(v.owner, v.project) then d.(status := Unmet)
      else if run in o.children then d.(status := if o.children[run] then Satisfied else Unmet)
      else d
  }

  /** The dependencies on ingestion runs follow those runs. */
  function AdvanceRuns(l: Library, v: Review, o: Outside): Review {
    v.(dependencies := seq(|v.dependencies|, i requires 0 <= i < |v.dependencies| => AdvanceRun(l, v, v.dependencies[i], o)))
  }

  predicate Cancelling(status: Status) {
    status.CancelRequested? || status.Cancelled?
  }

  /** The reconciler's transaction on one review. */
  function Reconciled(l: Library, v: Review, o: Outside): Review {
    if !v.status.WaitingDependency? && !Cancelling(v.status) then v
    else Concluded(AdvanceRuns(l, ReconcileFirst(l, v, o, Cancelling(v.status), |v.sources|), o))
  }

  /** What the run does once its sources have been looked at. */
  function Concluded(v: Review): Review {
    if v.status.CancelRequested? then AppendNote(v.(status := Cancelled), ReviewCancelled)
    else if v.status.Cancelled? || !AllSettled(v.sources) then v
    else if ReadyCount(v.sources) >= (if v.minimumReady < 1 then 1 else v.minimumReady) then
      AppendNote(v.(status := Queued, stage := if v.stage.ImportStage? || v.stage.WaitStage? then MatrixStage else v.stage), StatusChanged)
    else AppendNote(v.(status := Failed), StatusChanged)
  }

  // ---- what others may commit -----------------------------------------------------------------------------------

  datatype Move =
    | OpenReview(review: ReviewId, owner: OwnerId, project: ProjectId, sourceLimit: nat, minimumReady: nat)
    | StartReview(review: ReviewId)
    | AttemptFails(review: ReviewId, retry: bool)
    | RequeueReview(review: ReviewId)
    | FinishReview(review: ReviewId)
    | CancelReview(review: ReviewId)
    | ReclaimReview(review: ReviewId)
    | AwaitInput(review: ReviewId, selection: bool)
    | SelectCandidates(review: ReviewId, selected: set<nat>)
    | DecideOutline(review: ReviewId)
    | AwaitDependencies(review: ReviewId)
    | Reconcile(review: ReviewId, outside: Outside)
    | RunSearch(review: ReviewId, key: Key, found: seq<bool>)
    | ConfirmCancel(review: ReviewId)
    | WriteCache(owner: OwnerId, hash: Hash)
    | RegisterSource(review: ReviewId, source: nat, hash: Hash, size: nat, ids: Fresh)
    | FailSource(review: ReviewId, source: nat)
    | CompleteImport(review: ReviewId, ready: nat)
    | ArchivePaper(paper: PaperId)
    | FinishIndex(version: VersionId, chunkSet: ChunkSetId)

  /** The moves on the run of a review. */
  predicate OnTheRun(m: Move) {
    || m.StartReview? || m.AttemptFails? || m.RequeueReview? || m.FinishReview? || m.CancelReview? || m.ReclaimReview?
    || m.AwaitInput? || m.SelectCandidates? || m.DecideOutline? || m.AwaitDependencies? || m.Reconcile?
  }

  function MoveRun(l: Library, v: Review, m: Move): Review
    requires OnTheRun(m)
  {
    match m
    case StartReview(_) => MoveStatus(v, Queued, Running)
    case AttemptFails(_, retry) => MoveStatus(v, Running, if retry then RetryWait else Failed)
    case RequeueReview(_) => MoveStatus(v, RetryWait, Queued)
    case FinishReview(_) => MoveStatus(v, Running, Succeeded)
    case CancelReview(_) => CancelRun(v)
    case ReclaimReview(_) => ReclaimRun(v)
    case AwaitInput(_, selection) => AwaitUser(v, selection)
    case SelectCandidates(_, selected) => SelectSources(v, selected)
    case DecideOutline(_) => if v.stage.MatrixStage? then MoveStatus(v, WaitingInput, Queued) else v
    case AwaitDependencies(_) => AwaitIngestion(v)
    case Reconcile(_, outside) => Reconciled(l, v, outside)
  }

  function Opening(owner: OwnerId, project: ProjectId, sourceLimit: nat, minimumReady: nat): Review {
    Review(owner, project, Queued, 2, [ReviewEvent(1, StatusChanged)], [], [], None, None, SearchStage, sourceLimit, minimumReady)
  }

  ghost function Commit(w: World, m: Move): World {
    match m
    case OpenReview(r, owner, project, sourceLimit, minimumReady) =>
      if r in w.reviews then w else WithReview(w, r, Opening(owner, project, sourceLimit, minimumReady))
    case RunSearch(r, key, found) =>
      if r in w.reviews then WithReview(w, r, Search(w.reviews[r], key, found).0) else w
    case ConfirmCancel(r) => if r in w.reviews then ConfirmIfRequested(w, r).0 else w
    case WriteCache(owner, hash) => w.(library := w.library.(stored := w.library.stored + {(owner, hash)}))
    case RegisterSource(r, i, hash, size, ids) =>
      if r in w.reviews && (w.reviews[r].owner, hash) in w.library.stored then Register(w, r, i, hash, size, ids).world else w
    case FailSource(r, i) => MarkFailed(w, r, i)
    case CompleteImport(r, ready) => if r in w.reviews then Complete(w, r, ready).0 else w
    case ArchivePaper(p) =>
      if p in w.library.papers then w.(library := w.library.(papers := w.library.papers[p := w.library.papers[p].(archived := true)]))
      else w
    case FinishIndex(x, c) =>
      if x in w.library.versions && x !in w.library.chunkSets && c !in w.library.chunkSets.Values
      then w.(library := w.library.(chunkSets := w.library.chunkSets[x := c])) else w
    case _ => if m.review in w.reviews then WithReview(w, m.review, MoveRun(w.library, w.reviews[m.review], m)) else w
  }

  ghost function Play(w: World, moves: seq<Move>): World {
    if moves == [] then w else Commit(Play(w, moves[..|moves| - 1]), moves[|moves| - 1])
  }

  // ---- the loop ---------------------------------------------------------------------------------------------------

  /** The gateway: within the remaining budget it may deliver, otherwise it fails for good. */
  datatype Download = Content(hash: Hash, size: nat) | TemporaryError | PermanentError

  function Fetch(d: Download, remaining: int): (got: Download)
    ensures got.Content? ==> got == d && 0 < remaining && got.size <= remaining
  {
    if remaining <= 0 then PermanentError
    else if d.Content? && d.size > remaining then PermanentError
    else d
  }

  /** What one source meets: the download, and what others commit before each transaction. */
  datatype Turn = Turn(
    before: seq<Move>,
    download: Download,
    afterDownload: seq<Move>,
    storageOk: bool,
    afterWrite: seq<Move>,
    beforeRegister: seq<Move>,
    ids: Fresh,
    afterError: seq<Move>,
    beforeFailure: seq<Move>)

  datatype Tally = Tally(imported: nat, ready: nat, failed: nat, bytes: int)

  datatype Verdict = Going | Stopped | Raised

  datatype Progress = Progress(world: World, tally: Tally, verdict: Verdict)

  /** The error branch: a pending cancellation first, then a retry of the whole run or a stable failure. */
  ghost function OnError(w: World, r: ReviewId, i: nat, temporary: bool, t: Turn, tally: Tally): Progress {
    var w1 := Play(w, t.afterError);
    if r !in w1.reviews then Progress(w1, tally, Raised)
    else
      var (w2, stop) := ConfirmIfRequested(w1, r);
      if stop then Progress(w2, tally, Stopped)
      else if temporary then Progress(w2, tally, Raised)
      else Progress(MarkFailed(Play(w2, t.beforeFailure), r, i), tally.(failed := tally.failed + 1), Going)
  }

  ghost function OnContent(w: World, r: ReviewId, i: nat, hash: Hash, size: nat, t: Turn, tally: Tally): Progress {
    var w1 := Play(w, t.afterDownload);
    if r !in w1.reviews then Progress(w1, tally, Raised)
    else
      var (w2, stop) := ConfirmIfRequested(w1, r);
      if stop then Progress(w2, tally, Stopped)
      else if !t.storageOk then Progress(w2, tally, Raised)
      else
        var w3 := Play(Commit(w2, WriteCache(w2.reviews[r].owner, hash)), t.afterWrite);
        if r !in w3.reviews then Progress(w3, tally, Raised)
        else
          var (w4, stopped) := ConfirmIfRequested(w3, r);
          if stopped then Progress(w4, tally, Stopped)
          else
            var out := Register(Play(w4, t.beforeRegister), r, i, hash, size, t.ids);
            match out.reply
            case Bound(ready, _) =>
              Progress(out.world, tally.(imported := tally.imported + 1, ready := tally.ready + if ready then 1 else 0), Going)
            case CancelSeen => Progress(out.world, tally, Stopped)
            case PaperArchived => OnError(out.world, r, i, false, t, tally)
            case RegisterRaised => Progress(out.world, tally, Raised)
  }

  /** One source, with the status the loop read at its start. */
  ghost function ImportOne(w: World, r: ReviewId, i: nat, source: Source, t: Turn, budget: int, tally: Tally): Progress {
    var w0 := Play(w, t.before);
    if r !in w0.reviews then Progress(w0, tally, Raised)
    else
      var (w1, stop) := ConfirmIfRequested(w0, r);
      if stop then Progress(w1, tally, Stopped)
      else
        match source.status
        case Rejected => Progress(w1, tally, Going)
        case Importing => Progress(w1, tally.(imported := tally.imported + 1), Going)
        case Ready => Progress(w1, tally.(imported := tally.imported + 1, ready := tally.ready + 1), Going)
        case SourceFailed => Progress(w1, tally.(failed := tally.failed + 1), Going)
        case Discovered =>
          if !source.identified then Progress(w1, tally, Raised)
          else
            match Fetch(t.download, budget - tally.bytes)
            case TemporaryError => OnError(w1, r, i, true, t, tally)
            case PermanentError => OnError(w1, r, i, false, t, tally)
            case Content(hash, size) => OnContent(w1, r, i, hash, size, t, tally.(bytes := tally.bytes + size))
  }

  ghost function ImportFirst(w: World, r: ReviewId, sources: seq<Source>, turns: seq<Turn>, budget: int, start: Tally, k: nat): Progress
    requires k <= |sources| == |turns|
  {
    if k == 0 then Progress(w, start, Going)
    else
      var done := ImportFirst(w, r, sources, turns, budget, start, k - 1);
      if !done.verdict.Going? then done
      else ImportOne(done.world, r, k - 1, sources[k - 1], turns[k - 1], budget, done.tally)
  }

  /** The bytes of the versions already bound, each version once. */
  function ConsumedBytes(l: Library, sources: seq<Source>): nat {
    if sources == [] then 0
    else
      var n := |sources| - 1;
      var x := sources[n].version;
      ConsumedBytes(l, sources[..n])
      + if x.Some? && x.value in l.versions && x.value !in BoundVersions(sources[..n]) then l.versions[x.value].size else 0
  }

  function BoundVersions(sources: seq<Source>): set<VersionId> {
    set s | s in sources && s.version.Some? :: s.version.value
  }

  predicate VersionsOwned(l: Library, owner: OwnerId, sources: seq<Source>) {
    forall x :: x in BoundVersions(sources) ==> x in l.versions && l.versions[x].owner == owner
  }

  /** What others commit around the loop, and what each source meets. */
  datatype Script = Script(afterRead: seq<Move>, turns: seq<Turn>, beforeEnd: seq<Move>, beforeComplete: seq<Move>)

  datatype Ending = ImportCancelled | ImportFailed | Completed(emitted: bool)

  datatype Outcome = Outcome(world: World, tally: Tally, ending: Ending)

  /** From the end of the loop to the end of the call. */
  ghost function AfterLoop(loop: Progress, r: ReviewId, script: Script): Outcome {
    if loop.verdict.Stopped? then Outcome(loop.world, loop.tally, ImportCancelled)
    else if loop.verdict.Raised? then Outcome(loop.world, loop.tally, ImportFailed)
    else
      var w3 := Play(loop.world, script.beforeEnd);
      if r !in w3.reviews then Outcome(w3, loop.tally, ImportFailed)
      else
        var (w4, stopped) := ConfirmIfRequested(w3, r);
        if stopped then Outcome(w4, loop.tally, ImportCancelled)
        else
          var w5 := Play(w4, script.beforeComplete);
          if r !in w5.reviews then Outcome(w5, loop.tally, ImportFailed)
          else
            var (w6, completion) := Complete(w5, r, loop.tally.ready);
            if completion.StepConflict? then Outcome(w6, loop.tally, ImportFailed)
            else Outcome(w6, loop.tally, Completed(completion.Emitted?))
  }

  /** One call of the import: what the sources and their bytes are is read once, at the start. */
  ghost function ImportAll(w: World, r: ReviewId, budget: int, script: Script): Outcome
    requires r in w.reviews && |script.turns| == |w.reviews[r].sources|
  {
    var sources := w.reviews[r].sources;
    var start := Tally(0, 0, 0, ConsumedBytes(w.library, sources));
    if !VersionsOwned(w.library, w.reviews[r].owner, sources) then Outcome(w, Tally(0, 0, 0, 0), ImportFailed)
    else
      var w1 := Play(w, script.afterRead);
      if r !in w1.reviews then Outcome(w1, start, ImportFailed)
      else
        var (w2, stop) := ConfirmIfRequested(w1, r);
        if stop then Outcome(w2, start, ImportCancelled)
        else AfterLoop(ImportFirst(w2, r, sources, script.turns, budget, start, |sources|), r, script)
  }

  // ---- invariant ----------------------------------------------------------------------------------------------------

  /** The log holds the numbers 1, 2, ... and one completion for the completed step. */
  ghost predicate NotesSound(v: Review) {
    && v.nextEvent == |v.events| + 1
    && (forall i :: 0 <= i < |v.events| ==> v.events[i].sequence == i + 1)
    && (forall i, j :: 0 <= i < j < |v.events| ==> !(v.events[i].note.ImportCompleted? && v.events[j].note.ImportCompleted?))
    && (v.step.Some? <==> exists i :: 0 <= i < |v.events| && v.events[i].note.ImportCompleted?)
  }

  predicate DistinctTargets(deps: seq<Dependency>) {
    forall i, j :: 0 <= i < j < |deps| ==> deps[i].target != deps[j].target
  }

  /** A bound source has its version dependency; a ready one also a satisfied dependency on its chunk set. */
  predicate SourceSound(l: Library, v: Review, i: nat)
    requires i < |v.sources|
  {
    match v.sources[i].status
    case Discovered => v.sources[i].version.None?
    case Importing => v.sources[i].version.Some? && OnVersion(v.sources[i].version.value) in Targets(v.dependencies)
    case Ready =>
      && v.sources[i].version.Some? && OnVersion(v.sources[i].version.value) in Targets(v.dependencies)
      && v.sources[i].version.value in l.chunkSets
      && Dependency(OnChunkSet(l.chunkSets[v.sources[i].version.value]), Satisfied) in v.dependencies
    case Rejected => true
    case SourceFailed => true
  }

  predicate ChunkDepsSatisfied(deps: seq<Dependency>) {
    forall d :: d in deps && d.target.OnChunkSet? ==> d.status.Satisfied?
  }

  ghost predicate ReviewSound(l: Library, v: Review) {
    && NotesSound(v)
    && DistinctTargets(v.dependencies) && ChunkDepsSatisfied(v.dependencies)
    && forall i :: 0 <= i < |v.sources| ==> SourceSound(l, v, i)
  }

  predicate SameContent(a: Version, b: Version) {
    a.canonical && b.canonical && a.owner == b.owner && a.hash == b.hash
  }

  /** One canonical version for each owner and content, stored first, with one ingestion run of its own, which
      has one outbox entry. */
  ghost predicate LibrarySound(l: Library) {
    && (forall x, y :: x in l.versions && y in l.versions && SameContent(l.versions[x], l.versions[y]) ==> x == y)
    && (forall x :: x in l.versions ==> (l.versions[x].owner, l.versions[x].hash) in l.stored)
    && (forall x :: x in l.versions && l.versions[x].run.Some? ==> l.versions[x].run.value in l.ingestions)
    && (forall x, y :: x in l.versions && y in l.versions && l.versions[x].run.Some? && l.versions[x].run == l.versions[y].run
          ==> x == y)
    && (forall i, j :: 0 <= i < j < |l.outbox| ==> l.outbox[i] != l.outbox[j])
    && (forall run :: run in l.ingestions <==> run in l.outbox)
    && (forall x :: x in l.chunkSets ==> x in l.versions)
  }

  ghost predicate Inv(w: World) {
    && LibrarySound(w.library)
    && forall r :: r in w.reviews ==> ReviewSound(w.library, w.reviews[r])
  }
}
