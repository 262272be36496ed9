/** When a cancelled review holds open candidates, and how the summary of an import relates to the store. */
module ArxivReviews {
  import opened Wrappers
  import opened Runs
  import opened ArxivImport
  import opened ArxivImportTheorems

  // ---- open candidates of cancelled reviews -------------------------------------------------------------

  predicate HasOpen(v: Review) {
    exists i :: 0 <= i < |v.sources| && v.sources[i].status.Discovered?
  }

  /** No open candidate in a cancelled review. */
  predicate Closed(w: World, r: ReviewId) {
    r in w.reviews && w.reviews[r].status.Cancelled? ==> !HasOpen(w.reviews[r])
  }

  /** The commit cancels a review with an open candidate and leaves its sources alone, or is the first search for a
      review that is cancelled already. */
  predicate Opens(w: World, m: Move, r: ReviewId) {
    && r in w.reviews
    && var v := w.reviews[r];
       match m
       case CancelReview(q) => q == r && !v.status.Running? && !Terminal(v.status) && HasOpen(v)
       case ReclaimReview(q) => q == r && v.status.CancelRequested? && HasOpen(v)
       case RunSearch(q, _, found) => q == r && v.status.Cancelled? && v.search.None? && found != []
       case _ => false
  }

  predicate OnlyOpen(v: Review, i: nat) {
    i < |v.sources| && v.sources[i].status.Discovered? && forall j :: 0 <= j < |v.sources| && j != i ==> !v.sources[j].status.Discovered?
  }

  /** The commit reconciles the review, or fails its only open candidate. */
  predicate Closes(w: World, m: Move, r: ReviewId) {
    && r in w.reviews
    && match m
       case Reconcile(q, _) => q == r
       case FailSource(q, i) => q == r && OnlyOpen(w.reviews[r], i)
       case _ => false
  }

  lemma OtherReviewStays(w: World, m: Move, r: ReviewId)
    requires r in w.reviews && !(OnTheRun(m) && m.review == r) && !m.RunSearch? && !m.RegisterSource? && !m.FailSource? && !m.ConfirmCancel?
    ensures r in Commit(w, m).reviews && Commit(w, m).reviews[r].status == w.reviews[r].status
    ensures Commit(w, m).reviews[r].sources == w.reviews[r].sources
  {
    hide MoveRun, AllSettled;
  }

  lemma {:induction false} ReconcileFirstRejects(l: Library, v: Review, o: Outside, k: nat)
    requires k <= |v.sources|
    ensures var after := ReconcileFirst(l, v, o, true, k);
            && after.status == v.status && after.search == v.search
            && (forall i :: 0 <= i < k ==> !after.sources[i].status.Discovered?)
            && forall i :: k <= i < |v.sources| ==> after.sources[i] == v.sources[i]
  {
    hide Evaluate, Require, Resolve;
    if k > 0 { ReconcileFirstRejects(l, v, o, k - 1); }
  }

  /** One reconciliation of a review that is cancelled, or about to be, leaves no open candidate. */
  lemma ReconciliationCloses(w: World, r: ReviewId, o: Outside)
    requires r in w.reviews && Cancelling(w.reviews[r].status)
    ensures var after := Commit(w, Reconcile(r, o));
            && r in after.reviews && after.reviews[r].status.Cancelled? && !HasOpen(after.reviews[r]) && Closed(after, r)
            && after.reviews[r].search == w.reviews[r].search && after.library == w.library
  {
    var v := w.reviews[r];
    ReconcileFirstRejects(w.library, v, o, |v.sources|);
    hide ReconcileFirst;
  }

  lemma MoveRunOpens(w: World, m: Move, r: ReviewId)
    requires r in w.reviews && OnTheRun(m) && m.review == r && !m.Reconcile?
    ensures Closed(Commit(w, m), r) <==> if Closed(w, r) then !Opens(w, m, r) else Closes(w, m, r)
  {
    hide ReadyCount, Reconciled;
    var v, after := w.reviews[r], MoveRun(w.library, w.reviews[r], m);
    assert Commit(w, m).reviews[r] == after;
    if m.CancelReview? || m.ReclaimReview? {
      assert after.sources == v.sources;
    } else {
      assert after.status.Cancelled? ==> after == v;
    }
  }

  lemma ReconcileClosedIff(w: World, m: Move, r: ReviewId)
    requires r in w.reviews && m.Reconcile? && m.review == r
    ensures Closed(Commit(w, m), r)
  {
    if Cancelling(w.reviews[r].status) {
      ReconciliationCloses(w, r, m.outside);
    } else {
      WaitingNotCancelled(w.library, w.reviews[r], m.outside);
      hide Reconciled;
    }
  }

  lemma WaitingNotCancelled(l: Library, v: Review, o: Outside)
    requires !Cancelling(v.status)
    ensures !Reconciled(l, v, o).status.Cancelled?
  {
    if v.status.WaitingDependency? { StatusStays(l, v, o, false, |v.sources|); }
    hide ReconcileFirst, AllSettled, ReadyCount;
  }

  lemma {:induction false} StatusStays(l: Library, v: Review, o: Outside, cancelling: bool, k: nat)
    requires k <= |v.sources|
    ensures ReconcileFirst(l, v, o, cancelling, k).status == v.status
  {
    hide Evaluate, Require, Resolve;
    if k > 0 { StatusStays(l, v, o, cancelling, k - 1); }
  }

  lemma SearchOpens(w: World, key: Key, found: seq<bool>, q: ReviewId, r: ReviewId)
    requires r in w.reviews
    ensures var m := RunSearch(q, key, found);
            Closed(Commit(w, m), r) <==> if Closed(w, r) then !Opens(w, m, r) else Closes(w, m, r)
  {
    var m := RunSearch(q, key, found);
    if q == r {
      var v, after := w.reviews[r], Search(w.reviews[r], key, found).0;
      assert Commit(w, m).reviews[r] == after;
      if v.search.None? {
        assert |after.sources| == |v.sources| + |found|;
        assert forall i :: 0 <= i < |v.sources| ==> after.sources[i] == v.sources[i];
        if found != [] { assert after.sources[|v.sources|].status.Discovered?; }
      }
    }
  }

  lemma FailCloses(w: World, q: ReviewId, i: nat, r: ReviewId)
    requires r in w.reviews
    ensures var m := FailSource(q, i); Closed(Commit(w, m), r) <==> if Closed(w, r) then !Opens(w, m, r) else Closes(w, m, r)
  {
    var m := FailSource(q, i);
    if q == r && i < |w.reviews[r].sources| && w.reviews[r].sources[i].status.Discovered? {
      var v, after := w.reviews[r], Commit(w, m).reviews[r];
      assert after.sources == v.sources[i := v.sources[i].(status := SourceFailed)] && after.status == v.status;
      assert forall j :: 0 <= j < |v.sources| && j != i ==> after.sources[j] == v.sources[j];
    }
  }

  lemma RegisterNeverOpens(w: World, q: ReviewId, i: nat, hash: Hash, size: nat, ids: Fresh, r: ReviewId)
    requires r in w.reviews
    ensures var after := Register(w, q, i, hash, size, ids).world; r in after.reviews && (Closed(after, r) <==> Closed(w, r))
  {
    hide HasContent, Require;
    if q in w.reviews && HasContent(w.library, w.reviews[q].owner, hash) { ContentThere(w.library, w.reviews[q].owner, hash); }
    hide ContentOf;
  }

  lemma ConfirmNeverOpens(w: World, q: ReviewId, r: ReviewId)
    requires r in w.reviews && q in w.reviews
    ensures var after := ConfirmIfRequested(w, q).0; r in after.reviews && (Closed(after, r) <==> Closed(w, r))
    ensures ConfirmIfRequested(w, q).1 ==> ConfirmIfRequested(w, q).0.reviews[q].status.Cancelled?
  {
  }

  /** A commit leaves a closed review open if and only if it cancels it without looking at its open candidates or
      searches for it after the end; and it closes an open one if and only if it reconciles it or fails its last
      open candidate. */
  lemma ClosedIff(w: World, m: Move, r: ReviewId)
    requires r in w.reviews
    ensures r in Commit(w, m).reviews
    ensures Closed(Commit(w, m), r) <==> if Closed(w, r) then !Opens(w, m, r) else Closes(w, m, r)
  {
    CommitPersists(w, m);
    if OnTheRun(m) && m.review == r {
      if m.Reconcile? { ReconcileClosedIff(w, m, r); } else { MoveRunOpens(w, m, r); }
      hide Commit, HasOpen;
    } else {
      match m
      case RunSearch(q, key, found) => SearchOpens(w, key, found, q, r);
      case FailSource(q, i) => FailCloses(w, q, i, r);
      case RegisterSource(q, i, hash, size, ids) => RegisterNeverOpens(w, q, i, hash, size, ids, r); hide Register, HasOpen;
      case ConfirmCancel(q) => if q in w.reviews { ConfirmNeverOpens(w, q, r); } hide ConfirmIfRequested, HasOpen;
      case _ => OtherReviewStays(w, m, r); hide Commit;
    }
  }

  /** Whatever the review was like before, it is open afterwards. */
  lemma OpensOpens(w: World, m: Move, r: ReviewId)
    requires Opens(w, m, r)
    ensures !Closed(Commit(w, m), r)
  {
    ClosedIff(w, m, r);
    if m.RunSearch? {
      var v, after := w.reviews[r], Search(w.reviews[r], m.key, m.found).0;
      assert after.sources[|v.sources|].status.Discovered?;
    }
  }

  lemma UnknownIsClosed(w: World, m: Move, r: ReviewId)
    requires r !in w.reviews
    ensures Closed(Commit(w, m), r)
  {
    hide Register, MoveRun, AllSettled, HasOpen, Search, ConfirmIfRequested;
    if m.RegisterSource? { RegisterKnowsReviews(w, m.review, m.source, m.hash, m.size, m.ids); }
    if m.ConfirmCancel? && m.review in w.reviews { ConfirmKnowsReviews(w, m.review); }
  }

  lemma RegisterKnowsReviews(w: World, q: ReviewId, i: nat, hash: Hash, size: nat, ids: Fresh)
    ensures Register(w, q, i, hash, size, ids).world.reviews.Keys == w.reviews.Keys
  {
    hide HasContent, Require;
    if q in w.reviews && HasContent(w.library, w.reviews[q].owner, hash) { ContentThere(w.library, w.reviews[q].owner, hash); }
    hide ContentOf;
  }

  lemma ConfirmKnowsReviews(w: World, q: ReviewId)
    requires q in w.reviews
    ensures ConfirmIfRequested(w, q).0.reviews.Keys == w.reviews.Keys
  {
  }

  /** The k-th commit opened the review and no later one closed it. */
  ghost predicate OpenedAt(w: World, moves: seq<Move>, r: ReviewId, k: int) {
    && 0 <= k < |moves| && Opens(Play(w, moves[..k]), moves[k], r)
    && forall j :: k < j < |moves| ==> !Closes(Play(w, moves[..j]), moves[j], r)
  }

  ghost predicate OpenedLast(w: World, moves: seq<Move>, r: ReviewId) {
    exists k :: OpenedAt(w, moves, r, k)
  }

  lemma OpenedNext(w: World, moves: seq<Move>, r: ReviewId)
    requires moves != []
    ensures var n := |moves| - 1; var before := Play(w, moves[..n]);
            OpenedLast(w, moves, r) <==> Opens(before, moves[n], r) || (OpenedLast(w, moves[..n], r) && !Closes(before, moves[n], r))
  {
    hide Opens, Closes, Play;
    var n := |moves| - 1;
    var shorter := moves[..n];
    assert forall k :: 0 <= k <= n ==> shorter[..k] == moves[..k];
    if OpenedLast(w, moves, r) {
      var k :| OpenedAt(w, moves, r, k);
      if k < n {
        assert OpenedAt(w, shorter, r, k) by {
          assert forall j :: k < j < n ==> shorter[..j] == moves[..j] && shorter[j] == moves[j];
        }
        assert !Closes(Play(w, moves[..n]), moves[n], r);
      }
    }
    if Opens(Play(w, moves[..n]), moves[n], r) { assert OpenedAt(w, moves, r, n); }
    if OpenedLast(w, shorter, r) && !Closes(Play(w, moves[..n]), moves[n], r) {
      var k :| OpenedAt(w, shorter, r, k);
      assert forall j :: k < j < n ==> shorter[..j] == moves[..j] && shorter[j] == moves[j];
      assert OpenedAt(w, moves, r, k);
    }
  }

  /** Over any run of commits a cancelled review holds an open candidate if and only if some commit opened it and no
      later one closed it. */
  lemma {:induction false} OpenIff(w: World, moves: seq<Move>, r: ReviewId)
    requires Closed(w, r)
    ensures !Closed(Play(w, moves), r) <==> OpenedLast(w, moves, r)
  {
    hide Commit, Closed, Opens, Closes, OpenedLast;
    if moves == [] {
      assert !OpenedLast(w, moves, r) by { NothingOpened(w, r); }
    } else {
      var n := |moves| - 1;
      var before := Play(w, moves[..n]);
      OpenIff(w, moves[..n], r);
      OpenedNext(w, moves, r);
      if r in before.reviews {
        ClosedIff(before, moves[n], r);
        if Opens(before, moves[n], r) { OpensOpens(before, moves[n], r); }
      } else {
        UnknownIsClosed(before, moves[n], r);
        UnknownCannotOpen(before, moves[n], r);
      }
    }
  }

  lemma NothingOpened(w: World, r: ReviewId)
    ensures !OpenedLast(w, [], r)
  {
  }

  lemma UnknownCannotOpen(w: World, m: Move, r: ReviewId)
    requires r !in w.reviews
    ensures !Opens(w, m, r) && Closed(w, r)
  {
  }

  /** A cancelled review that was searched and has been reconciled stays closed for ever. */
  lemma {:induction false} ReconciledStaysClosed(w: World, r: ReviewId, o: Outside, moves: seq<Move>)
    requires r in w.reviews && Cancelling(w.reviews[r].status) && w.reviews[r].search.Some?
    ensures var later := Play(Commit(w, Reconcile(r, o)), moves);
            r in later.reviews && later.reviews[r].status.Cancelled? && later.reviews[r].search.Some? && !HasOpen(later.reviews[r])
  {
    hide Commit, HasOpen;
    if moves == [] {
      ReconciliationCloses(w, r, o);
    } else {
      var n := |moves| - 1;
      ReconciledStaysClosed(w, r, o, moves[..n]);
      var before := Play(Commit(w, Reconcile(r, o)), moves[..n]);
      ClosedIff(before, moves[n], r);
      CancelledStays(before, moves[n], r);
    }
  }

  lemma CancelledStays(w: World, m: Move, r: ReviewId)
    requires r in w.reviews && w.reviews[r].status.Cancelled? && w.reviews[r].search.Some?
    ensures var after := Commit(w, m); r in after.reviews && after.reviews[r].status.Cancelled? && after.reviews[r].search.Some?
  {
    hide MoveRun, Register, AllSettled;
    if OnTheRun(m) && m.review == r {
      RunStaysCancelled(w.library, w.reviews[r], m);
    } else if m.RegisterSource? {
      RegisterStaysCancelled(w, m.review, m.source, m.hash, m.size, m.ids, r);
    }
  }

  lemma RunStaysCancelled(l: Library, v: Review, m: Move)
    requires OnTheRun(m) && v.status.Cancelled?
    ensures MoveRun(l, v, m).status.Cancelled? && MoveRun(l, v, m).search == v.search
  {
    if m.Reconcile? { ReconcileFirstRejects(l, v, m.outside, |v.sources|); }
    hide ReconcileFirst, ReadyCount, AllSettled;
  }

  lemma RegisterStaysCancelled(w: World, q: ReviewId, i: nat, hash: Hash, size: nat, ids: Fresh, r: ReviewId)
    requires r in w.reviews && w.reviews[r].status.Cancelled?
    ensures var after := Register(w, q, i, hash, size, ids).world;
            r in after.reviews && after.reviews[r].status.Cancelled? && after.reviews[r].search == w.reviews[r].search
  {
    hide HasContent, Require;
    if q in w.reviews && HasContent(w.library, w.reviews[q].owner, hash) { ContentThere(w.library, w.reviews[q].owner, hash); }
    hide ContentOf;
  }

  /** One cancellation is enough: the import's download fails for a while, the run waits for its retry, and the user
      cancels it. The next reconciliation closes the review. */
  lemma CancellationLeavesOpen()
    ensures exists w: World, r: ReviewId, o: Outside ::
              Reachable(w) && r in w.reviews && w.reviews[r].status.Cancelled? && HasOpen(w.reviews[r])
              && Closed(Commit(w, Reconcile(r, o)), r)
  {
    var w := SearchedExample();
    var waiting := Commit(w, AttemptFails("r", true));
    var cancelled := Commit(waiting, CancelReview("r"));
    CommitReachable(w, AttemptFails("r", true));
    CommitReachable(waiting, CancelReview("r"));
    hide Reachable;
    assert cancelled.reviews["r"].sources[0].status.Discovered?;
    var o := Outside({}, {}, map[]);
    ReconciliationCloses(cancelled, "r", o);
  }

  // ---- the commits of one import ------------------------------------------------------------------------

  /** The transactions of an import itself. */
  predicate OwnMove(m: Move, r: ReviewId) {
    match m
    case ConfirmCancel(q) => q == r
    case WriteCache(_, _) => true
    case RegisterSource(q, _, _, _, _) => q == r
    case FailSource(q, _) => q == r
    case CompleteImport(q, _) => q == r
    case _ => false
  }

  ghost predicate MadeOf(commits: seq<Move>, r: ReviewId, others: set<Move>) {
    forall m :: m in commits ==> OwnMove(m, r) || m in others
  }

  ghost function MovesOf(moves: seq<Move>): set<Move> {
    set m | m in moves
  }

  ghost function TurnMoves(t: Turn): set<Move> {
    MovesOf(t.before) + MovesOf(t.afterDownload) + MovesOf(t.afterWrite) + MovesOf(t.beforeRegister) + MovesOf(t.afterError)
    + MovesOf(t.beforeFailure)
  }

  ghost function ScriptMoves(s: Script): set<Move> {
    MovesOf(s.afterRead) + MovesOf(s.beforeEnd) + MovesOf(s.beforeComplete) + (set t, m | t in s.turns && m in TurnMoves(t) :: m)
  }

  lemma {:induction false} PlayConcat(w: World, a: seq<Move>, b: seq<Move>)
    ensures Play(w, a + b) == Play(Play(w, a), b)
  {
    hide Commit;
    if b == [] {
      assert a + b == a;
    } else {
      PlayConcat(w, a, b[..|b| - 1]);
      assert (a + b)[..|a + b| - 1] == a + b[..|b| - 1];
    }
  }

  /** One more own transaction. */
  lemma PlayOwn(w: World, commits: seq<Move>, m: Move, r: ReviewId, others: set<Move>)
    requires MadeOf(commits, r, others) && OwnMove(m, r)
    ensures Play(w, commits + [m]) == Commit(Play(w, commits), m) && MadeOf(commits + [m], r, others)
  {
    hide Commit;
    assert (commits + [m])[..|commits|] == commits;
  }

  /** More of what others commit. */
  lemma PlayOthers(w: World, commits: seq<Move>, moves: seq<Move>, r: ReviewId, others: set<Move>)
    requires MadeOf(commits, r, others) && MovesOf(moves) <= others
    ensures Play(w, commits + moves) == Play(Play(w, commits), moves) && MadeOf(commits + moves, r, others)
  {
    PlayConcat(w, commits, moves);
    assert forall m :: m in moves ==> m in MovesOf(moves);
  }

  lemma ConfirmIsCommit(w: World, r: ReviewId)
    requires r in w.reviews
    ensures Commit(w, ConfirmCancel(r)) == ConfirmIfRequested(w, r).0
    ensures r in ConfirmIfRequested(w, r).0.reviews
    ensures ConfirmIfRequested(w, r).1 ==> ConfirmIfRequested(w, r).0.reviews[r].status.Cancelled?
    ensures forall i :: Commit(w, FailSource(r, i)) == MarkFailed(w, r, i)
    ensures forall ready :: Commit(w, CompleteImport(r, ready)) == Complete(w, r, ready).0
  {
    hide AllSettled;
  }

  predicate StopsCancelled(p: Progress, r: ReviewId) {
    p.verdict.Stopped? ==> r in p.world.reviews && p.world.reviews[r].status.Cancelled?
  }

  lemma OnErrorCommits(start: World, done: seq<Move>, r: ReviewId, i: nat, temporary: bool, t: Turn, tally: Tally, others: set<Move>)
    returns (commits: seq<Move>)
    requires MadeOf(done, r, others) && TurnMoves(t) <= others
    ensures var p := OnError(Play(start, done), r, i, temporary, t, tally);
            p.world == Play(start, commits) && MadeOf(commits, r, others) && StopsCancelled(p, r)
  {
    hide MadeOf, Play, Commit, ConfirmIfRequested, MarkFailed, MovesOf;
    PlayOthers(start, done, t.afterError, r, others);
    commits := done + t.afterError;
    var w1 := Play(start, commits);
    if r in w1.reviews {
      ConfirmIsCommit(w1, r);
      PlayOwn(start, commits, ConfirmCancel(r), r, others);
      commits := commits + [ConfirmCancel(r)];
      var (w2, stop) := ConfirmIfRequested(w1, r);
      if !stop && !temporary {
        PlayOthers(start, commits, t.beforeFailure, r, others);
        commits := commits + t.beforeFailure;
        FailIsCommit(Play(start, commits), r, i);
        PlayOwn(start, commits, FailSource(r, i), r, others);
        commits := commits + [FailSource(r, i)];
      }
    }
  }

  lemma FailIsCommit(w: World, r: ReviewId, i: nat)
    ensures Commit(w, FailSource(r, i)) == MarkFailed(w, r, i)
  {
  }

  lemma RegisterIsCommit(w: World, r: ReviewId, i: nat, hash: Hash, size: nat, ids: Fresh)
    requires r in w.reviews ==> (w.reviews[r].owner, hash) in w.library.stored
    ensures Commit(w, RegisterSource(r, i, hash, size, ids)) == Register(w, r, i, hash, size, ids).world
    ensures Register(w, r, i, hash, size, ids).reply.CancelSeen? ==>
              r in Register(w, r, i, hash, size, ids).world.reviews && Register(w, r, i, hash, size, ids).world.reviews[r].status.Cancelled?
  {
    hide HasContent, ContentOf, Bind, AddContent;
  }

  lemma OnContentCommits(start: World, done: seq<Move>, r: ReviewId, i: nat, hash: Hash, size: nat, t: Turn, tally: Tally,
                         others: set<Move>)
    returns (commits: seq<Move>)
    requires MadeOf(done, r, others) && TurnMoves(t) <= others
    ensures var p := OnContent(Play(start, done), r, i, hash, size, t, tally);
            p.world == Play(start, commits) && MadeOf(commits, r, others) && StopsCancelled(p, r)
  {
    hide MadeOf, Play, Commit, ConfirmIfRequested, Register, OnError, MovesOf, Persists;
    PlayOthers(start, done, t.afterDownload, r, others);
    commits := done + t.afterDownload;
    var w1 := Play(start, commits);
    if r in w1.reviews {
      ConfirmIsCommit(w1, r);
      PlayOwn(start, commits, ConfirmCancel(r), r, others);
      commits := commits + [ConfirmCancel(r)];
      var (w2, stop) := ConfirmIfRequested(w1, r);
      if !stop && t.storageOk {
        var write := WriteCache(w2.reviews[r].owner, hash);
        PlayOwn(start, commits, write, r, others);
        commits := commits + [write];
        var cached := Commit(w2, write);
        PlayOthers(start, commits, t.afterWrite, r, others);
        commits := commits + t.afterWrite;
        var w3 := Play(cached, t.afterWrite);
        PlayPersists(cached, t.afterWrite);
        if r in w3.reviews {
          ConfirmIsCommit(w3, r);
          PlayOwn(start, commits, ConfirmCancel(r), r, others);
          commits := commits + [ConfirmCancel(r)];
          var (w4, stopped) := ConfirmIfRequested(w3, r);
          ConfirmPersists(w3, r);
          if !stopped {
            PlayOthers(start, commits, t.beforeRegister, r, others);
            commits := commits + t.beforeRegister;
            var w5 := Play(w4, t.beforeRegister);
            PlayPersists(w4, t.beforeRegister);
            PersistsOn(cached, w3, w4);
            PersistsOn(cached, w4, w5);
            CachedStays(w2, write, w5, r, hash);
            RegisterIsCommit(w5, r, i, hash, size, t.ids);
            var register := RegisterSource(r, i, hash, size, t.ids);
            PlayOwn(start, commits, register, r, others);
            commits := commits + [register];
            if Register(w5, r, i, hash, size, t.ids).reply.PaperArchived? {
              commits := OnErrorCommits(start, commits, r, i, false, t, tally, others);
            }
          }
        }
      }
    }
  }

  /** What was written to the cache is there for the registration. */
  lemma CachedStays(w: World, write: Move, later: World, r: ReviewId, hash: Hash)
    requires r in w.reviews && write == WriteCache(w.reviews[r].owner, hash) && Persists(Commit(w, write), later)
    ensures r in later.reviews && (later.reviews[r].owner, hash) in later.library.stored
  {
  }

  lemma ImportOneCommits(start: World, done: seq<Move>, r: ReviewId, i: nat, source: Source, t: Turn, budget: int, tally: Tally,
                         others: set<Move>)
    returns (commits: seq<Move>)
    requires MadeOf(done, r, others) && TurnMoves(t) <= others
    ensures var p := ImportOne(Play(start, done), r, i, source, t, budget, tally);
            p.world == Play(start, commits) && MadeOf(commits, r, others) && StopsCancelled(p, r)
  {
    hide MadeOf, Play, Commit, ConfirmIfRequested, OnError, OnContent, MovesOf;
    PlayOthers(start, done, t.before, r, others);
    commits := done + t.before;
    var w0 := Play(start, commits);
    if r in w0.reviews {
      ConfirmIsCommit(w0, r);
      PlayOwn(start, commits, ConfirmCancel(r), r, others);
      commits := commits + [ConfirmCancel(r)];
      var stop := ConfirmIfRequested(w0, r).1;
      if !stop && source.status.Discovered? && source.identified {
        match Fetch(t.download, budget - tally.bytes)
        case TemporaryError => commits := OnErrorCommits(start, commits, r, i, true, t, tally, others);
        case PermanentError => commits := OnErrorCommits(start, commits, r, i, false, t, tally, others);
        case Content(hash, size) =>
          commits := OnContentCommits(start, commits, r, i, hash, size, t, tally.(bytes := tally.bytes + size), others);
      }
    }
  }

  lemma {:induction false} ImportFirstCommits(start: World, done: seq<Move>, r: ReviewId, sources: seq<Source>, turns: seq<Turn>,
                                              budget: int, tally: Tally, k: nat, others: set<Move>)
    returns (commits: seq<Move>)
    requires k <= |sources| == |turns| && MadeOf(done, r, others) && forall t :: t in turns ==> TurnMoves(t) <= others
    ensures var p := ImportFirst(Play(start, done), r, sources, turns, budget, tally, k);
            p.world == Play(start, commits) && MadeOf(commits, r, others) && StopsCancelled(p, r)
  {
    hide MadeOf, Play, ImportOne, TurnMoves;
    if k == 0 {
      commits := done;
    } else {
      commits := ImportFirstCommits(start, done, r, sources, turns, budget, tally, k - 1, others);
      var before := ImportFirst(Play(start, done), r, sources, turns, budget, tally, k - 1);
      if before.verdict.Going? {
        assert turns[k - 1] in turns;
        commits := ImportOneCommits(start, commits, r, k - 1, sources[k - 1], turns[k - 1], budget, before.tally, others);
      }
    }
  }

  /** From the end of the loop to the end of the call. */
  lemma AfterLoopCommits(w: World, done: seq<Move>, r: ReviewId, loop: Progress, script: Script, others: set<Move>)
    returns (commits: seq<Move>)
    requires MadeOf(done, r, others) && loop.world == Play(w, done) && StopsCancelled(loop, r)
    requires MovesOf(script.beforeEnd) <= others && MovesOf(script.beforeComplete) <= others
    ensures var out := AfterLoop(loop, r, script);
            && out.world == Play(w, commits) && MadeOf(commits, r, others)
            && (out.ending.ImportCancelled? ==> r in out.world.reviews && out.world.reviews[r].status.Cancelled?)
  {
    hide MadeOf, Play, Commit, ConfirmIfRequested, Complete, MovesOf;
    commits := done;
    if loop.verdict.Going? {
      PlayOthers(w, done, script.beforeEnd, r, others);
      commits := done + script.beforeEnd;
      var w3 := Play(loop.world, script.beforeEnd);
      if r in w3.reviews {
        ConfirmIsCommit(w3, r);
        PlayOwn(w, commits, ConfirmCancel(r), r, others);
        commits := commits + [ConfirmCancel(r)];
        var (w4, stopped) := ConfirmIfRequested(w3, r);
        if !stopped {
          PlayOthers(w, commits, script.beforeComplete, r, others);
          commits := commits + script.beforeComplete;
          var w5 := Play(w4, script.beforeComplete);
          if r in w5.reviews {
            ConfirmIsCommit(w5, r);
            PlayOwn(w, commits, CompleteImport(r, loop.tally.ready), r, others);
            commits := commits + [CompleteImport(r, loop.tally.ready)];
          }
        }
      }
    }
  }

  lemma ScriptParts(script: Script)
    ensures MovesOf(script.afterRead) <= ScriptMoves(script) && MovesOf(script.beforeEnd) <= ScriptMoves(script)
    ensures MovesOf(script.beforeComplete) <= ScriptMoves(script)
    ensures forall t :: t in script.turns ==> TurnMoves(t) <= ScriptMoves(script)
  {
    hide TurnMoves, MovesOf;
    forall t | t in script.turns ensures TurnMoves(t) <= ScriptMoves(script) {
      forall m | m in TurnMoves(t) ensures m in ScriptMoves(script) {
      }
    }
  }

  /** A call of the import is a sequence of commits: its own, and those that the script lets others make. */
  lemma ImportCommits(w: World, r: ReviewId, budget: int, script: Script) returns (commits: seq<Move>)
    requires r in w.reviews && |script.turns| == |w.reviews[r].sources|
    ensures var out := ImportAll(w, r, budget, script);
            && out.world == Play(w, commits) && MadeOf(commits, r, ScriptMoves(script))
            && (out.ending.ImportCancelled? ==> r in out.world.reviews && out.world.reviews[r].status.Cancelled?)
  {
    var others := ScriptMoves(script);
    ScriptParts(script);
    assert MadeOf([], r, others) && Play(w, []) == w;
    hide MadeOf, Play, Commit, ConfirmIfRequested, ImportFirst, ConsumedBytes, VersionsOwned, AfterLoop, ScriptMoves, TurnMoves,
         MovesOf;
    var sources := w.reviews[r].sources;
    var start := Tally(0, 0, 0, ConsumedBytes(w.library, sources));
    commits := [];
    if VersionsOwned(w.library, w.reviews[r].owner, sources) {
      PlayOthers(w, [], script.afterRead, r, others);
      commits := [] + script.afterRead;
      var w1 := Play(w, commits);
      if r in w1.reviews {
        ConfirmIsCommit(w1, r);
        PlayOwn(w, commits, ConfirmCancel(r), r, others);
        commits := commits + [ConfirmCancel(r)];
        var (w2, stop) := ConfirmIfRequested(w1, r);
        if !stop {
          commits := ImportFirstCommits(w, commits, r, sources, script.turns, budget, start, |sources|, others);
          var loop := ImportFirst(w2, r, sources, script.turns, budget, start, |sources|);
          commits := AfterLoopCommits(w, commits, r, loop, script, others);
        }
      }
    }
  }

  /** A call that ends cancelled leaves the review CANCELLED. It leaves an open candidate if and only if, among the
      commits made meanwhile, one opened the review and no later one closed it; such a commit is never the import's. */
  lemma CancelledImportIsClosedIff(w: World, r: ReviewId, budget: int, script: Script)
    requires r in w.reviews && |script.turns| == |w.reviews[r].sources| && Closed(w, r)
    ensures exists commits ::
              var out := ImportAll(w, r, budget, script);
              && MadeOf(commits, r, ScriptMoves(script)) && out.world == Play(w, commits)
              && (out.ending.ImportCancelled? ==>
                    && r in out.world.reviews && out.world.reviews[r].status.Cancelled?
                    && (HasOpen(out.world.reviews[r]) <==> OpenedLast(w, commits, r)))
              && (forall k :: OpenedAt(w, commits, r, k) ==> commits[k] in ScriptMoves(script))
  {
    var commits := ImportCommits(w, r, budget, script);
    OpenIff(w, commits, r);
    forall k | OpenedAt(w, commits, r, k) ensures commits[k] in ScriptMoves(script) {
      assert commits[k] in commits;
      OwnNeverOpens(Play(w, commits[..k]), commits[k], r);
    }
    hide ImportAll, Play, OpenedAt, MadeOf, HasOpen, ScriptMoves;
  }

  lemma OwnNeverOpens(w: World, m: Move, r: ReviewId)
    ensures OwnMove(m, r) ==> !Opens(w, m, r)
  {
  }
}
