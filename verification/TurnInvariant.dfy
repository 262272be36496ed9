/** Every step of the turn protocol keeps the invariant. */
module TurnInvariant {
  import opened Wrappers
  import opened Runs
  import opened TurnProtocol
  import Artifacts
  import ArtifactTheorems
  import Ledger
  import LedgerTheorems

  // ---- logs ---------------------------------------------------------------------------------------

  lemma AppendDense(events: seq<Event>, next: nat, kinds: seq<Kind>)
    requires Dense(events, next)
    ensures Dense(events + Numbered(next, kinds), next + |kinds|)
  {
  }

  lemma {:induction false} NoBudgetAppended(events: seq<Event>, more: seq<Event>)
    requires BudgetReported(events)
    requires forall i :: 0 <= i < |more| ==> !more[i].kind.BudgetUpdated?
    ensures BudgetReported(events + more) && BudgetEvents(events + more) == BudgetEvents(events)
  {
    if more == [] {
      assert events + more == events;
    } else {
      var n := |more| - 1;
      NoBudgetAppended(events, more[..n]);
      var shorter := events + more[..n];
      assert (events + more)[..|events + more| - 1] == shorter;
      assert forall i {:trigger shorter[i]} :: 0 <= i < |shorter| ==> (events + more)[..i + 1] == shorter[..i + 1];
    }
  }

  lemma BudgetAppended(events: seq<Event>, e: Event)
    requires BudgetReported(events)
    requires e.kind.BudgetUpdated? && e.kind.modelCalls + e.kind.toolCalls == BudgetEvents(events) + 1
    ensures BudgetReported(events + [e]) && BudgetEvents(events + [e]) == BudgetEvents(events) + 1
  {
    var all := events + [e];
    assert all[..|events|] == events && all[..|all|] == all;
    assert forall i {:trigger events[i]} :: 0 <= i < |events| ==> all[..i + 1] == events[..i + 1];
  }

  /** The ways a log may be extended together with a status change. */
  predicate Extends(from: Status, kinds: seq<Kind>, to: Status) {
    if Terminal(from) then to == from && forall i :: 0 <= i < |kinds| ==> WrittenLate(kinds[i])
    else if Terminal(to) then
      && |kinds| > 0
      && exists k :: 0 <= k < |kinds| && Closes(kinds, to, k)
    else forall i :: 0 <= i < |kinds| ==> !ClosesStream(kinds[i])
  }

  predicate Closes(kinds: seq<Kind>, to: Status, k: nat)
    requires k < |kinds|
  {
    && Some(kinds[k]) == ClosingKind(to)
    && (forall i :: 0 <= i < k ==> !ClosesStream(kinds[i]))
    && forall i :: k < i < |kinds| ==> i == k + 1 && to.Cancelled? && kinds[i].TurnCancelled?
  }

  lemma ExtendsFits(events: seq<Event>, next: nat, from: Status, kinds: seq<Kind>, to: Status)
    requires LogFits(events, from) && Extends(from, kinds, to)
    ensures LogFits(events + Numbered(next, kinds), to)
  {
    hide WrittenLate, ClosesStream, ClosingKind;
    var n := |events|;
    var all := events + Numbered(next, kinds);
    assert forall i :: 0 <= i < n ==> all[i] == events[i];
    assert forall i :: n <= i < |all| ==> all[i].kind == kinds[i - n];
    if Terminal(from) {
      var k :| EndsAt(events, from, k);
      assert EndsAt(all, to, k);
    } else if Terminal(to) {
      var k :| 0 <= k < |kinds| && Closes(kinds, to, k);
      assert EndsAt(all, to, n + k) by {
        assert all[n + k].kind == kinds[k];
      }
    }
  }

  /** A log extension that reports no reservation. */
  lemma LogGrows(events: seq<Event>, next: nat, from: Status, kinds: seq<Kind>, to: Status)
    requires LogSound(events, next, from) && Extends(from, kinds, to)
    requires forall i :: 0 <= i < |kinds| ==> !kinds[i].BudgetUpdated?
    ensures LogSound(events + Numbered(next, kinds), next + |kinds|, to)
    ensures BudgetEvents(events + Numbered(next, kinds)) == BudgetEvents(events)
  {
    hide LogFits, Extends, BudgetReported, BudgetEvents, Dense;
    AppendDense(events, next, kinds);
    ExtendsFits(events, next, from, kinds, to);
    NoBudgetAppended(events, Numbered(next, kinds));
  }

  /** A log extension that reports one more reservation. */
  lemma LogReserves(events: seq<Event>, next: nat, status: Status, modelCalls: nat, toolCalls: nat)
    requires LogSound(events, next, status) && !Terminal(status)
    requires modelCalls + toolCalls == BudgetEvents(events) + 1
    ensures var kinds := [BudgetUpdated(modelCalls, toolCalls)];
            && LogSound(events + Numbered(next, kinds), next + |kinds|, status)
            && BudgetEvents(events + Numbered(next, kinds)) == BudgetEvents(events) + 1
  {
    hide LogFits, Extends, BudgetReported, BudgetEvents, Dense;
    var kind := BudgetUpdated(modelCalls, toolCalls);
    assert Numbered(next, [kind]) == [Event(next, kind)];
    AppendDense(events, next, [kind]);
    OneKind(status, kind, status);
    ExtendsFits(events, next, status, [kind], status);
    BudgetAppended(events, Event(next, kind));
  }

  lemma OneKind(from: Status, kind: Kind, to: Status)
    requires !Terminal(from)
    requires if Terminal(to) then Some(kind) == ClosingKind(to) else !ClosesStream(kind)
    ensures Extends(from, [kind], to)
  {
    if Terminal(to) {
      assert Closes([kind], to, 0);
    }
  }

  /** A log extension that reserves nothing and leaves the other rows alone. */
  lemma AppendSound(run: Run, kinds: seq<Kind>, to: Status)
    requires RunSound(run) && Extends(run.status, kinds, to)
    requires forall i :: 0 <= i < |kinds| ==> !kinds[i].BudgetUpdated?
    requires !to.WaitingInput? && !to.WaitingDependency? && (to.Succeeded? <==> run.status.Succeeded?)
    ensures RunSound(Append(run, kinds, to))
  {
    hide LogSound, Extends, Artifacts.Sound, Ledger.Sound, Artifacts.NoneStaged, BudgetEvents;
    LogGrows(run.events, run.nextEvent, run.status, kinds, to);
  }

  // ---- frames -------------------------------------------------------------------------------------

  /** Later versions of the same run. */
  predicate Later(run: Run, run': Run) {
    && run'.owner == run.owner && run'.session == run.session && run'.userMessage == run.userMessage
    && (run.status.Succeeded? ==> run'.status.Succeeded? && run'.claimSets == run.claimSets)
    && (Terminal(run.status) ==> Terminal(run'.status))
    && run.nextEvent <= run'.nextEvent
    && (run.nextEvent == run'.nextEvent ==> run'.status == run.status)
  }

  /** No run is lost and every run moves forward. */
  ghost predicate RunsAdvance(db: Db, db': Db) {
    forall r :: r in db.runs ==> r in db'.runs && Later(db.runs[r], db'.runs[r])
  }

  /** A run whose session kept its messages stays placed unless it just succeeded. */
  lemma PlacedStays(db: Db, db': Db, r: RunId)
    requires r in db.runs && r in db'.runs && RunPlaced(db, r) && Later(db.runs[r], db'.runs[r])
    requires db'.runs[r].status.Succeeded? ==> db.runs[r].status.Succeeded?
    requires var s := db.runs[r].session;
             && s in db'.sessions && db'.sessions[s].owner == db.sessions[s].owner
             && db.sessions[s].messages <= db'.sessions[s].messages
             && (!Terminal(db'.runs[r].status) ==>
                   db'.sessions[s].active == Some(r) && db'.sessions[s].messages == db.sessions[s].messages)
    ensures RunPlaced(db', r)
  {
  }

  lemma MessageStays(db: Db, db': Db, id: SessionId, i: nat)
    requires id in db.sessions && i < |db.sessions[id].messages| && MessagePlaced(db, id, i)
    requires id in db'.sessions && db.sessions[id].messages <= db'.sessions[id].messages
    requires RunsAdvance(db, db')
    ensures MessagePlaced(db', id, i)
  {
  }

  /** A session with the same messages, held by the same run or freed. */
  lemma SessionStays(db: Db, db': Db, id: SessionId)
    requires id in db.sessions && SessionSound(db, id) && RunsAdvance(db, db')
    requires id in db'.sessions && db'.sessions[id].messages == db.sessions[id].messages
    requires db'.sessions[id].nextMessage == db.sessions[id].nextMessage
    requires db'.sessions[id].active == db.sessions[id].active || db'.sessions[id].active.None?
    ensures SessionSound(db', id)
  {
    hide MessagePlaced;
    forall i | 0 <= i < |db'.sessions[id].messages| ensures MessagePlaced(db', id, i) {
      MessageStays(db, db', id, i);
    }
  }

  lemma SightsStay(db: Db, db': Db)
    requires forall w :: w in db.sights ==> SightSound(db, db.sights[w])
    requires db'.sights == db.sights && RunsAdvance(db, db')
    ensures forall w :: w in db'.sights ==> SightSound(db', db'.sights[w])
  {
  }

  // ---- generic steps ------------------------------------------------------------------------------

  /** What a step on one run must respect for the rest of the database not to notice. */
  predicate Compatible(run: Run, run': Run) {
    Later(run, run') && (run'.status.Succeeded? ==> run.status.Succeeded?)
  }

  lemma UpdateRunKeeps(db: Db, r: RunId, run': Run)
    requires Inv(db) && r in db.runs
    requires RunSound(run') && Compatible(db.runs[r], run')
    ensures Inv(WithRun(db, r, run'))
  {
    hide RunSound, SessionSound, SightSound;
    var db' := WithRun(db, r, run');
    forall x | x in db'.runs ensures RunSound(db'.runs[x]) && RunPlaced(db', x) {
      PlacedStays(db, db', x);
    }
    forall id | id in db'.sessions ensures SessionSound(db', id) {
      SessionStays(db, db', id);
    }
    SightsStay(db, db');
  }

  lemma AppendKeeps(db: Db, r: RunId, kinds: seq<Kind>, to: Status)
    requires Inv(db) && r in db.runs && |kinds| > 0
    requires Extends(db.runs[r].status, kinds, to)
    requires forall i :: 0 <= i < |kinds| ==> !kinds[i].BudgetUpdated?
    requires !to.WaitingInput? && !to.WaitingDependency? && (to.Succeeded? <==> db.runs[r].status.Succeeded?)
    ensures Inv(WithRun(db, r, Append(db.runs[r], kinds, to)))
  {
    AppendSound(db.runs[r], kinds, to);
    hide RunSound, RunPlaced, SessionSound, SightSound;
    UpdateRunKeeps(db, r, Append(db.runs[r], kinds, to));
  }

  /** Taking the session away from a run that has ended. */
  lemma ReleaseKeeps(db: Db, s: SessionId, r: RunId)
    requires Inv(db)
    requires r in db.runs ==> Terminal(db.runs[r].status)
    ensures Inv(Release(db, s, r))
  {
    if Holds(db, s, r) {
      FreeKeeps(db, s, r);
    }
  }

  lemma FreeKeeps(db: Db, s: SessionId, r: RunId)
    requires Inv(db) && Holds(db, s, r)
    requires r in db.runs ==> Terminal(db.runs[r].status)
    ensures Inv(db.(sessions := db.sessions[s := db.sessions[s].(active := None)]))
  {
    hide RunSound, SessionSound, SightSound, MessagePlaced;
    var db' := db.(sessions := db.sessions[s := db.sessions[s].(active := None)]);
    forall x | x in db'.runs ensures RunPlaced(db', x) {
      assert RunPlaced(db, x);
      PlacedStays(db, db', x);
    }
    forall id | id in db'.sessions ensures SessionSound(db', id) {
      SessionStays(db, db', id);
    }
    SightsStay(db, db');
  }

  /** One event that is not a budget event, with the status change it announces. */
  lemma StepKeeps(db: Db, r: RunId, kind: Kind, to: Status)
    requires Inv(db) && r in db.runs && !Terminal(db.runs[r].status)
    requires if Terminal(to) then Some(kind) == ClosingKind(to) else !ClosesStream(kind)
    requires !kind.BudgetUpdated? && !to.WaitingInput? && !to.WaitingDependency? && !to.Succeeded?
    ensures Inv(WithRun(db, r, Append(db.runs[r], [kind], to)))
  {
    hide RunSound, RunPlaced, SessionSound, SightSound, Append;
    OneKind(db.runs[r].status, kind, to);
    AppendKeeps(db, r, [kind], to);
  }

  // ---- posting ------------------------------------------------------------------------------------

  lemma NewRunSound(q: PostRequest, n: nat)
    requires Ledger.PolicyValid(q.policy)
    ensures RunSound(NewRun(q, n))
  {
    var run := NewRun(q, n);
    var kinds := [RunCreated, MessageAccepted];
    assert LogSound([], 1, Queued);
    assert Extends(Queued, kinds, Queued);
    LogGrows([], 1, Queued, kinds, Queued);
    assert [] + Numbered(1, kinds) == run.events;
    hide LogSound, Ledger.Sound, BudgetEvents;
    LedgerTheorems.EveryRunKeeps(q.policy, []);
    assert Artifacts.Sound(run.shelf) by {
      assert Artifacts.Matched([], []);
    }
  }

  lemma PostPlaces(db: Db, q: PostRequest)
    requires Inv(db) && PostReplyFor(db, q).Posted?
    ensures forall x :: x in Post(db, q).runs ==> RunPlaced(Post(db, q), x)
  {
    hide RunSound, MessagePlaced, SightSound;
    var db' := Post(db, q);
    assert SessionSound(db, q.session);
    forall x | x in db'.runs ensures RunPlaced(db', x) {
      if x != q.run {
        assert RunPlaced(db, x);
        PlacedStays(db, db', x);
      }
    }
  }

  lemma PostSessions(db: Db, q: PostRequest)
    requires Inv(db) && PostReplyFor(db, q).Posted?
    ensures forall id :: id in Post(db, q).sessions ==> SessionSound(Post(db, q), id)
  {
    hide RunSound, RunPlaced, SightSound;
    var db' := Post(db, q);
    assert RunsAdvance(db, db');
    forall id | id in db'.sessions ensures SessionSound(db', id) {
      assert SessionSound(db, id);
      if id != q.session {
        SessionStays(db, db', id);
      } else {
        forall i | 0 <= i < |db'.sessions[id].messages| ensures MessagePlaced(db', id, i) {
          if i < |db.sessions[id].messages| { MessageStays(db, db', id, i); }
        }
      }
    }
  }

  lemma PostKeeps(db: Db, q: PostRequest)
    requires Inv(db)
    ensures Inv(Post(db, q))
  {
    hide RunSound, RunPlaced, SessionSound, SightSound, NewRun;
    if PostReplyFor(db, q).Posted? {
      NewRunSound(q, db.sessions[q.session].nextMessage);
      PostPlaces(db, q);
      PostSessions(db, q);
      SightsStay(db, Post(db, q));
    }
  }

  // ---- claiming -----------------------------------------------------------------------------------

  /** An optimistic claim commits exactly when the run has the expected status and nothing was appended to
      its log since it was read: the unique event sequence turns the status test into a version test. */
  lemma ClaimNeedsFreshSight(db: Db, sight: Sight, expected: Status)
    requires Inv(db) && SightSound(db, sight)
    ensures ClaimCommits(db, sight, expected)
            <==> sight.status == expected && sight.nextEvent == db.runs[sight.run].nextEvent
  {
    var run := db.runs[sight.run];
    hide RunPlaced, SessionSound, RowsSound, LogFits, BudgetReported, BudgetEvents;
    assert RunSound(run);
    if sight.nextEvent < run.nextEvent {
      assert run.events[sight.nextEvent - 1] in run.events;
      assert run.events[sight.nextEvent - 1].sequence == sight.nextEvent;
    }
  }

  lemma ClaimIsAppend(db: Db, w: WorkerId, expected: Status, to: Status, kind: Kind)
    requires Inv(db) && w in db.sights && ClaimCommits(db, db.sights[w], expected)
    ensures var r := db.sights[w].run;
            r in db.runs && db.runs[r].status == expected
            && ClaimFrom(db, w, expected, to, kind) == WithRun(db, r, Append(db.runs[r], [kind], to))
  {
    hide RunSound, RunPlaced, SessionSound, SightSound;
    var sight := db.sights[w];
    ClaimNeedsFreshSight(db, sight, expected);
    assert [Event(sight.nextEvent, kind)] == Numbered(sight.nextEvent, [kind]);
  }

  lemma ClaimKeeps(db: Db, w: WorkerId, expected: Status, to: Status, kind: Kind)
    requires Inv(db)
    requires expected.Queued? || expected.RetryWait?
    requires (to.Running? || to.Queued?) && !ClosesStream(kind) && !kind.BudgetUpdated?
    ensures Inv(ClaimFrom(db, w, expected, to, kind))
  {
    hide RunSound, RunPlaced, SessionSound, SightSound, Append, ClaimCommits;
    if w in db.sights && ClaimCommits(db, db.sights[w], expected) {
      hide ClaimFrom;
      ClaimIsAppend(db, w, expected, to, kind);
      StepKeeps(db, db.sights[w].run, kind, to);
    }
  }

  lemma EnterKeeps(db: Db, w: WorkerId)
    requires Inv(db)
    ensures Inv(Claim(db, w))
  {
    hide Inv, ClaimFrom;
    ClaimKeeps(db, w, Queued, Running, RunStarted);
    CoreKeeps(ClaimFrom(db, w, Queued, Running, RunStarted), Claim(db, w)) by {
      if !(w in db.sights && ClaimCommits(db, db.sights[w], Queued)) { UnclaimedStays(db, w); }
    }
  }

  lemma UnclaimedStays(db: Db, w: WorkerId)
    requires !(w in db.sights && ClaimCommits(db, db.sights[w], Queued))
    ensures ClaimFrom(db, w, Queued, Running, RunStarted) == db
  {
  }

  // ---- ending -------------------------------------------------------------------------------------

  lemma CancelKeeps(db: Db, actor: OwnerId, r: RunId)
    requires Inv(db)
    ensures Inv(Cancel(db, actor, r))
  {
    hide RunSound, RunPlaced, SessionSound, SightSound, Append;
    if r in db.runs && db.runs[r].owner == actor && !Terminal(db.runs[r].status) {
      if db.runs[r].status.Running? {
        StepKeeps(db, r, RunCancelRequested, CancelRequested);
      } else {
        StepKeeps(db, r, RunCancelled, Cancelled);
      }
    }
  }

  lemma CommitCancellationKeeps(db: Db, r: RunId)
    requires Inv(db) && Is(db, r, CancelRequested)
    ensures Inv(CommitCancellation(db, r))
    ensures Is(CommitCancellation(db, r), r, Cancelled)
    ensures CommitCancellation(db, r).sessions[db.runs[r].session].active == None
  {
    hide RunSound, SessionSound, SightSound, MessagePlaced, Append;
    assert RunPlaced(db, r);
    hide RunPlaced;
    var kinds := [RunCancelled, TurnCancelled];
    var cancelled := WithRun(db, r, Append(db.runs[r], kinds, Cancelled));
    assert Append(db.runs[r], kinds, Cancelled).status == Cancelled by { AppendStatus(db.runs[r], kinds, Cancelled); }
    assert Closes(kinds, Cancelled, 0);
    AppendKeeps(db, r, kinds, Cancelled);
    hide Inv;
    ReleaseKeeps(cancelled, db.runs[r].session, r);
  }

  lemma AppendStatus(run: Run, kinds: seq<Kind>, to: Status)
    ensures Append(run, kinds, to).status == to
  {
  }

  lemma SuccessKindsClose(staged: nat, published: nat)
    ensures Extends(Running, SuccessKinds(staged, published), Succeeded)
    ensures forall i :: 0 <= i < |SuccessKinds(staged, published)| ==> !SuccessKinds(staged, published)[i].BudgetUpdated?
  {
    assert Closes(SuccessKinds(staged, published), Succeeded, staged + published + 1);
  }

  lemma ShelfOnSuccessSound(run: Run, result: TurnResult, fences: set<Artifacts.Fence>)
    requires RunSound(run) && ShelfOnSuccess(run, result, fences).Some?
    ensures Artifacts.Sound(ShelfOnSuccess(run, result, fences).value.shelf)
  {
    var requested := Artifacts.Requested(result.reports);
    assert forall c :: c in requested ==> c.stage.Staged?;
    ArtifactTheorems.StageAllKeeps(run.shelf, requested);
    var staged := run.shelf.(candidates := Artifacts.StageAll(run.shelf.candidates, requested).value);
    ArtifactTheorems.PublishKeeps(staged, fences);
  }

  lemma SuccessRunSound(run: Run, result: TurnResult, fences: set<Artifacts.Fence>)
    requires RunSound(run) && run.status.Running? && ShelfOnSuccess(run, result, fences).Some?
    ensures RunSound(SucceededRun(run, result, fences))
  {
    ShelfOnSuccessSound(run, result, fences);
    hide Artifacts.Sound, Artifacts.NoneStaged, Ledger.Sound, ShelfOnSuccess, SuccessKinds, LogSound, Extends,
         BudgetEvents, Numbered, Artifacts.Requested;
    var publication := ShelfOnSuccess(run, result, fences).value;
    var kinds := SuccessKinds(|Artifacts.Requested(result.reports)|, |publication.published|);
    SuccessKindsClose(|Artifacts.Requested(result.reports)|, |publication.published|);
    LogGrows(run.events, run.nextEvent, Running, kinds, Succeeded);
  }

  /** The rows of the session and of the run that the success transaction leaves. */
  lemma SuccessRows(db: Db, r: RunId, result: TurnResult)
    requires Inv(db) && SuccessCommits(db, r, result)
    ensures var run, run' := db.runs[r], Succeed(db, r, result).runs[r];
            Later(run, run') && run'.status.Succeeded? && run.claimSets == 0 && run'.claimSets == if result.cited then 1 else 0
  {
    assert RunSound(db.runs[r]);
    hide LogSound, RunPlaced, SessionSound, SightSound, ShelfOnSuccess, SuccessKinds, Artifacts.Requested, Numbered;
  }

  lemma SuccessAdvances(db: Db, r: RunId, result: TurnResult)
    requires Inv(db) && SuccessCommits(db, r, result)
    ensures RunsAdvance(db, Succeed(db, r, result))
  {
    hide RunSound, RunPlaced, SessionSound, SightSound, ShelfOnSuccess, SucceededRun;
    SuccessRows(db, r, result);
  }

  lemma SuccessPlaces(db: Db, r: RunId, result: TurnResult)
    requires Inv(db) && SuccessCommits(db, r, result)
    ensures forall x :: x in Succeed(db, r, result).runs ==> RunPlaced(Succeed(db, r, result), x)
  {
    hide RunSound, MessagePlaced, SightSound, ShelfOnSuccess, SucceededRun;
    SuccessRows(db, r, result);
    var db' := Succeed(db, r, result);
    assert RunPlaced(db, r) && SessionSound(db, db.runs[r].session);
    assert RunPlaced(db', r);
    forall x | x in db'.runs ensures RunPlaced(db', x) {
      assert RunPlaced(db, x);
      if x != r { PlacedStays(db, db', x); }
    }
  }

  lemma SuccessSessions(db: Db, r: RunId, result: TurnResult)
    requires Inv(db) && SuccessCommits(db, r, result)
    ensures forall id :: id in Succeed(db, r, result).sessions ==> SessionSound(Succeed(db, r, result), id)
  {
    hide RunSound, SightSound, ShelfOnSuccess, SucceededRun, MessagePlaced;
    SuccessRows(db, r, result);
    SuccessAdvances(db, r, result);
    var db' := Succeed(db, r, result);
    var home := db.runs[r].session;
    assert RunPlaced(db, r);
    forall id | id in db'.sessions ensures SessionSound(db', id) {
      assert SessionSound(db, id);
      if id != home {
        SessionStays(db, db', id);
      } else {
        forall i | 0 <= i < |db'.sessions[id].messages| ensures MessagePlaced(db', id, i) {
          if i < |db.sessions[id].messages| { MessageStays(db, db', id, i); } else { AnswerPlaced(db, r, result); }
        }
      }
    }
  }

  lemma AnswerPlaced(db: Db, r: RunId, result: TurnResult)
    requires Inv(db) && SuccessCommits(db, r, result)
    ensures var home := db.runs[r].session;
            MessagePlaced(Succeed(db, r, result), home, |db.sessions[home].messages|)
  {
    hide RunSound, SightSound, ShelfOnSuccess, SucceededRun;
    SuccessRows(db, r, result);
    assert RunPlaced(db, r) && SessionSound(db, db.runs[r].session);
  }

  lemma SucceedKeeps(db: Db, r: RunId, result: TurnResult)
    requires Inv(db)
    ensures Inv(Succeed(db, r, result))
  {
    hide RunSound, RunPlaced, SessionSound, SightSound, SucceededRun, ShelfOnSuccess;
    if Is(db, r, CancelRequested) {
      CommitCancellationKeeps(db, r);
    } else if SuccessCommits(db, r, result) {
      SuccessRunSound(db.runs[r], result, CurrentFences(db, r));
      SuccessPlaces(db, r, result);
      SuccessSessions(db, r, result);
      SuccessAdvances(db, r, result);
      SightsStay(db, Succeed(db, r, result));
    }
  }

  // ---- writers inside a turn ------------------------------------------------------------------------

  /** The run after a budget request that was not refused. */
  lemma UsedRunSound(run: Run, op: Ledger.Op)
    requires RunSound(run) && !Ledger.Apply(run.ledger, run.status, op).answer.Refused?
    ensures RunSound(UsedRun(run, op)) && Compatible(run, UsedRun(run, op))
  {
    hide Artifacts.Sound, Artifacts.NoneStaged, Ledger.Sound, Ledger.Apply, LogSound, BudgetEvents;
    var out := Ledger.Apply(run.ledger, run.status, op);
    LedgerTheorems.ApplyKeeps(run.ledger, run.status, op);
    LedgerTheorems.ReservationsCounted(run.ledger, run.status, op);
    if out.answer.Accepted? && Ledger.Reserves(op) {
      LogReserves(run.events, run.nextEvent, run.status, out.ledger.modelReserved, out.ledger.toolReserved);
    }
  }

  lemma UsageKeeps(db: Db, r: RunId, op: Ledger.Op)
    requires Inv(db)
    ensures Inv(Usage(db, r, op))
  {
    hide RunSound, RunPlaced, SessionSound, SightSound, UsedRun, Ledger.Apply;
    if r in db.runs && !Ledger.Apply(db.runs[r].ledger, db.runs[r].status, op).answer.Refused? {
      UsedRunSound(db.runs[r], op);
      UpdateRunKeeps(db, r, UsedRun(db.runs[r], op));
    }
  }

  lemma ShelfRunSound(run: Run, shelf: Artifacts.Shelf, kind: Kind)
    requires RunSound(run) && run.status.Running?
    requires Artifacts.Sound(shelf) && shelf.artifacts == [] && Artifacts.NoneStaged(shelf.candidates)
    requires kind.ArtifactValidated? || kind.ArtifactRejected?
    ensures RunSound(Append(run.(shelf := shelf), [kind], Running))
    ensures Compatible(run, Append(run.(shelf := shelf), [kind], Running))
  {
    hide Artifacts.Sound, Ledger.Sound, Artifacts.NoneStaged;
    OneKind(Running, kind, Running);
    AppendSound(run.(shelf := shelf), [kind], Running);
  }

  lemma SubmitKeeps(db: Db, r: RunId, toolCall: string, fact: Artifacts.Fact, fence: Artifacts.Fence)
    requires Inv(db)
    ensures Inv(Submit(db, r, toolCall, fact, fence))
  {
    hide Artifacts.Sound, Ledger.Sound, Artifacts.NoneStaged, Artifacts.Submit, RunPlaced, SessionSound, SightSound, Append;
    if Is(db, r, Running) {
      var run := db.runs[r];
      assert Artifacts.Sound(run.shelf) && Artifacts.NoneStaged(run.shelf.candidates) && run.shelf.artifacts == [] by {
        assert RunSound(run);
      }
      hide RunSound;
      var (shelf, reply) := Artifacts.Submit(run.shelf, toolCall, fact, fence);
      ArtifactTheorems.SubmitKeeps(run.shelf, toolCall, fact, fence);
      ArtifactTheorems.NothingLeftStaged(run.shelf, toolCall, fact, fence, "");
      ShelfRunSound(run, shelf, ArtifactValidated);
      UpdateRunKeeps(db, r, Append(run.(shelf := shelf), [ArtifactValidated], Running));
    }
  }

  lemma RejectKeeps(db: Db, r: RunId, toolCall: string, fact: Artifacts.Fact, code: string)
    requires Inv(db)
    ensures Inv(Reject(db, r, toolCall, fact, code))
  {
    hide Artifacts.Sound, Ledger.Sound, Artifacts.NoneStaged, Artifacts.Reject, RunPlaced, SessionSound, SightSound, Append;
    if Is(db, r, Running) {
      var run := db.runs[r];
      assert Artifacts.Sound(run.shelf) && Artifacts.NoneStaged(run.shelf.candidates) && run.shelf.artifacts == [] by {
        assert RunSound(run);
      }
      hide RunSound;
      var (shelf, reply) := Artifacts.Reject(run.shelf, toolCall, fact, code);
      ArtifactTheorems.RejectKeeps(run.shelf, toolCall, fact, code);
      ArtifactTheorems.NothingLeftStaged(run.shelf, toolCall, fact, Artifacts.Fence(0, 0), code);
      ShelfRunSound(run, shelf, ArtifactRejected);
      UpdateRunKeeps(db, r, Append(run.(shelf := shelf), [ArtifactRejected], Running));
    }
  }

  lemma EffectsSound(run: Run, effects: map<EffectId, Effect>)
    requires RunSound(run)
    ensures RunSound(run.(effects := effects)) && Compatible(run, run.(effects := effects))
  {
    hide LogSound, RowsSound, BudgetEvents;
  }

  lemma RunIsSound(db: Db, r: RunId)
    requires Inv(db) && r in db.runs
    ensures RunSound(db.runs[r])
  {
    hide RunSound, RunPlaced, SessionSound, SightSound;
  }

  /** An event that leaves the status as it is. */
  lemma NotedSound(run: Run, kind: Kind)
    requires RunSound(run) && !kind.BudgetUpdated?
    requires WrittenLate(kind) || (!ClosesStream(kind) && !Terminal(run.status))
    ensures RunSound(Noted(run, kind)) && Compatible(run, Noted(run, kind))
  {
    hide LogSound, Artifacts.Sound, Artifacts.NoneStaged, Ledger.Sound, BudgetEvents;
    assert Extends(run.status, [kind], run.status) by {
      if !Terminal(run.status) { OneKind(run.status, kind, run.status); }
    }
    hide Extends;
    AppendSound(run, [kind], run.status);
  }

  /** An event that may be written at any status. */
  lemma LateEventKeeps(db: Db, r: RunId, kind: Kind)
    requires Inv(db) && r in db.runs && WrittenLate(kind)
    ensures Inv(WithRun(db, r, Append(db.runs[r], [kind], db.runs[r].status)))
  {
    hide Inv, RunSound, Append;
    RunIsSound(db, r);
    NotedSound(db.runs[r], kind);
    UpdateRunKeeps(db, r, Noted(db.runs[r], kind));
  }

  /** Rows that the invariant does not look at. */
  lemma CoreKeeps(db: Db, db': Db)
    requires Inv(db)
    requires db'.sessions == db.sessions && db'.runs == db.runs && db'.sights == db.sights && db'.receipts == db.receipts
    ensures Inv(db')
  {
    hide RunSound, MessagePlaced;
    forall x | x in db'.runs ensures RunPlaced(db', x) {
      assert RunPlaced(db, x);
      PlacedStays(db, db', x);
    }
    hide RunPlaced;
    forall id | id in db'.sessions ensures SessionSound(db', id) {
      SessionStays(db, db', id);
    }
    SightsStay(db, db');
  }

  /** Every tool call was valid and permitted by the turn's policy. */
  predicate CallsPermitted(run: Run) {
    forall id :: id in run.effects ==>
      CallValid(id, run.effects[id].tool) && ToolPermitted(run.ledger.policy, id, run.effects[id].tool)
  }

  /** How the three tool requests change a run: its effects, and perhaps one event. */
  predicate ToolShape(run: Run, run': Run) {
    && (CallsPermitted(run) ==> CallsPermitted(run'))
    && (run'.effects.Keys == run.effects.Keys || run.status.Running?)
    && (|| run' == run.(effects := run'.effects)
        || run' == Noted(run.(effects := run'.effects), ToolFailed)
        || (run' == Noted(run.(effects := run'.effects), ToolProgress) && run.status.Running?))
  }

  lemma BegunShape(run: Run, id: EffectId, tool: string, arguments: string)
    ensures ToolShape(run, Begun(run, id, tool, arguments))
  {
    hide Numbered, Ledger.Blank, CallValid, ToolPermitted;
  }

  lemma FinishedShape(run: Run, id: EffectId, tool: string, arguments: string, attempt: nat, answer: string)
    ensures ToolShape(run, Finished(run, id, tool, arguments, attempt, answer))
  {
    hide Numbered, Ledger.Blank, CallValid, ToolPermitted;
  }

  lemma FailedShape(run: Run, id: EffectId, tool: string, arguments: string, attempt: nat, e: ToolError)
    ensures ToolShape(run, FailedCall(run, id, tool, arguments, attempt, e))
  {
    hide Numbered, Ledger.Blank, CallValid, ToolPermitted;
  }

  lemma ToolKeeps(db: Db, r: RunId, run': Run)
    requires Inv(db) && r in db.runs && ToolShape(db.runs[r], run')
    ensures Inv(WithRun(db, r, run'))
  {
    hide Inv, RunSound, Append, LogSound;
    var run := db.runs[r];
    var changed := run.(effects := run'.effects);
    RunIsSound(db, r);
    EffectsSound(run, run'.effects);
    if run' == Noted(changed, ToolFailed) {
      NotedSound(changed, ToolFailed);
    } else if run' == Noted(changed, ToolProgress) && run.status.Running? {
      NotedSound(changed, ToolProgress);
    }
    UpdateRunKeeps(db, r, run');
  }

  lemma SaveControlKeeps(db: Db, s: SessionId, c: Control)
    requires Inv(db)
    ensures Inv(SaveControl(db, s, c))
  {
    hide Inv, Append;
    var saved := db.(controls := db.controls[s := c]);
    CoreKeeps(db, saved);
    if c.anchor in db.runs { LateEventKeeps(saved, c.anchor, BrowserControl); }
  }

  lemma VacatedKeeps(db: Db, s: SessionId)
    requires Inv(db) && s in db.sessions && !Busy(db, s)
    ensures Inv(Vacated(db, s))
  {
    hide Inv;
    if db.sessions[s].active.Some? { ReleaseKeeps(db, s, db.sessions[s].active.value); }
  }

  lemma TakeKeeps(db: Db, actor: OwnerId, s: SessionId, refused: bool, signingKey: Key, now: int, ttl: int)
    requires Inv(db)
    ensures Inv(Take(db, actor, s, refused, signingKey, now, ttl))
  {
    hide Inv, Vacated, SaveControl, Busy, SameControl;
    if MayTake(db, actor, s, refused, now) {
      VacatedKeeps(db, s);
      var vacated := Vacated(db, s);
      if Driven(db, s) {
        VacatedFrame(db, s);
        SaveControlKeeps(vacated, s, vacated.controls[s].(status := Expired));
      }
      if !SameControl(db, s, signingKey, now) && ttl > 0 {
        var closed := if Driven(db, s) then CloseControl(vacated, s, Expired) else vacated;
        SaveControlKeeps(closed, s, NewControl(db, s, signingKey, now, ttl));
      }
    }
  }

  lemma VacatedFrame(db: Db, s: SessionId)
    requires s in db.sessions
    ensures var db' := Vacated(db, s);
            && db'.runs == db.runs && db'.controls == db.controls && db'.sandboxes == db.sandboxes
            && db'.executing == db.executing && db'.sessions.Keys == db.sessions.Keys
  {
  }

  // ---- every step, every run ------------------------------------------------------------------------

  lemma CreateSessionKeeps(db: Db, s: SessionId, actor: OwnerId)
    requires Inv(db)
    ensures Inv(Create(db, s, actor))
  {
    hide Inv, RunSound, SightSound, MessagePlaced, RunPlaced, SessionSound;
    if s !in db.sessions {
      CreatedPlaces(db, s, actor);
      CreatedSessions(db, s, actor);
      CreatedRest(db, s, actor);
    }
  }

  lemma CreatedPlaces(db: Db, s: SessionId, actor: OwnerId)
    requires Inv(db) && s !in db.sessions
    ensures forall x :: x in Create(db, s, actor).runs ==> RunPlaced(Create(db, s, actor), x)
  {
    hide RunSound, SightSound, SessionSound;
    var db' := Create(db, s, actor);
    forall x | x in db'.runs ensures RunPlaced(db', x) {
      assert RunPlaced(db, x);
      PlacedStays(db, db', x);
    }
  }

  lemma CreatedSessions(db: Db, s: SessionId, actor: OwnerId)
    requires Inv(db) && s !in db.sessions
    ensures forall id :: id in Create(db, s, actor).sessions ==> SessionSound(Create(db, s, actor), id)
  {
    hide RunSound, RunPlaced, SightSound, MessagePlaced;
    var db' := Create(db, s, actor);
    forall id | id in db'.sessions ensures SessionSound(db', id) {
      if id in db.sessions { SessionStays(db, db', id); }
    }
  }

  /** The sessions of the later database are sound and its runs placed. */
  lemma CreatedRest(db: Db, s: SessionId, actor: OwnerId)
    requires Inv(db) && s !in db.sessions
    requires forall x :: x in Create(db, s, actor).runs ==> RunPlaced(Create(db, s, actor), x)
    requires forall id :: id in Create(db, s, actor).sessions ==> SessionSound(Create(db, s, actor), id)
    ensures Inv(Create(db, s, actor))
  {
    hide RunSound, RunPlaced, SessionSound, SightSound;
    SightsStay(db, Create(db, s, actor));
  }

  lemma SightTaken(db: Db, w: WorkerId, r: RunId)
    requires Inv(db) && r in db.runs
    ensures SightSound(db, Sight(r, db.runs[r].status, db.runs[r].nextEvent))
  {
    assert RunSound(db.runs[r]);
  }

  lemma LookKeeps(db: Db, w: WorkerId, r: RunId)
    requires Inv(db)
    ensures Inv(LookAt(db, w, r))
  {
    hide RunSound, MessagePlaced;
    if r in db.runs {
      var sight := Sight(r, db.runs[r].status, db.runs[r].nextEvent);
      SightTaken(db, w, r);
      var db' := db.(sights := db.sights[w := sight]);
      forall x | x in db'.runs ensures RunPlaced(db', x) {
        assert RunPlaced(db, x);
        PlacedStays(db, db', x);
      }
      forall id | id in db'.sessions ensures SessionSound(db', id) {
        SessionStays(db, db', id);
      }
      forall v | v in db'.sights ensures SightSound(db', db'.sights[v]) {
        if v != w { assert SightSound(db, db.sights[v]); }
      }
    }
  }

  lemma LeaseFrame(db: Db, a: Action)
    requires AboutLease(a)
    ensures var db' := Beside(db, a);
            db'.sessions == db.sessions && db'.runs == db.runs && db'.sights == db.sights && db'.receipts == db.receipts
  {
    hide Acquire, MarkDirty, Retire;
    match a
    case LeaveRun(w, r) =>
    case AcquireSandbox(w, r, reuse, now, ttl) => AcquireFrame(db, w, r, reuse, now, ttl);
    case DirtySandbox(s, generation, token) => DampFrame(db, s, generation, token, 0);
    case RetireSandbox(s, now) => DampFrame(db, s, 0, 0, now);
  }

  lemma AcquireFrame(db: Db, w: WorkerId, r: RunId, reuse: bool, now: int, ttl: int)
    ensures Acquire(db, w, r, reuse, now, ttl) == db.(sandboxes := Acquire(db, w, r, reuse, now, ttl).sandboxes)
  {
  }

  lemma DampFrame(db: Db, s: SessionId, generation: nat, token: nat, now: int)
    ensures MarkDirty(db, s, generation, token) == db.(sandboxes := MarkDirty(db, s, generation, token).sandboxes)
    ensures Retire(db, s, now) == db.(sandboxes := Retire(db, s, now).sandboxes)
  {
  }

  lemma LeaseKeeps(db: Db, a: Action)
    requires Inv(db) && AboutLease(a)
    ensures Inv(Beside(db, a))
  {
    hide Inv, Beside;
    LeaseFrame(db, a);
    CoreKeeps(db, Beside(db, a));
  }

  lemma BesideKeeps(db: Db, a: Action)
    requires Inv(db)
    ensures Inv(Beside(db, a))
  {
    hide Inv, WithRun, Begun, Finished, FailedCall, Take, SaveControl, Fits;
    match a
    case BeginEffect(r, id, tool, arguments) =>
      if r in db.runs { ToolKeeps(db, r, Begun(db.runs[r], id, tool, arguments)) by { BegunShape(db.runs[r], id, tool, arguments); } }
    case FinishEffect(r, id, tool, arguments, attempt, answer) =>
      if r in db.runs {
        ToolKeeps(db, r, Finished(db.runs[r], id, tool, arguments, attempt, answer)) by {
          FinishedShape(db.runs[r], id, tool, arguments, attempt, answer);
        }
      }
    case FailEffect(r, id, tool, arguments, attempt, error) =>
      if r in db.runs {
        ToolKeeps(db, r, FailedCall(db.runs[r], id, tool, arguments, attempt, error)) by {
          FailedShape(db.runs[r], id, tool, arguments, attempt, error);
        }
      }
    case TakeBrowser(actor, s, refused, signingKey, now, ttl) => TakeKeeps(db, actor, s, refused, signingKey, now, ttl);
    case PeekBrowser(actor, s, now) => if Driven(db, s) { SaveControlKeeps(db, s, db.controls[s].(status := Expired)); }
    case EndBrowser(actor, s, now) =>
      if Driven(db, s) {
        SaveControlKeeps(db, s, db.controls[s].(status := Ended));
        SaveControlKeeps(db, s, db.controls[s].(status := Expired));
      }
    case LeaveRun(_, _) => LeaseKeeps(db, a);
    case AcquireSandbox(_, _, _, _, _) => LeaseKeeps(db, a);
    case DirtySandbox(_, _, _) => LeaseKeeps(db, a);
    case RetireSandbox(_, _) => LeaseKeeps(db, a);
    case _ =>
  }

  lemma FailKeeps(db: Db, r: RunId, retry: bool)
    requires Inv(db)
    ensures Inv(FailAttempt(db, r, retry))
  {
    hide Inv, Append, WithRun;
    if Is(db, r, Running) {
      if retry { StepKeeps(db, r, RetryScheduled, RetryWait); } else { StepKeeps(db, r, RunFailed, Failed); }
    }
  }

  lemma ReclaimKeeps(db: Db, r: RunId)
    requires Inv(db)
    ensures Inv(Reclaim(db, r))
  {
    hide Inv, Append, WithRun;
    if Is(db, r, CancelRequested) { StepKeeps(db, r, RunCancelled, Cancelled); }
  }

  lemma ConfirmKeeps(db: Db, r: RunId)
    requires Inv(db)
    ensures Inv(ConfirmCancel(db, r))
  {
    hide Inv, CommitCancellation;
    if Is(db, r, CancelRequested) {
      CommitCancellationKeeps(db, r);
    } else if Is(db, r, Cancelled) {
      ReleaseKeeps(db, db.runs[r].session, r);
    }
  }

  lemma CallbackKeeps(db: Db, r: RunId, status: Status)
    requires Inv(db)
    ensures Inv(ReleaseIfTerminal(db, r, status))
  {
    hide Inv;
    if Terminal(status) && Is(db, r, status) { ReleaseKeeps(db, db.runs[r].session, r); }
  }

  lemma NextKeeps(db: Db, a: Action)
    requires Inv(db)
    ensures Inv(Next(db, a))
  {
    hide Inv, Create, LookAt, Post, Succeed, Cancel, Usage, Submit, Reject, ClaimFrom, Claim, FailAttempt, Reclaim,
         ConfirmCancel, ReleaseIfTerminal, Beside;
    match a
    case CreateSession(s, actor) => CreateSessionKeeps(db, s, actor);
    case PostMessage(q) => PostKeeps(db, q);
    case Look(w, r) => LookKeeps(db, w, r);
    case ClaimRun(w) => EnterKeeps(db, w);
    case RequeueRun(w) => ClaimKeeps(db, w, RetryWait, Queued, Requeued);
    case CancelRun(actor, r) => CancelKeeps(db, actor, r);
    case AttemptFails(r, retry) => FailKeeps(db, r, retry);
    case ReclaimRun(r) => ReclaimKeeps(db, r);
    case ConfirmCancellation(r) => ConfirmKeeps(db, r);
    case CommitResult(r, result) => SucceedKeeps(db, r, result);
    case TerminalCallback(r, status) => CallbackKeeps(db, r, status);
    case UseBudget(r, op) => UsageKeeps(db, r, op);
    case SubmitArtifact(r, toolCall, fact, fence) => SubmitKeeps(db, r, toolCall, fact, fence);
    case RejectArtifact(r, toolCall, fact, code) => RejectKeeps(db, r, toolCall, fact, code);
    case _ => BesideKeeps(db, a);
  }

  /** The invariant holds in every database any interleaving of the transactions reaches. */
  lemma {:induction false} EveryRunKeeps(actions: seq<Action>)
    ensures Inv(Play(EMPTY_DB, actions))
  {
    if actions != [] {
      EveryRunKeeps(actions[..|actions| - 1]);
      NextKeeps(Play(EMPTY_DB, actions[..|actions| - 1]), actions[|actions| - 1]);
    }
  }
}
