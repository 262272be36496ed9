/** What can still happen to the log of a turn that has ended, and when nothing can. */
module TurnEnd {
  import opened Wrappers
  import opened Runs
  import opened TurnProtocol
  import opened TurnInvariant
  import opened TurnTheorems
  import Ledger
  import LedgerTheorems
  import Artifacts

  // ---- what controls, leases and tool calls are tied to ---------------------------------------------------

  predicate WasClaimed(run: Run) {
    Logged(run.events, RunStarted)
  }

  /** Tool calls are permitted, and only a claimed run is RUNNING or has any. */
  predicate RunTracked(run: Run) {
    && CallsPermitted(run)
    && (run.status.Running? || run.effects != map[] ==> WasClaimed(run))
  }

  /** The run of the session that may have used its sandbox. */
  predicate MayHold(db: Db, s: SessionId, r: RunId) {
    r in db.runs && db.runs[r].session == s && WasClaimed(db.runs[r]) && db.runs[r].ledger.policy.sandboxAllowed
  }

  predicate SandboxPlaced(db: Db, s: SessionId)
    requires s in db.sandboxes
  {
    s in db.sessions && MayHold(db, s, db.sandboxes[s].holder)
  }

  /** The fencing token of a control says which run it is anchored to, and nobody drives a browser by hand while
      a turn of the session has not ended. */
  predicate ControlPlaced(db: Db, s: SessionId)
    requires s in db.controls
  {
    var c := db.controls[s];
    && s in db.sandboxes && s in db.sessions
    && MayHold(db, s, c.anchor)
    && c.fence <= db.sandboxes[s].fence
    && (c.fence == db.sandboxes[s].fence ==> c.anchor == db.sandboxes[s].holder)
    && (c.status.Manual? ==> !Busy(db, s))
  }

  ghost predicate Anchored(db: Db) {
    && (forall r :: r in db.runs ==> RunTracked(db.runs[r]))
    && (forall x :: x in db.executing ==> x.1 in db.runs && WasClaimed(db.runs[x.1]))
    && (forall s :: s in db.sandboxes ==> SandboxPlaced(db, s))
    && (forall s :: s in db.controls ==> ControlPlaced(db, s))
  }

  lemma TrackedSteps(run: Run, run': Run)
    requires RunTracked(run) && Steps(run, run')
    ensures RunTracked(run') && (WasClaimed(run) ==> WasClaimed(run'))
  {
    hide CallsPermitted;
    if WasClaimed(run) {
      var i :| 0 <= i < |run.events| && run.events[i].kind == RunStarted;
      assert run'.events[i].kind == RunStarted;
    }
    assert run.effects != map[] || run.effects.Keys == {};
    assert run'.effects != map[] ==> run'.effects.Keys != {};
  }

  /** Every run of the later database that the earlier one knew. */
  ghost predicate RunsTracked(db: Db, db': Db) {
    forall r :: r in db.runs ==>
      && r in db'.runs && RunTracked(db'.runs[r])
      && db'.runs[r].session == db.runs[r].session && db'.runs[r].ledger.policy == db.runs[r].ledger.policy
      && (WasClaimed(db.runs[r]) ==> WasClaimed(db'.runs[r]))
      && (Terminal(db.runs[r].status) ==> Terminal(db'.runs[r].status))
  }

  lemma NextTracks(db: Db, a: Action)
    requires Anchored(db)
    ensures RunsTracked(db, Next(db, a))
  {
    NextSteps(db, a);
    hide Next, SandboxPlaced, ControlPlaced, Steps;
    forall r | r in db.runs
      ensures var db' := Next(db, a);
              r in db'.runs && RunTracked(db'.runs[r])
              && db'.runs[r].session == db.runs[r].session && db'.runs[r].ledger.policy == db.runs[r].ledger.policy
              && (WasClaimed(db.runs[r]) ==> WasClaimed(db'.runs[r]))
              && (Terminal(db.runs[r].status) ==> Terminal(db'.runs[r].status))
    {
      assert Steps(db.runs[r], Next(db, a).runs[r]);
      TrackedSteps(db.runs[r], Next(db, a).runs[r]);
      StepsFrame(db.runs[r], Next(db, a).runs[r]);
    }
  }

  lemma StepsFrame(run: Run, run': Run)
    requires Steps(run, run')
    ensures run'.session == run.session && run'.ledger.policy == run.ledger.policy
    ensures Terminal(run.status) ==> Terminal(run'.status)
  {
    hide CallsPermitted;
  }

  // ---- the rows beside the turns --------------------------------------------------------------------------

  predicate SameTables(db: Db, db': Db) {
    db'.executing == db.executing && db'.sandboxes == db.sandboxes && db'.controls == db.controls
  }

  lemma ChangesSameTables(db: Db)
    ensures forall r, run' :: SameTables(db, WithRun(db, r, run'))
    ensures forall s, r :: SameTables(db, Release(db, s, r))
    ensures forall w, expected, to, kind :: SameTables(db, ClaimFrom(db, w, expected, to, kind))
  {
    hide ClaimCommits;
  }

  lemma CommitSameTables(db: Db, r: RunId, result: TurnResult)
    ensures SameTables(db, Succeed(db, r, result)) && SameTables(db, ConfirmCancel(db, r))
  {
    hide WithRun, Release, SucceededRun, SuccessCommits, Append;
    ChangesSameTables(db);
    if Is(db, r, CancelRequested) {
      ChangesSameTables(WithRun(db, r, Append(db.runs[r], [RunCancelled, TurnCancelled], Cancelled)));
    }
  }

  lemma PostSameTables(db: Db, q: PostRequest)
    ensures SameTables(db, Post(db, q))
  {
    hide NewRun, PostReplyFor;
    assert PostReplyFor(db, q).Posted? ==> q.session in db.sessions by { PostIsNew(db, q); }
  }

  lemma CreateSameTables(db: Db, s: SessionId, actor: OwnerId, w: WorkerId, r: RunId)
    ensures SameTables(db, Create(db, s, actor)) && SameTables(db, LookAt(db, w, r))
  {
  }

  lemma TurnStepsSameTables(db: Db, a: Action)
    requires !a.ClaimRun? && !AboutTools(a) && !AboutLease(a) && !AboutBrowser(a)
    ensures SameTables(db, Next(db, a))
  {
    hide Append, Create, LookAt, Post, Succeed, ConfirmCancel, ClaimFrom, UsedRun, WithRun, Release, Ledger.Apply,
         Artifacts.Submit, Artifacts.Reject, Beside, SameTables;
    ChangesSameTables(db);
    assert SameTables(db, db) by { Itself(db); }
    match a
    case CreateSession(s, actor) => CreateSameTables(db, s, actor, "", "");
    case Look(w, r) => CreateSameTables(db, "", "", w, r);
    case PostMessage(q) => PostSameTables(db, q);
    case CommitResult(r, result) => CommitSameTables(db, r, result);
    case ConfirmCancellation(r) => CommitSameTables(db, r, TurnResult([], false, false));
    case _ =>
  }

  lemma Itself(db: Db)
    ensures SameTables(db, db)
  {
  }

  lemma ToolsSameTables(db: Db, a: Action)
    requires AboutTools(a)
    ensures SameTables(db, Beside(db, a)) && Beside(db, a).sessions == db.sessions
  {
    hide Begun, Finished, FailedCall;
  }

  // ---- keeping them tied ----------------------------------------------------------------------------------

  predicate StaysFree(db: Db, db': Db, s: SessionId)
    requires s in db.sessions
  {
    s in db'.sessions && (!Busy(db, s) ==> !Busy(db', s))
  }

  lemma FreeStays(db: Db, db': Db, s: SessionId)
    requires Inv(db) && RunsTracked(db, db') && HoldersStay(db, db') && s in db.sessions
    ensures StaysFree(db, db', s)
  {
    hide RunSound, RunPlaced, SightSound, MessagePlaced, RunTracked, WasClaimed;
    assert SessionSound(db, s);
  }

  lemma HoldStays(db: Db, db': Db, s: SessionId, r: RunId)
    requires MayHold(db, s, r) && RunsTracked(db, db')
    ensures MayHold(db', s, r)
  {
    hide RunTracked, WasClaimed;
  }

  /** The tables stay and no session is taken. */
  lemma SameTablesKeep(db: Db, db': Db)
    requires Anchored(db) && RunsTracked(db, db') && SameTables(db, db')
    requires forall r :: r in db'.runs && r !in db.runs ==> RunTracked(db'.runs[r])
    requires forall s :: s in db.sessions ==> s in db'.sessions
    requires forall s :: s in db.controls && s in db.sessions && db.controls[s].status.Manual? ==> StaysFree(db, db', s)
    ensures Anchored(db')
  {
    hide RunTracked, WasClaimed, MayHold, Busy;
    assert forall x :: x in db.executing ==> x.1 in db.runs && WasClaimed(db.runs[x.1]);
    assert forall s :: s in db.sandboxes ==> SandboxPlaced(db, s);
    assert forall s :: s in db.controls ==> ControlPlaced(db, s);
    forall r | r in db'.runs ensures RunTracked(db'.runs[r]) {
      assert r in db.runs ==> RunTracked(db'.runs[r]);
    }
    forall s | s in db'.sandboxes ensures SandboxPlaced(db', s) {
      HoldStays(db, db', s, db.sandboxes[s].holder);
    }
    forall s | s in db'.controls ensures ControlPlaced(db', s) {
      HoldStays(db, db', s, db.controls[s].anchor);
    }
  }

  lemma NewRunTracked(q: PostRequest, n: nat)
    ensures RunTracked(NewRun(q, n))
  {
  }

  lemma PostAnchors(db: Db, q: PostRequest)
    requires Inv(db) && Anchored(db)
    ensures Anchored(Next(db, PostMessage(q)))
  {
    var db' := Next(db, PostMessage(q));
    NextTracks(db, PostMessage(q));
    assert SameTables(db, db') by { PostSameTables(db, q); }
    PostRows(db, q);
    hide Next, Inv, RunTracked, SandboxPlaced, MayHold, RunsTracked;
    forall r | r in db'.runs && r !in db.runs ensures RunTracked(db'.runs[r]) {
      NewRunTracked(q, db.sessions[q.session].nextMessage);
    }
    forall s | s in db.controls && s in db.sessions && db.controls[s].status.Manual? ensures StaysFree(db, db', s) {
      FreeElsewhere(db, db', s);
    }
    SameTablesKeep(db, db');
  }

  /** What posting changes of runs and sessions. */
  lemma PostRows(db: Db, q: PostRequest)
    ensures var db' := Next(db, PostMessage(q));
            && (forall s :: s in db.sessions ==> s in db'.sessions)
            && (forall s :: s in db.sessions && (s != q.session || Driven(db, s)) ==> db'.sessions[s] == db.sessions[s])
            && (forall r :: r in db'.runs && r !in db.runs ==>
                  q.session in db.sessions && db'.runs[r] == NewRun(q, db.sessions[q.session].nextMessage))
  {
    hide NewRun, Busy;
  }

  lemma FreeElsewhere(db: Db, db': Db, s: SessionId)
    requires Inv(db) && RunsTracked(db, db') && s in db.sessions && s in db'.sessions
    requires db'.sessions[s] == db.sessions[s]
    ensures StaysFree(db, db', s)
  {
    hide RunSound, RunPlaced, SightSound, MessagePlaced, RunTracked, WasClaimed;
    assert SessionSound(db, s);
  }

  /** Steps that take no session and leave the tables as they are. */
  lemma PlainAnchors(db: Db, a: Action)
    requires Inv(db) && Anchored(db) && !a.PostMessage? && SameTables(db, Next(db, a))
    ensures Anchored(Next(db, a))
  {
    hide Inv, Anchored, Next, RunsTracked, SessionsGrow, HoldersStay, SameTables;
    NextTracks(db, a);
    NextFramed(db, a);
    FreeKeepsTables(db, Next(db, a));
  }

  lemma ClaimAnchors(db: Db, w: WorkerId)
    requires Inv(db) && Anchored(db)
    ensures Anchored(Next(db, ClaimRun(w)))
  {
    hide Inv, Anchored, Next, RunsTracked, SessionsGrow, HoldersStay, Is;
    var db' := Next(db, ClaimRun(w));
    NextTracks(db, ClaimRun(w));
    NextFramed(db, ClaimRun(w));
    ClaimRows(db, w);
    var before := db'.(executing := db.executing);
    RunsTrackedFrame(db, db', before);
    assert HoldersStay(db, before) by { HoldersFrame(db, db', before); }
    FreeKeepsTables(db, before);
    EnteredAnchors(before, db', w);
  }

  lemma HoldersFrame(db: Db, db': Db, other: Db)
    requires HoldersStay(db, db') && other.sessions == db'.sessions
    ensures HoldersStay(db, other)
  {
  }

  lemma FreeKeepsTables(db: Db, db': Db)
    requires Inv(db) && Anchored(db) && RunsTracked(db, db') && HoldersStay(db, db')
    requires SameTables(db, db') && db'.runs.Keys == db.runs.Keys
    ensures Anchored(db')
  {
    hide Inv, Anchored, RunsTracked, Busy, RunTracked;
    forall s | s in db.controls && s in db.sessions && db.controls[s].status.Manual? ensures StaysFree(db, db', s) {
      FreeStays(db, db', s);
    }
    SameTablesKeep(db, db');
  }

  lemma RunsTrackedFrame(db: Db, db': Db, other: Db)
    requires RunsTracked(db, db') && other.runs == db'.runs
    ensures RunsTracked(db, other)
  {
    hide RunTracked, WasClaimed;
  }

  lemma ClaimRows(db: Db, w: WorkerId)
    ensures var db' := Next(db, ClaimRun(w));
            && db'.sandboxes == db.sandboxes && db'.controls == db.controls
            && (db'.executing == db.executing
                || exists r :: db'.executing == db.executing + {(w, r)} && Is(db', r, Running))
  {
    if w in db.sights && ClaimCommits(db, db.sights[w], Queued) {
      var r := db.sights[w].run;
      CommitIs(db, db.sights[w], Queued);
      hide ClaimCommits;
      assert Is(Next(db, ClaimRun(w)), r, Running);
    }
  }

  lemma EnteredAnchors(before: Db, after: Db, w: WorkerId)
    requires Anchored(before) && before == after.(executing := before.executing)
    requires after.executing == before.executing || exists r :: after.executing == before.executing + {(w, r)} && Is(after, r, Running)
    ensures Anchored(after)
  {
    forall x | x in after.executing ensures x.1 in after.runs && WasClaimed(after.runs[x.1]) {
      if x !in before.executing {
        assert RunTracked(before.runs[x.1]);
      }
    }
    hide RunTracked, WasClaimed, MayHold;
    assert forall s :: s in after.sandboxes ==> SandboxPlaced(before, s);
    assert forall s :: s in after.controls ==> ControlPlaced(before, s);
  }

  lemma LeaseAnchors(db: Db, a: Action)
    requires Inv(db) && Anchored(db) && AboutLease(a)
    ensures Anchored(Beside(db, a))
  {
    LeaseFrame(db, a);
    hide Inv, Beside, Anchored, RunTracked;
    match a
    case LeaveRun(w, r) => LeaveAnchors(db, w, r);
    case AcquireSandbox(w, r, reuse, now, ttl) => AcquireAnchors(db, w, r, reuse, now, ttl);
    case DirtySandbox(s, generation, token) =>
      DampIs(db, s, generation, token, 0);
      DampAnchors(db, MarkDirty(db, s, generation, token), s);
    case RetireSandbox(s, now) =>
      DampIs(db, s, 0, 0, now);
      DampAnchors(db, Retire(db, s, now), s);
  }

  lemma DampIs(db: Db, s: SessionId, generation: nat, token: nat, now: int)
    ensures Beside(db, DirtySandbox(s, generation, token)) == MarkDirty(db, s, generation, token)
    ensures Beside(db, RetireSandbox(s, now)) == Retire(db, s, now)
    ensures var db' := MarkDirty(db, s, generation, token);
            db' == db || (Changed(db, db', s) && s in db'.sandboxes && !db'.sandboxes[s].status.Active?)
    ensures var db' := Retire(db, s, now); db' == db || (Changed(db, db', s) && s in db'.sandboxes && !db'.sandboxes[s].status.Active?)
  {
    MarkDirtyChanges(db, s, generation, token);
    RetireChanges(db, s, now);
    hide MarkDirty, Retire, Changed;
  }

  lemma MarkDirtyChanges(db: Db, s: SessionId, generation: nat, token: nat)
    ensures var db' := MarkDirty(db, s, generation, token);
            db' == db || (Changed(db, db', s) && s in db'.sandboxes && !db'.sandboxes[s].status.Active?)
  {
  }

  lemma RetireChanges(db: Db, s: SessionId, now: int)
    ensures var db' := Retire(db, s, now); db' == db || (Changed(db, db', s) && s in db'.sandboxes && !db'.sandboxes[s].status.Active?)
  {
  }

  /** Only the status of the session's sandbox differs. */
  predicate Changed(db: Db, db': Db, s: SessionId) {
    && s in db.sandboxes
    && exists status :: db' == WithSandbox(db, s, db.sandboxes[s].(status := status))
  }

  lemma DampAnchors(db: Db, db': Db, s: SessionId)
    requires Anchored(db) && (db' == db || Changed(db, db', s))
    ensures Anchored(db')
  {
    hide RunTracked, WasClaimed;
    if db' != db {
      assert forall x :: x in db.sandboxes ==> SandboxPlaced(db, x);
      forall x | x in db'.sandboxes ensures SandboxPlaced(db', x) {
        assert SandboxPlaced(db, x);
      }
      forall x | x in db'.controls ensures ControlPlaced(db', x) {
        assert ControlPlaced(db, x);
      }
    }
  }

  lemma LeaveAnchors(db: Db, w: WorkerId, r: RunId)
    requires Anchored(db)
    ensures Anchored(Beside(db, LeaveRun(w, r)))
  {
    var db' := Beside(db, LeaveRun(w, r));
    assert db' == db.(executing := db.executing - {(w, r)});
    hide Beside, RunTracked, WasClaimed;
    forall x | x in db'.sandboxes ensures SandboxPlaced(db', x) {
      assert SandboxPlaced(db, x);
    }
    forall x | x in db'.controls ensures ControlPlaced(db', x) {
      assert ControlPlaced(db, x);
    }
  }

  lemma AcquireAnchors(db: Db, w: WorkerId, r: RunId, reuse: bool, now: int, ttl: int)
    requires Inv(db) && Anchored(db)
    ensures Anchored(Beside(db, AcquireSandbox(w, r, reuse, now, ttl)))
  {
    var db' := Acquire(db, w, r, reuse, now, ttl);
    AcquireRows(db, w, r, reuse, now, ttl);
    hide Beside, Acquire, RunTracked, WasClaimed, Inv;
    if db' != db {
      var s := db.runs[r].session;
      assert s in db.sessions by { HomeExists(db, r); }
      forall x | x in db'.sandboxes ensures SandboxPlaced(db', x) {
        if x != s { assert SandboxPlaced(db, x); }
      }
      forall x | x in db'.controls ensures ControlPlaced(db', x) {
        assert ControlPlaced(db, x);
      }
    }
  }

  lemma HomeExists(db: Db, r: RunId)
    requires Inv(db) && r in db.runs
    ensures db.runs[r].session in db.sessions
  {
    hide RunSound, SessionSound, SightSound;
    assert RunPlaced(db, r);
  }

  /** The run now holds its session's sandbox. */
  predicate Acquired(db: Db, db': Db, w: WorkerId, r: RunId) {
    && r in db.runs && (w, r) in db.executing && db.runs[r].ledger.policy.sandboxAllowed
    && var s := db.runs[r].session;
       && s in db'.sandboxes
       && var box := db'.sandboxes[s];
          && db' == WithSandbox(db, s, box)
          && box.holder == r && box.status.Active?
          && (s in db.sandboxes ==>
                && db.sandboxes[s].fence <= box.fence
                && (db.sandboxes[s].fence == box.fence ==> box.holder == db.sandboxes[s].holder))
  }

  lemma AcquireRows(db: Db, w: WorkerId, r: RunId, reuse: bool, now: int, ttl: int)
    ensures Beside(db, AcquireSandbox(w, r, reuse, now, ttl)) == Acquire(db, w, r, reuse, now, ttl)
    ensures var db' := Acquire(db, w, r, reuse, now, ttl); db' == db || Acquired(db, db', w, r)
  {
  }

  /** What a browser request does to the tables: the session's control is closed or replaced. */
  lemma BrowserRows(db: Db, a: Action)
    requires AboutBrowser(a)
    ensures var db' := Beside(db, a); var s := a.session;
            && db'.executing == db.executing && db'.sandboxes == db.sandboxes
            && (db'.controls == db.controls
                || (Driven(db, s) && exists status: ControlStatus ::
                      !status.Manual? && db'.controls == db.controls[s := db.controls[s].(status := status)])
                || (a.TakeBrowser? && MayTake(db, a.actor, s, a.refused, a.now) && s in db.sandboxes
                    && db'.controls == db.controls[s := NewControl(db, s, a.signingKey, a.now, a.ttl)]))
  {
    hide SaveControl, NewControl, Busy, Fits, Live, Vacated;
    match a
    case TakeBrowser(actor, s, refused, signingKey, now, ttl) =>
      if MayTake(db, actor, s, refused, now) {
        VacatedFrame(db, s);
        var vacated := Vacated(db, s);
        if Driven(db, s) { SaveControlFramed(vacated, s, vacated.controls[s].(status := Expired)); }
        var closed := if Driven(db, s) then CloseControl(vacated, s, Expired) else vacated;
        SaveControlFramed(closed, s, NewControl(db, s, signingKey, now, ttl));
      }
    case PeekBrowser(actor, s, now) => if Driven(db, s) { SaveControlFramed(db, s, db.controls[s].(status := Expired)); }
    case EndBrowser(actor, s, now) =>
      if Driven(db, s) {
        SaveControlFramed(db, s, db.controls[s].(status := Ended));
        SaveControlFramed(db, s, db.controls[s].(status := Expired));
      }
  }

  lemma BrowserAnchors(db: Db, a: Action)
    requires Inv(db) && Anchored(db) && AboutBrowser(a)
    ensures Anchored(Next(db, a))
  {
    hide Inv, Anchored, Next, Beside, RunsTracked, SessionsGrow, HoldersStay, StaysFree, MayTake, NewControl;
    NextTracks(db, a);
    NextFramed(db, a);
    NextIsBeside(db, a);
    BrowserRows(db, a);
    var db' := Next(db, a);
    var middle := db'.(controls := db.controls);
    RunsTrackedFrame(db, db', middle);
    assert HoldersStay(db, middle) by { HoldersFrame(db, db', middle); }
    FreeKeepsTables(db, middle);
    forall s | s in db.sessions ensures StaysFree(db, db', s) {
      FreeStays(db, db', s);
    }
    if db'.controls != db.controls {
      ControlAnchors(db, a, middle, db');
    }
  }

  lemma ControlAnchors(db: Db, a: Action, middle: Db, db': Db)
    requires Anchored(db) && Anchored(middle) && AboutBrowser(a)
    requires middle.controls == db.controls && middle.sandboxes == db.sandboxes && db' == middle.(controls := db'.controls)
    requires forall s :: s in db.sessions ==> StaysFree(db, db', s)
    requires var s := a.session;
             || (Driven(db, s) && exists status: ControlStatus ::
                   !status.Manual? && db'.controls == db.controls[s := db.controls[s].(status := status)])
             || (a.TakeBrowser? && MayTake(db, a.actor, s, a.refused, a.now) && s in db.sandboxes
                 && db'.controls == db.controls[s := NewControl(db, s, a.signingKey, a.now, a.ttl)])
    ensures Anchored(db')
  {
    hide RunTracked, WasClaimed, Busy, Fits;
    var s := a.session;
    assert s in db.controls ==> ControlPlaced(middle, s);
    assert s in db.sandboxes ==> SandboxPlaced(middle, s);
    var c := db'.controls[s];
    ControlReplaced(middle, s, c) by {
      if a.TakeBrowser? && MayTake(db, a.actor, s, a.refused, a.now) { assert StaysFree(db, db', s); }
    }
    assert db' == middle.(controls := middle.controls[s := c]);
  }

  lemma ControlReplaced(db: Db, s: SessionId, c: Control)
    requires Anchored(db)
    requires ControlPlaced(db.(controls := db.controls[s := c]), s)
    ensures Anchored(db.(controls := db.controls[s := c]))
  {
    hide RunTracked, WasClaimed;
    var db' := db.(controls := db.controls[s := c]);
    forall x | x in db'.sandboxes ensures SandboxPlaced(db', x) {
      assert SandboxPlaced(db, x);
    }
    forall x | x in db'.controls ensures ControlPlaced(db', x) {
      if x != s { assert ControlPlaced(db, x); }
    }
  }

  lemma NextAnchors(db: Db, a: Action)
    requires Inv(db) && Anchored(db)
    ensures Anchored(Next(db, a))
  {
    hide Inv, Anchored, Next, SameTables, Beside;
    if a.PostMessage? {
      PostAnchors(db, a.request);
    } else if a.ClaimRun? {
      ClaimAnchors(db, a.worker);
    } else if AboutBrowser(a) {
      BrowserAnchors(db, a);
    } else if AboutLease(a) {
      NextIsBeside(db, a);
      LeaseAnchors(db, a);
    } else if AboutTools(a) {
      NextIsBeside(db, a);
      ToolsSameTables(db, a);
      PlainAnchors(db, a);
    } else {
      TurnStepsSameTables(db, a);
      PlainAnchors(db, a);
    }
  }

  /** In every reachable state controls, leases and tool calls are tied to runs that were claimed. */
  lemma {:induction false} AlwaysAnchored(actions: seq<Action>)
    ensures Anchored(Play(EMPTY_DB, actions))
  {
    hide Inv, Next;
    if actions != [] {
      var middle := Play(EMPTY_DB, actions[..|actions| - 1]);
      TurnInvariant.EveryRunKeeps(actions[..|actions| - 1]);
      AlwaysAnchored(actions[..|actions| - 1]);
      hide Anchored;
      NextAnchors(middle, actions[|actions| - 1]);
    }
  }

  lemma ReachableAnchored(db: Db)
    requires Reachable(db)
    ensures Anchored(db)
  {
    hide Anchored;
    var actions :| db == Play(EMPTY_DB, actions);
    AlwaysAnchored(actions);
  }

  // ---- driving by hand and working exclude each other -----------------------------------------------------

  /** While somebody drives a session's browser by hand, every turn of the session has ended. */
  lemma ManualControlExcludesTurns(db: Db, s: SessionId, r: RunId)
    requires Reachable(db) && Driven(db, s) && r in db.runs && db.runs[r].session == s
    ensures Terminal(db.runs[r].status)
  {
    hide Reachable;
    ReachableAnchored(db);
    assert ControlPlaced(db, s);
    if !Terminal(db.runs[r].status) { LiveTurnHoldsSession(db, r, r); }
  }

  // ---- who still writes -----------------------------------------------------------------------------------

  predicate Breaks(run: Run, run': Run, id: EffectId) {
    id.Invocation? && id in run.effects && run.effects[id].status.InFlight? && id in run'.effects && run'.effects[id].status.Broken?
  }

  /** The failure of an external tool call that was in flight is reported. */
  ghost predicate ExternalCallBroke(run: Run, run': Run) {
    exists id :: Breaks(run, run', id)
  }

  predicate SameControlRow(db: Db, db': Db, s: SessionId) {
    (s in db.controls <==> s in db'.controls) && (s in db.controls && s in db'.controls ==> db'.controls[s] == db.controls[s])
  }

  predicate MovedIn(db: Db, db': Db, s: SessionId, r: RunId) {
    && !SameControlRow(db, db', s)
    && ((Driven(db, s) && db.controls[s].anchor == r) || (Driven(db', s) && db'.controls[s].anchor == r))
  }

  /** A browser control anchored to the run begins or ends. */
  ghost predicate ControlMoved(db: Db, db': Db, r: RunId) {
    exists s :: MovedIn(db, db', s, r)
  }

  /** Once a turn has ended, a transaction appends to its log if and only if it reports the failure of an external
      tool call still in flight, or begins or ends a browser control anchored to the turn. */
  lemma OnlyLateWritersAppend(db: Db, a: Action, r: RunId)
    requires r in db.runs && Terminal(db.runs[r].status)
    ensures r in Next(db, a).runs
    ensures Next(db, a).runs[r].events != db.runs[r].events
            <==> ExternalCallBroke(db.runs[r], Next(db, a).runs[r]) || ControlMoved(db, Next(db, a), r)
  {
    hide Next, Beside, Breaks, MovedIn;
    if AboutTools(a) {
      NextIsBeside(db, a);
      ToolsSameTables(db, a);
      SameControlsStay(db, Next(db, a), r);
      ToolsWrite(db, a, r);
    } else if AboutBrowser(a) {
      NextIsBeside(db, a);
      BrowserWrites(db, a, r);
      BrowserDrives(db, a);
      SameEffectsStay(db.runs[r], Next(db, a).runs[r]);
    } else {
      OthersLeaveEnded(db, a, r);
      SameControlsStay(db, Next(db, a), r);
      SameEffectsStay(db.runs[r], Next(db, a).runs[r]);
    }
  }

  lemma SameControlsStay(db: Db, db': Db, r: RunId)
    requires db'.controls == db.controls
    ensures !ControlMoved(db, db', r)
  {
  }

  lemma SameEffectsStay(run: Run, run': Run)
    requires run'.effects == run.effects
    ensures !ExternalCallBroke(run, run')
  {
  }

  lemma ToolsWrite(db: Db, a: Action, r: RunId)
    requires AboutTools(a) && r in db.runs && Terminal(db.runs[r].status)
    ensures r in Beside(db, a).runs
    ensures Beside(db, a).runs[r].events != db.runs[r].events <==> ExternalCallBroke(db.runs[r], Beside(db, a).runs[r])
  {
    ToolSteps(db, a);
    hide Beside, ToolStep, Breaks;
    var run := db.runs[r];
    if a.run == r {
      ToolWrites(run, a);
    } else {
      SameEffectsStay(run, run);
    }
  }

  lemma ToolWrites(run: Run, a: Action)
    requires AboutTools(a) && Terminal(run.status)
    ensures ToolStep(run, a).events != run.events <==> ExternalCallBroke(run, ToolStep(run, a))
  {
    hide CallValid, ErrorFits, ToolPermitted;
    SameEffectsStay(run, run);
    match a
    case BeginEffect(_, id, tool, arguments) =>
    case FinishEffect(_, id, tool, arguments, attempt, answer) =>
    case FailEffect(_, id, tool, arguments, attempt, error) =>
      var run' := FailedCall(run, id, tool, arguments, attempt, error);
      if id.Invocation? && run' != run {
        assert Breaks(run, run', id);
        assert |run'.events| == |run.events| + 1;
      } else if run' != run {
        assert forall other :: !Breaks(run, run', other);
      }
  }

  lemma OthersLeaveEnded(db: Db, a: Action, r: RunId)
    requires r in db.runs && Terminal(db.runs[r].status) && !AboutTools(a) && !AboutBrowser(a)
    ensures r in Next(db, a).runs && Next(db, a).controls == db.controls
    ensures Next(db, a).runs[r].events == db.runs[r].events && Next(db, a).runs[r].effects == db.runs[r].effects
  {
    hide Next, Beside, ClaimFrom, SameTables;
    if a.ClaimRun? {
      ClaimRows(db, a.worker);
      ClaimLeavesEnded(db, a.worker, Queued, Running, RunStarted, r);
      EnterLeavesEnded(db, a.worker, r);
    } else if AboutLease(a) {
      NextIsBeside(db, a);
      BesideOnlyLease(db, a);
    } else {
      TurnStepsSameTables(db, a);
      SameMeans(db, Next(db, a));
      TurnStepsLeaveEnded(db, a, r);
    }
  }

  /** The steps that end, retry or release a turn. */
  predicate AboutEnding(a: Action) {
    a.CancelRun? || a.AttemptFails? || a.ReclaimRun? || a.TerminalCallback? || a.CommitResult? || a.ConfirmCancellation?
  }

  lemma TurnStepsLeaveEnded(db: Db, a: Action, r: RunId)
    requires r in db.runs && Terminal(db.runs[r].status)
    requires !a.ClaimRun? && !AboutTools(a) && !AboutLease(a) && !AboutBrowser(a)
    ensures r in Next(db, a).runs
    ensures Next(db, a).runs[r].events == db.runs[r].events && Next(db, a).runs[r].effects == db.runs[r].effects
  {
    if AboutEnding(a) {
      hide Next;
      EndingStepsLeaveEnded(db, a, r);
    } else {
      hide Create, LookAt, Post, Usage, Submit, Reject, ClaimFrom;
      match a
      case CreateSession(s, actor) => CreateSameRuns(db, s, actor);
      case Look(w, q) => LookSameRuns(db, w, q);
      case RequeueRun(w) => ClaimLeavesEnded(db, w, RetryWait, Queued, Requeued, r);
      case PostMessage(q) => PostLeaves(db, q, r);
      case UseBudget(q, op) => UseLeavesEnded(db, q, op, r);
      case SubmitArtifact(q, toolCall, fact, fence) => ShelfLeavesEnded(db, q, toolCall, fact, fence, "", r);
      case RejectArtifact(q, toolCall, fact, code) => ShelfLeavesEnded(db, q, toolCall, fact, Artifacts.Fence(0, 0), code, r);
    }
  }

  lemma EndingStepsLeaveEnded(db: Db, a: Action, r: RunId)
    requires r in db.runs && Terminal(db.runs[r].status) && AboutEnding(a)
    ensures r in Next(db, a).runs && Next(db, a).runs[r] == db.runs[r]
  {
    if a.CommitResult? || a.ConfirmCancellation? {
      hide Next;
      CommitStepsLeaveEnded(db, a, r);
    } else {
      hide Cancel, FailAttempt, Reclaim, ReleaseIfTerminal;
      match a
      case CancelRun(actor, q) => EndingLeavesEnded(db, actor, q, false, Queued, r);
      case AttemptFails(q, retry) => EndingLeavesEnded(db, "", q, retry, Queued, r);
      case ReclaimRun(q) => EndingLeavesEnded(db, "", q, false, Queued, r);
      case TerminalCallback(q, status) => EndingLeavesEnded(db, "", q, false, status, r);
    }
  }

  lemma CommitStepsLeaveEnded(db: Db, a: Action, r: RunId)
    requires r in db.runs && Terminal(db.runs[r].status) && (a.CommitResult? || a.ConfirmCancellation?)
    ensures r in Next(db, a).runs && Next(db, a).runs[r] == db.runs[r]
  {
    hide Succeed, ConfirmCancel;
    match a
    case CommitResult(q, result) => CommitLeavesEnded(db, q, result, r);
    case ConfirmCancellation(q) => CommitLeavesEnded(db, q, TurnResult([], false, false), r);
  }

  lemma EndingLeavesEnded(db: Db, actor: OwnerId, q: RunId, retry: bool, status: Status, r: RunId)
    requires r in db.runs && Terminal(db.runs[r].status)
    ensures r in Cancel(db, actor, q).runs && Cancel(db, actor, q).runs[r] == db.runs[r]
    ensures r in FailAttempt(db, q, retry).runs && FailAttempt(db, q, retry).runs[r] == db.runs[r]
    ensures r in Reclaim(db, q).runs && Reclaim(db, q).runs[r] == db.runs[r]
    ensures r in ReleaseIfTerminal(db, q, status).runs && ReleaseIfTerminal(db, q, status).runs[r] == db.runs[r]
  {
    hide Append, WithRun, Release;
    OtherRunStays(db, r);
  }

  lemma UseLeavesEnded(db: Db, q: RunId, op: Ledger.Op, r: RunId)
    requires r in db.runs && Terminal(db.runs[r].status)
    ensures r in Usage(db, q, op).runs
    ensures Usage(db, q, op).runs[r].events == db.runs[r].events && Usage(db, q, op).runs[r].effects == db.runs[r].effects
  {
    hide UsedRun, WithRun, Ledger.Apply;
    OtherRunStays(db, r);
    UsageLeavesEnded(db.runs[r], op);
  }

  lemma ShelfLeavesEnded(db: Db, q: RunId, toolCall: string, fact: Artifacts.Fact, fence: Artifacts.Fence, code: string, r: RunId)
    requires r in db.runs && Terminal(db.runs[r].status)
    ensures r in Submit(db, q, toolCall, fact, fence).runs && Submit(db, q, toolCall, fact, fence).runs[r] == db.runs[r]
    ensures r in Reject(db, q, toolCall, fact, code).runs && Reject(db, q, toolCall, fact, code).runs[r] == db.runs[r]
  {
    hide Append, WithRun, Artifacts.Submit, Artifacts.Reject;
    OtherRunStays(db, r);
  }

  lemma SameMeans(db: Db, db': Db)
    requires SameTables(db, db')
    ensures db'.controls == db.controls
  {
  }

  lemma CommitLeavesEnded(db: Db, q: RunId, result: TurnResult, r: RunId)
    requires r in db.runs && Terminal(db.runs[r].status)
    ensures r in Succeed(db, q, result).runs && Succeed(db, q, result).runs[r] == db.runs[r]
    ensures r in ConfirmCancel(db, q).runs && ConfirmCancel(db, q).runs[r] == db.runs[r]
  {
    hide Append, WithRun, Release, SucceededRun, SuccessCommits;
    OtherRunStays(db, r);
    if Is(db, q, CancelRequested) {
      OtherRunStays(WithRun(db, q, Append(db.runs[q], [RunCancelled, TurnCancelled], Cancelled)), r);
    } else if SuccessCommits(db, q, result) {
      SuccessIs(db, q, result);
      OtherSucceeds(db, q, result, r);
    }
  }

  lemma ClaimLeavesEnded(db: Db, w: WorkerId, expected: Status, to: Status, kind: Kind, r: RunId)
    requires r in db.runs && Terminal(db.runs[r].status) && !Terminal(expected)
    ensures var db' := ClaimFrom(db, w, expected, to, kind); r in db'.runs && db'.runs[r] == db.runs[r]
  {
  }

  lemma EnterLeavesEnded(db: Db, w: WorkerId, r: RunId)
    requires var db' := ClaimFrom(db, w, Queued, Running, RunStarted); r in db.runs && r in db'.runs && db'.runs[r] == db.runs[r]
    ensures r in Next(db, ClaimRun(w)).runs && Next(db, ClaimRun(w)).runs[r] == db.runs[r]
  {
    hide ClaimFrom, ClaimCommits;
  }

  lemma UsageLeavesEnded(run: Run, op: Ledger.Op)
    requires Terminal(run.status)
    ensures UsedRun(run, op).events == run.events && UsedRun(run, op).effects == run.effects
  {
    hide Ledger.Apply;
    LedgerTheorems.ReservationsCounted(run.ledger, run.status, op);
  }

  lemma SaveControlWrites(db: Db, s: SessionId, c: Control, r: RunId)
    requires r in db.runs
    ensures var db' := SaveControl(db, s, c);
            && r in db'.runs && db'.controls == db.controls[s := c] && db'.sandboxes == db.sandboxes
            && (c.anchor != r ==> db'.runs[r] == db.runs[r])
            && (c.anchor == r ==> |db'.runs[r].events| == |db.runs[r].events| + 1)
  {
    hide WithRun, Noted;
    var saved := db.(controls := db.controls[s := c]);
    OtherRunStays(saved, r);
    ChangesSameTables(saved);
    NotedOne(db.runs[r]);
  }

  lemma NotedOne(run: Run)
    ensures |Noted(run, BrowserControl).events| == |run.events| + 1
  {
  }

  lemma MovedOnlyIn(db: Db, db': Db, s: SessionId, r: RunId)
    requires forall x :: x != s ==> SameControlRow(db, db', x)
    ensures ControlMoved(db, db', r) <==> MovedIn(db, db', s, r)
  {
  }

  lemma BrowserWrites(db: Db, a: Action, r: RunId)
    requires AboutBrowser(a) && r in db.runs
    ensures r in Beside(db, a).runs
    ensures Beside(db, a).runs[r].events != db.runs[r].events <==> ControlMoved(db, Beside(db, a), r)
  {
    hide Fits, Live, Take, CloseControl, ControlMoved;
    SameControlsStay(db, db, r);
    match a
    case TakeBrowser(actor, s, refused, signingKey, now, ttl) => TakeWrites(db, actor, s, refused, signingKey, now, ttl, r);
    case PeekBrowser(actor, s, now) => if Driven(db, s) { CloseWrites(db, s, Expired, r); }
    case EndBrowser(actor, s, now) =>
      if Driven(db, s) {
        CloseWrites(db, s, Expired, r);
        CloseWrites(db, s, Ended, r);
      }
  }

  lemma CloseWrites(db: Db, s: SessionId, status: ControlStatus, r: RunId)
    requires r in db.runs && Driven(db, s) && !status.Manual?
    ensures var db' := CloseControl(db, s, status);
            r in db'.runs && (db'.runs[r].events != db.runs[r].events <==> ControlMoved(db, db', r))
  {
    SaveControlWrites(db, s, db.controls[s].(status := status), r);
    hide SaveControl, ControlMoved;
    MovedOnlyIn(db, CloseControl(db, s, status), s, r);
  }

  lemma TakeWrites(db: Db, actor: OwnerId, s: SessionId, refused: bool, signingKey: Key, now: int, ttl: int, r: RunId)
    requires r in db.runs
    ensures var db' := Take(db, actor, s, refused, signingKey, now, ttl);
            r in db'.runs && (db'.runs[r].events != db.runs[r].events <==> ControlMoved(db, db', r))
  {
    hide SaveControl, ControlMoved, Busy, SameControl, Vacated;
    var db' := Take(db, actor, s, refused, signingKey, now, ttl);
    SameControlsStay(db, db, r);
    if MayTake(db, actor, s, refused, now) {
      VacatedFrame(db, s);
      var vacated := Vacated(db, s);
      SameControlsStay(db, vacated, r);
      if !SameControl(db, s, signingKey, now) && ttl > 0 {
        if Driven(db, s) { SaveControlWrites(vacated, s, vacated.controls[s].(status := Expired), r); }
        var closed := if Driven(db, s) then CloseControl(vacated, s, Expired) else vacated;
        SaveControlWrites(closed, s, NewControl(db, s, signingKey, now, ttl), r);
        MovedOnlyIn(db, db', s, r);
      }
    }
  }

  // ---- when the log is final ------------------------------------------------------------------------------

  /** The time a request about the sandbox or the browser brings. */
  function Time(a: Action): Option<int> {
    match a
    case AcquireSandbox(_, _, _, now, _) => Some(now)
    case RetireSandbox(_, now) => Some(now)
    case TakeBrowser(_, _, _, _, now, _) => Some(now)
    case PeekBrowser(_, _, now) => Some(now)
    case EndBrowser(_, _, now) => Some(now)
    case _ => None
  }

  predicate NotBefore(a: Action, clock: Option<int>) {
    clock.Some? && Time(a).Some? ==> clock.value <= Time(a).value
  }

  /** With a clock, times start there and never go back; without one they are arbitrary. */
  predicate Timely(actions: seq<Action>, clock: Option<int>) {
    clock.Some? ==>
      && (forall i :: 0 <= i < |actions| ==> NotBefore(actions[i], clock))
      && forall i, j :: 0 <= i < j < |actions| && Time(actions[i]).Some? && Time(actions[j]).Some? ==>
           Time(actions[i]).value <= Time(actions[j]).value
  }

  /** The lease is in use, and has not run out where there is a clock. */
  predicate InUse(box: Sandbox, clock: Option<int>) {
    box.status.Active? && (clock.Some? ==> clock.value < box.expiresAt)
  }

  /** No external tool call of the run is in flight, no browser control is anchored to it, no sandbox in use is
      held by it, and no worker that could take one is still inside its execution. */
  ghost predicate Quiet(db: Db, r: RunId, clock: Option<int>)
    requires r in db.runs
  {
    && (forall id :: id in db.runs[r].effects && id.Invocation? ==> !db.runs[r].effects[id].status.InFlight?)
    && (forall s :: Driven(db, s) ==> db.controls[s].anchor != r)
    && (forall s :: s in db.sandboxes && InUse(db.sandboxes[s], clock) ==> db.sandboxes[s].holder != r)
    && (db.runs[r].ledger.policy.sandboxAllowed ==> forall x :: x in db.executing ==> x.1 != r)
  }

  lemma QuietStep(db: Db, a: Action, r: RunId, clock: Option<int>)
    requires NotBefore(a, clock)
    requires r in db.runs && Terminal(db.runs[r].status) && Quiet(db, r, clock)
    ensures r in Next(db, a).runs && Terminal(Next(db, a).runs[r].status) && Quiet(Next(db, a), r, clock)
    ensures Next(db, a).runs[r].events == db.runs[r].events
  {
    hide Next, Quiet, Breaks, MovedIn;
    StatusTableRespected(db, a, r);
    QuietTables(db, a, r, clock);
    OnlyLateWritersAppend(db, a, r);
    QuietMeans(db, Next(db, a), r, clock);
  }

  lemma QuietMeans(db: Db, db': Db, r: RunId, clock: Option<int>)
    requires r in db.runs && r in db'.runs && Quiet(db, r, clock) && Quiet(db', r, clock)
    ensures !ExternalCallBroke(db.runs[r], db'.runs[r]) && !ControlMoved(db, db', r)
  {
  }

  lemma QuietTables(db: Db, a: Action, r: RunId, clock: Option<int>)
    requires NotBefore(a, clock)
    requires r in db.runs && Terminal(db.runs[r].status) && Quiet(db, r, clock)
    ensures r in Next(db, a).runs && Quiet(Next(db, a), r, clock)
  {
    hide Next, Beside, Quiet;
    if AboutTools(a) {
      NextIsBeside(db, a);
      ToolsQuiet(db, a, r, clock);
    } else if AboutBrowser(a) {
      NextIsBeside(db, a);
      BrowserQuiet(db, a, r, clock);
    } else if AboutLease(a) {
      NextIsBeside(db, a);
      LeaseQuiet(db, a, r, clock);
    } else {
      OthersQuiet(db, a, r, clock);
    }
  }

  lemma PolicyStays(db: Db, a: Action, r: RunId)
    requires r in db.runs
    ensures r in Next(db, a).runs && Next(db, a).runs[r].ledger.policy == db.runs[r].ledger.policy
  {
    NextSteps(db, a);
    hide Next, Logged, CallsPermitted, Grown;
    assert Steps(db.runs[r], Next(db, a).runs[r]);
  }

  lemma OthersQuiet(db: Db, a: Action, r: RunId, clock: Option<int>)
    requires r in db.runs && Terminal(db.runs[r].status) && Quiet(db, r, clock)
    requires !AboutTools(a) && !AboutBrowser(a) && !AboutLease(a)
    ensures r in Next(db, a).runs && Quiet(Next(db, a), r, clock)
  {
    hide Next;
    OthersLeaveEnded(db, a, r);
    PolicyStays(db, a, r);
    if a.ClaimRun? {
      ClaimRows(db, a.worker);
      StatusTableRespected(db, a, r);
    } else {
      TurnStepsSameTables(db, a);
    }
  }

  lemma ToolsQuiet(db: Db, a: Action, r: RunId, clock: Option<int>)
    requires AboutTools(a) && r in db.runs && Terminal(db.runs[r].status) && Quiet(db, r, clock)
    ensures r in Beside(db, a).runs && Quiet(Beside(db, a), r, clock)
  {
    ToolSteps(db, a);
    ToolsSameTables(db, a);
    var run := db.runs[r];
    NothingBegins(run, a);
    hide Beside, ToolStep, ToolShape;
    assert Beside(db, a).runs[r] == if a.run == r then ToolStep(run, a) else run;
  }

  lemma NothingBegins(run: Run, a: Action)
    requires AboutTools(a) && Terminal(run.status)
    ensures var run' := ToolStep(run, a);
            && run'.ledger == run.ledger
            && forall id :: id in run'.effects && run'.effects[id].status.InFlight? ==>
                 id in run.effects && run.effects[id].status.InFlight?
  {
    hide Numbered, CallValid, ErrorFits, ToolPermitted;
  }

  lemma BrowserQuiet(db: Db, a: Action, r: RunId, clock: Option<int>)
    requires NotBefore(a, clock)
    requires AboutBrowser(a) && r in db.runs && Quiet(db, r, clock)
    ensures r in Beside(db, a).runs && Quiet(Beside(db, a), r, clock)
  {
    BrowserAnchorsOthers(db, a, r, clock);
    BrowserRows(db, a);
    BrowserDrives(db, a);
    hide Beside, Busy, MayTake, NewControl;
    assert OnlyDriven(db.runs[r], Beside(db, a).runs[r]);
  }

  lemma BrowserAnchorsOthers(db: Db, a: Action, r: RunId, clock: Option<int>)
    requires NotBefore(a, clock)
    requires AboutBrowser(a) && r in db.runs && Quiet(db, r, clock)
    ensures forall s :: Driven(Beside(db, a), s) ==> Beside(db, a).controls[s].anchor != r
  {
    BrowserRows(db, a);
    hide Beside, Busy;
  }

  lemma LeaseQuiet(db: Db, a: Action, r: RunId, clock: Option<int>)
    requires AboutLease(a) && r in db.runs && Quiet(db, r, clock)
    ensures r in Beside(db, a).runs && Quiet(Beside(db, a), r, clock)
  {
    hide Beside, Quiet;
    match a
    case LeaveRun(w, q) => LeaveExecution(db, w, q); LeaveQuiet(db, w, q, r, clock);
    case AcquireSandbox(w, q, reuse, now, ttl) => AcquireRows(db, w, q, reuse, now, ttl); AcquireQuiet(db, w, q, reuse, now, ttl, r, clock);
    case DirtySandbox(s, generation, token) => DampIs(db, s, generation, token, 0); DampQuiet(db, MarkDirty(db, s, generation, token), s, r, clock);
    case RetireSandbox(s, now) => DampIs(db, s, 0, 0, now); DampQuiet(db, Retire(db, s, now), s, r, clock);
  }

  lemma LeaveQuiet(db: Db, w: WorkerId, q: RunId, r: RunId, clock: Option<int>)
    requires r in db.runs && Quiet(db, r, clock)
    ensures Quiet(db.(executing := db.executing - {(w, q)}), r, clock)
  {
  }

  lemma AcquireQuiet(db: Db, w: WorkerId, q: RunId, reuse: bool, now: int, ttl: int, r: RunId, clock: Option<int>)
    requires r in db.runs && Quiet(db, r, clock)
    ensures var db' := Acquire(db, w, q, reuse, now, ttl); r in db'.runs && Quiet(db', r, clock)
  {
    AcquireRows(db, w, q, reuse, now, ttl);
    hide Acquire, Beside;
  }

  lemma DampQuiet(db: Db, db': Db, s: SessionId, r: RunId, clock: Option<int>)
    requires r in db.runs && Quiet(db, r, clock)
    requires db' == db || (Changed(db, db', s) && s in db'.sandboxes && !db'.sandboxes[s].status.Active?)
    ensures r in db'.runs && Quiet(db', r, clock)
  {
  }

  lemma LeaveExecution(db: Db, w: WorkerId, q: RunId)
    ensures Beside(db, LeaveRun(w, q)) == db.(executing := db.executing - {(w, q)})
  {
  }

  lemma {:induction false} QuietIsFinal(db: Db, actions: seq<Action>, r: RunId, clock: Option<int>)
    requires Timely(actions, clock)
    requires r in db.runs && Terminal(db.runs[r].status) && Quiet(db, r, clock)
    ensures var db' := Play(db, actions);
            r in db'.runs && Terminal(db'.runs[r].status) && Quiet(db', r, clock) && db'.runs[r].events == db.runs[r].events
  {
    hide Quiet, Next;
    if actions != [] {
      QuietIsFinal(db, actions[..|actions| - 1], r, clock);
      QuietStep(Play(db, actions[..|actions| - 1]), actions[|actions| - 1], r, clock);
    }
  }

  ghost predicate GrownBy(db: Db, r: RunId, actions: seq<Action>) {
    r in db.runs && r in Play(db, actions).runs && Play(db, actions).runs[r].events != db.runs[r].events
  }

  /** The log can still grow. */
  ghost predicate CanGrow(db: Db, r: RunId, clock: Option<int>) {
    exists actions :: Timely(actions, clock) && GrownBy(db, r, actions)
  }

  /** The request is made now. */
  predicate Present(a: Action, clock: Option<int>) {
    clock.Some? && Time(a).Some? ==> Time(a) == clock
  }

  lemma GrowsAfter(db: Db, a: Action, r: RunId, clock: Option<int>)
    requires Present(a, clock) && Reachable(db) && r in db.runs && r in Next(db, a).runs && CanGrow(Next(db, a), r, clock)
    ensures CanGrow(db, r, clock)
  {
    hide Next, Reachable;
    var middle := Next(db, a);
    var actions :| Timely(actions, clock) && GrownBy(middle, r, actions);
    EveryRunEvolves(db, [a]);
    assert Play(db, [a]) == middle by { assert [a][..0] == []; }
    PlaySplits(db, [a], actions);
    EveryRunEvolves(middle, actions);
    hide Play;
    assert |Play(middle, actions).runs[r].events| > |middle.runs[r].events|;
    assert GrownBy(db, r, [a] + actions);
  }

  lemma GrowsNow(db: Db, a: Action, r: RunId, clock: Option<int>)
    requires Present(a, clock) && r in db.runs && r in Next(db, a).runs && Next(db, a).runs[r].events != db.runs[r].events
    ensures CanGrow(db, r, clock)
  {
    hide Next;
    assert Play(db, [a]) == Next(db, a) by { assert [a][..0] == []; }
    assert GrownBy(db, r, [a]);
  }

  lemma InFlightGrows(db: Db, r: RunId, id: EffectId, clock: Option<int>)
    requires Reachable(db) && r in db.runs && Terminal(db.runs[r].status)
    requires id in db.runs[r].effects && id.Invocation? && db.runs[r].effects[id].status.InFlight?
    ensures CanGrow(db, r, clock)
  {
    hide Reachable;
    ReachableAnchored(db);
    var run := db.runs[r];
    assert RunTracked(run);
    var effect := run.effects[id];
    var a := FailEffect(r, id, effect.tool, effect.arguments, 0, ToolError(Temporary, "code", "message"));
    hide Anchored, CallValid, ToolPermitted, CanGrow;
    NextIsBeside(db, a);
    FailGrows(run, id);
    GrowsNow(db, a, r, clock);
  }

  lemma FailGrows(run: Run, id: EffectId)
    requires id in run.effects && id.Invocation? && run.effects[id].status.InFlight?
    requires CallValid(id, run.effects[id].tool) && ToolPermitted(run.ledger.policy, id, run.effects[id].tool)
    ensures |FailedCall(run, id, run.effects[id].tool, run.effects[id].arguments, 0, ToolError(Temporary, "code", "message")).events|
            == |run.events| + 1
  {
    hide CallValid, ToolPermitted;
  }

  lemma DrivenGrows(db: Db, r: RunId, s: SessionId, clock: Option<int>)
    requires Reachable(db) && r in db.runs && Driven(db, s) && db.controls[s].anchor == r
    ensures CanGrow(db, r, clock)
  {
    hide Reachable, CanGrow, Next, Beside;
    assert s in db.sessions by { ReachableAnchored(db); ControlHome(db, s); }
    var a := EndBrowser(db.sessions[s].owner, s, clock.GetOr(0));
    NextIsBeside(db, a);
    EndAppends(db, r, s, clock.GetOr(0));
    GrowsNow(db, a, r, clock);
  }

  lemma EndAppends(db: Db, r: RunId, s: SessionId, now: int)
    requires r in db.runs && Driven(db, s) && db.controls[s].anchor == r && s in db.sessions
    ensures var db' := Beside(db, EndBrowser(db.sessions[s].owner, s, now)); r in db'.runs && db'.runs[r].events != db.runs[r].events
  {
    SaveControlWrites(db, s, db.controls[s].(status := Ended), r);
    SaveControlWrites(db, s, db.controls[s].(status := Expired), r);
    hide SaveControl, Fits;
  }

  lemma ControlHome(db: Db, s: SessionId)
    requires Anchored(db) && s in db.controls
    ensures ControlPlaced(db, s) && s in db.sessions
  {
    hide RunTracked, WasClaimed, SandboxPlaced, MayHold, Busy;
  }

  /** A sandbox in use whose session nobody works in. */
  lemma HeldGrows(db: Db, r: RunId, s: SessionId, clock: Option<int>)
    requires Reachable(db) && r in db.runs && s in db.sandboxes && s in db.sessions && !Busy(db, s)
    requires InUse(db.sandboxes[s], clock) && db.sandboxes[s].holder == r
    ensures CanGrow(db, r, clock)
  {
    hide Reachable, Anchored, CanGrow, Next, Take, Busy;
    var now := clock.GetOr(db.sandboxes[s].expiresAt - 1);
    var a := TakeBrowser(db.sessions[s].owner, s, false, "key", now, 1);
    if SameControl(db, s, "key", now) {
      assert db.controls[s].anchor == r by { ReachableAnchored(db); ControlHome(db, s); }
      DrivenGrows(db, r, s, clock);
    } else {
      NextIsBeside(db, a);
      TakeAppends(db, db.sessions[s].owner, s, "key", now, r);
      GrowsNow(db, a, r, clock);
    }
  }

  lemma TakeAppends(db: Db, actor: OwnerId, s: SessionId, signingKey: Key, now: int, r: RunId)
    requires r in db.runs && MayTake(db, actor, s, false, now) && !SameControl(db, s, signingKey, now)
    requires db.sandboxes[s].holder == r
    ensures var db' := Take(db, actor, s, false, signingKey, now, 1); r in db'.runs && db'.runs[r].events != db.runs[r].events
  {
    hide SaveControl, Busy, SameControl, Vacated;
    VacatedFrame(db, s);
    var vacated := Vacated(db, s);
    if Driven(db, s) { SaveControlWrites(vacated, s, vacated.controls[s].(status := Expired), r); }
    var closed := if Driven(db, s) then CloseControl(vacated, s, Expired) else vacated;
    SaveControlWrites(closed, s, NewControl(db, s, signingKey, now, 1), r);
  }

  /** A sandbox in use of a run that has ended: whoever works in the session can be cancelled first. */
  lemma SandboxGrows(db: Db, r: RunId, s: SessionId, clock: Option<int>)
    requires Reachable(db) && r in db.runs && Terminal(db.runs[r].status)
    requires s in db.sandboxes && InUse(db.sandboxes[s], clock) && db.sandboxes[s].holder == r
    ensures CanGrow(db, r, clock)
  {
    hide Reachable, Next, Cancel, CanGrow, Anchored;
    assert s in db.sessions by { ReachableAnchored(db); SandboxHome(db, s); }
    if Busy(db, s) {
      var q := db.sessions[s].active.value;
      var owner := db.runs[q].owner;
      var asked := Next(db, CancelRun(owner, q));
      var ended := Next(asked, CancelRun(owner, q));
      ReachableNext(db, CancelRun(owner, q));
      ReachableNext(asked, CancelRun(owner, q));
      NextCancel(db, owner, q);
      NextCancel(asked, owner, q);
      EndedByCancel(db, q);
      CancelSameTables(db, owner, q);
      CancelSameTables(asked, owner, q);
      HeldGrows(ended, r, s, clock);
      GrowsAfter(asked, CancelRun(owner, q), r, clock);
      GrowsAfter(db, CancelRun(owner, q), r, clock);
    } else {
      HeldGrows(db, r, s, clock);
    }
  }

  lemma SandboxHome(db: Db, s: SessionId)
    requires Anchored(db) && s in db.sandboxes
    ensures s in db.sessions
  {
    hide RunTracked, WasClaimed, ControlPlaced, MayHold;
    assert SandboxPlaced(db, s);
  }

  lemma CancelSameTables(db: Db, actor: OwnerId, q: RunId)
    ensures Cancel(db, actor, q).sandboxes == db.sandboxes && Cancel(db, actor, q).runs.Keys == db.runs.Keys
  {
    hide Append;
  }

  /** A straggler still takes the sandbox for a run that has ended. */
  lemma StragglerGrows(db: Db, w: WorkerId, r: RunId, clock: Option<int>)
    requires Reachable(db) && r in db.runs && Terminal(db.runs[r].status)
    requires (w, r) in db.executing && db.runs[r].ledger.policy.sandboxAllowed
    ensures CanGrow(db, r, clock)
  {
    hide Reachable, CanGrow, Next, Beside;
    var now := clock.GetOr(0);
    var a := AcquireSandbox(w, r, false, now, 1);
    NextIsBeside(db, a);
    AcquireRows(db, w, r, false, now, 1);
    AcquiredUntil(db, w, r, now);
    ReachableNext(db, a);
    SandboxGrows(Next(db, a), r, db.runs[r].session, clock);
    GrowsAfter(db, a, r, clock);
  }

  lemma AcquiredUntil(db: Db, w: WorkerId, r: RunId, now: int)
    requires r in db.runs && (w, r) in db.executing && db.runs[r].ledger.policy.sandboxAllowed
    ensures var after := Acquire(db, w, r, false, now, 1); var s := db.runs[r].session;
            s in after.sandboxes && after.sandboxes[s].expiresAt == now + 1 && after.sandboxes[s].status.Active?
            && after.sandboxes[s].holder == r
  {
  }

  /** The log of a turn that has ended is final, over every further run of transactions, if and only if no external
      tool call of the turn is in flight, no browser control is anchored to it, no sandbox in use is held by it, and
      no worker that could take one is still inside its execution. */
  lemma EndedLogIsFinalIff(db: Db, r: RunId)
    requires Reachable(db) && r in db.runs && Terminal(db.runs[r].status)
    ensures (forall actions :: !GrownBy(db, r, actions)) <==> Quiet(db, r, None)
  {
    hide Reachable, Quiet, GrownBy;
    if Quiet(db, r, None) {
      forall actions ensures !GrownBy(db, r, actions) {
        QuietNeverGrows(db, r, actions, None);
      }
    } else {
      NotQuietGrows(db, r, None);
    }
  }

  /** The same from some time on, when clocks do not go back: a lease that has run out is no threat any more. */
  lemma FinalFromNowOnIff(db: Db, r: RunId, now: int)
    requires Reachable(db) && r in db.runs && Terminal(db.runs[r].status)
    ensures (forall actions :: Timely(actions, Some(now)) ==> !GrownBy(db, r, actions)) <==> Quiet(db, r, Some(now))
  {
    hide Reachable, Quiet, GrownBy, Timely;
    if Quiet(db, r, Some(now)) {
      forall actions | Timely(actions, Some(now)) ensures !GrownBy(db, r, actions) {
        QuietNeverGrows(db, r, actions, Some(now));
      }
    } else {
      NotQuietGrows(db, r, Some(now));
    }
  }

  lemma QuietNeverGrows(db: Db, r: RunId, actions: seq<Action>, clock: Option<int>)
    requires r in db.runs && Terminal(db.runs[r].status) && Quiet(db, r, clock) && Timely(actions, clock)
    ensures !GrownBy(db, r, actions)
  {
    hide Play, Quiet;
    QuietIsFinal(db, actions, r, clock);
  }

  lemma NotQuietGrows(db: Db, r: RunId, clock: Option<int>)
    requires Reachable(db) && r in db.runs && Terminal(db.runs[r].status) && !Quiet(db, r, clock)
    ensures CanGrow(db, r, clock)
  {
    hide Reachable, CanGrow;
    if id :| id in db.runs[r].effects && id.Invocation? && db.runs[r].effects[id].status.InFlight? {
      InFlightGrows(db, r, id, clock);
    } else if s :| Driven(db, s) && db.controls[s].anchor == r {
      DrivenGrows(db, r, s, clock);
    } else if s :| s in db.sandboxes && InUse(db.sandboxes[s], clock) && db.sandboxes[s].holder == r {
      SandboxGrows(db, r, s, clock);
    } else {
      var x :| x in db.executing && x.1 == r;
      StragglerGrows(db, x.0, r, clock);
    }
  }

  /** A turn that ended before any worker took it is never appended to again. */
  lemma NeverClaimedIsFinal(db: Db, r: RunId, actions: seq<Action>)
    requires Reachable(db) && r in db.runs && Terminal(db.runs[r].status) && !Logged(db.runs[r].events, RunStarted)
    ensures r in Play(db, actions).runs && Play(db, actions).runs[r].events == db.runs[r].events
  {
    hide Reachable, Play, CallsPermitted;
    ReachableAnchored(db);
    assert Quiet(db, r, None) by {
      assert RunTracked(db.runs[r]);
      assert forall s :: s in db.sandboxes ==> SandboxPlaced(db, s);
      assert forall s :: s in db.controls ==> ControlPlaced(db, s);
    }
    QuietIsFinal(db, actions, r, None);
  }

  /** What is appended after the end is a late writer's event. */
  lemma LateStep(db: Db, a: Action, r: RunId)
    requires r in db.runs && Terminal(db.runs[r].status)
    ensures r in Next(db, a).runs && Next(db, a).runs[r].status == db.runs[r].status
    ensures var before, after := db.runs[r].events, Next(db, a).runs[r].events;
            before <= after && forall i :: |before| <= i < |after| ==> WrittenLate(after[i].kind)
  {
    StatusTableRespected(db, a, r);
    hide Next, Beside;
    if AboutTools(a) {
      NextIsBeside(db, a);
      LateToolsStep(db, a, r);
    } else if AboutBrowser(a) {
      NextIsBeside(db, a);
      BrowserDrives(db, a);
      assert OnlyDriven(db.runs[r], Next(db, a).runs[r]);
    } else {
      OthersLeaveEnded(db, a, r);
    }
  }

  lemma LateToolsStep(db: Db, a: Action, r: RunId)
    requires AboutTools(a) && r in db.runs && Terminal(db.runs[r].status)
    ensures r in Beside(db, a).runs
    ensures var before, after := db.runs[r].events, Beside(db, a).runs[r].events;
            before <= after && forall i :: |before| <= i < |after| ==> WrittenLate(after[i].kind)
  {
    ToolSteps(db, a);
    hide Beside, ToolStep, ToolShape;
    if a.run == r { LateToolStep(db.runs[r], a); }
  }

  lemma LateToolStep(run: Run, a: Action)
    requires AboutTools(a) && Terminal(run.status)
    ensures var before, after := run.events, ToolStep(run, a).events;
            before <= after && forall i :: |before| <= i < |after| ==> WrittenLate(after[i].kind)
  {
    hide CallValid, ErrorFits, ToolPermitted;
  }

  // ---- and it does happen ---------------------------------------------------------------------------------

  /** "Nothing is appended after a terminal status" does not hold: a turn that ran in the session's sandbox and
      failed is followed by the event of its owner taking over the browser. */
  lemma SomethingCanFollowTheEnd()
    ensures exists db, r ::
              && Reachable(db) && r in db.runs && db.runs[r].status.Failed? && Logged(db.runs[r].events, RunStarted)
              && |db.runs[r].events| > 0
              && db.runs[r].events[|db.runs[r].events| - 1].kind == BrowserControl
  {
    var db := FailedExample();
    var a := TakeBrowser("owner", "s", false, "key", 0, 1);
    ReachableNext(db, a);
    NextIsBeside(db, a);
    hide Reachable, Next;
    var db' := Next(db, a);
    TakenExample(db);
    assert Reachable(db') && "r" in db'.runs && db'.runs["r"].status.Failed?;
    assert Logged(db'.runs["r"].events, RunStarted) by { assert db'.runs["r"].events[2].kind == RunStarted; }
    assert db'.runs["r"].events[|db'.runs["r"].events| - 1].kind == BrowserControl;
  }

  lemma TakenExample(db: Db)
    requires "r" in db.runs && db.runs["r"].status == Failed && "s" in db.sandboxes && "s" !in db.controls
    requires db.sandboxes["s"] == Sandbox("r", 1, 1, Active, 10) && |db.runs["r"].events| == 4
    requires Visible(db, "s", "owner") && !Busy(db, "s")
    ensures var db' := Beside(db, TakeBrowser("owner", "s", false, "key", 0, 1));
            && "r" in db'.runs && db'.runs["r"].status == Failed && |db'.runs["r"].events| == 5
            && db'.runs["r"].events[4].kind == BrowserControl && db'.runs["r"].events[2] == db.runs["r"].events[2]
  {
    VacatedFrame(db, "s");
    hide Vacated, Busy;
    assert Beside(db, TakeBrowser("owner", "s", false, "key", 0, 1))
        == SaveControl(Vacated(db, "s"), "s", NewControl(db, "s", "key", 0, 1));
  }

  /** A worker claimed the turn, took the session's sandbox and failed for good. */
  lemma FailedExample() returns (db: Db)
    ensures Reachable(db) && "r" in db.runs && db.runs["r"].status == Failed && "s" in db.sandboxes && "s" !in db.controls
    ensures db.sandboxes["s"] == Sandbox("r", 1, 1, Active, 10)
    ensures |db.runs["r"].events| == 4 && db.runs["r"].events[2].kind == RunStarted
    ensures Visible(db, "s", "owner") && !Busy(db, "s")
  {
    var d4 := ClaimedExample();
    var d5 := Next(d4, AcquireSandbox("w", "r", false, 0, 10));
    db := Next(d5, AttemptFails("r", false));
    ReachableNext(d4, AcquireSandbox("w", "r", false, 0, 10));
    ReachableNext(d5, AttemptFails("r", false));
    hide Reachable;
    NextIsBeside(d4, AcquireSandbox("w", "r", false, 0, 10));
    assert d5 == WithSandbox(d4, "s", Sandbox("r", 1, 1, Active, 10));
    FailSteps(d5, "r");
    hide Next;
  }

  lemma FailSteps(db: Db, r: RunId)
    ensures Next(db, AttemptFails(r, false)) == FailAttempt(db, r, false)
  {
    hide FailAttempt;
  }

  lemma ClaimedExample() returns (db: Db)
    ensures Reachable(db) && "r" in db.runs && db.runs["r"].status == Running && db.runs["r"].session == "s"
    ensures ("w", "r") in db.executing && db.runs["r"].ledger.policy.sandboxAllowed
    ensures |db.runs["r"].events| == 3 && db.runs["r"].events[2].kind == RunStarted
    ensures db.sandboxes == map[] && db.controls == map[] && "s" in db.sessions
    ensures db.sessions["s"].owner == "owner" && db.sessions["s"].active == Some("r")
  {
    var policy := Ledger.Policy(1, 1, 1, 1, 1, 1, {}, map[], {}, true);
    var q := PostRequest("owner", "s", "key", "hash", "r", policy, false, false, false);
    FirstSteps(EMPTY_DB, q, "w");
    var d1 := Next(EMPTY_DB, CreateSession("s", "owner"));
    FirstSteps(d1, q, "w");
    var d2 := Next(d1, PostMessage(q));
    FirstSteps(d2, q, "w");
    var d3 := Next(d2, Look("w", "r"));
    FirstSteps(d3, q, "w");
    db := Next(d3, ClaimRun("w"));
    assert Reachable(EMPTY_DB) by { assert EMPTY_DB == Play(EMPTY_DB, []); }
    hide Reachable, Next;
    ReachableNext(EMPTY_DB, CreateSession("s", "owner"));
    ReachableNext(d1, PostMessage(q));
    ReachableNext(d2, Look("w", "r"));
    ReachableNext(d3, ClaimRun("w"));
    PostedExample(d1, q);
    hide Post;
    assert d3 == d2.(sights := map["w" := Sight("r", Queued, 3)]);
    ClaimExample(d3, q);
  }

  lemma PostedExample(d1: Db, q: PostRequest)
    requires d1 == Create(EMPTY_DB, "s", "owner") && q.session == "s" && q.actor == "owner" && q.run == "r"
    requires !q.refusedEarly && !q.refusedLate && !q.stale && Ledger.PolicyValid(q.policy)
    ensures var d2 := Post(d1, q);
            && d2.runs == map["r" := NewRun(q, 1)] && d2.sights == map[] && d2.sandboxes == map[] && d2.controls == map[]
            && "s" in d2.sessions && d2.sessions["s"].owner == "owner" && d2.sessions["s"].active == Some("r")
  {
    hide NewRun;
    assert PostReplyFor(d1, q) == Posted("r");
  }

  lemma ClaimExample(d: Db, q: PostRequest)
    requires d.runs == map["r" := NewRun(q, 1)] && d.sights == map["w" := Sight("r", Queued, 3)] && q.session == "s"
    ensures var db := Claim(d, "w");
            && "r" in db.runs && db.runs["r"].status == Running && db.runs["r"].session == "s"
            && db.runs["r"].ledger.policy == q.policy && ("w", "r") in db.executing
            && |db.runs["r"].events| == 3 && db.runs["r"].events[2].kind == RunStarted
            && db.sandboxes == d.sandboxes && db.controls == d.controls && db.sessions == d.sessions
  {
    assert ClaimCommits(d, d.sights["w"], Queued);
  }

  lemma FirstSteps(db: Db, q: PostRequest, w: WorkerId)
    ensures Next(db, CreateSession(q.session, q.actor)) == Create(db, q.session, q.actor)
    ensures Next(db, PostMessage(q)) == Post(db, q)
    ensures Next(db, Look(w, q.run)) == LookAt(db, w, q.run)
    ensures Next(db, ClaimRun(w)) == Claim(db, w)
  {
    hide Create, Post, LookAt, Claim;
  }
}
