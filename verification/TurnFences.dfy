/** When a validated artifact can still be published: the sandbox fence under which it was recorded. */
module TurnFences {
  import opened Wrappers
  import opened Runs
  import opened TurnProtocol
  import opened TurnInvariant
  import opened TurnTheorems
  import opened TurnEnd
  import Artifacts

  // ---- what a success needs -----------------------------------------------------------------------------

  /** Staging only adds rows that are staged. */
  lemma {:induction false} StagingAddsStaged(cs: seq<Artifacts.Candidate>, requested: seq<Artifacts.Candidate>)
    requires forall i :: 0 <= i < |requested| ==> requested[i].stage.Staged?
    requires Artifacts.StageAll(cs, requested).Some?
    ensures var staged := Artifacts.StageAll(cs, requested).value;
            cs <= staged && forall i :: |cs| <= i < |staged| ==> staged[i].stage.Staged?
  {
    hide Artifacts.Locate;
    if requested != [] { StagingAddsStaged(cs, requested[..|requested| - 1]); }
  }

  lemma FencesAfterStaging(cs: seq<Artifacts.Candidate>, requested: seq<Artifacts.Candidate>, fences: set<Artifacts.Fence>)
    requires forall i :: 0 <= i < |requested| ==> requested[i].stage.Staged?
    requires Artifacts.StageAll(cs, requested).Some?
    ensures Artifacts.FencesHold(Artifacts.StageAll(cs, requested).value, fences) <==> Artifacts.FencesHold(cs, fences)
  {
    StagingAddsStaged(cs, requested);
    var staged := Artifacts.StageAll(cs, requested).value;
    hide Artifacts.StageAll;
    forall c | c in staged && c.stage.Validated? ensures c in cs {
      var i :| 0 <= i < |staged| && staged[i] == c;
      assert i < |cs| ==> cs[i] == c;
    }
    assert forall c :: c in cs ==> c in staged;
  }

  /** A result that is accepted and can be staged commits if and only if every validated candidate was recorded under
      the fence of the sandbox that the turn still holds. */
  lemma SuccessNeedsItsFences(db: Db, r: RunId, result: TurnResult)
    requires Reachable(db) && Is(db, r, Running) && result.accepted
    requires Artifacts.StageAll(db.runs[r].shelf.candidates, Artifacts.Requested(result.reports)).Some?
    ensures Is(Next(db, CommitResult(r, result)), r, Succeeded)
            <==> forall c :: c in db.runs[r].shelf.candidates && c.stage.Validated? ==> c.stage.fence in CurrentFences(db, r)
  {
    hide Reachable;
    LiveTurnHoldsSession(db, r, r);
    FencesAfterStaging(db.runs[r].shelf.candidates, Artifacts.Requested(result.reports), CurrentFences(db, r));
    if SuccessCommits(db, r, result) { CommitsFindTheirSession(db, r, result); } else { RefusedStays(db, r, result); }
    hide Next, CurrentFences, Artifacts.StageAll, Artifacts.Requested;
  }

  lemma RefusedStays(db: Db, r: RunId, result: TurnResult)
    requires Is(db, r, Running) && !SuccessCommits(db, r, result)
    ensures Next(db, CommitResult(r, result)) == db
  {
    hide SuccessCommits, SucceededRun;
  }

  // ---- when a fence is lost -------------------------------------------------------------------------------

  /** The step takes the sandbox for another turn or anew, marks it dirty, or retires it. */
  predicate TakesFence(db: Db, a: Action, r: RunId)
    requires r in db.runs && db.runs[r].session in db.sandboxes
  {
    var s := db.runs[r].session;
    match a
    case AcquireSandbox(w, q, reuse, _, _) =>
      q in db.runs && (w, q) in db.executing && db.runs[q].ledger.policy.sandboxAllowed && db.runs[q].session == s && (q != r || !reuse)
    case DirtySandbox(t, generation, token) =>
      t == s && generation == db.sandboxes[s].generation && token == db.sandboxes[s].fence
    case RetireSandbox(t, now) => t == s && db.sandboxes[s].expiresAt <= now
    case _ => false
  }

  lemma OnlyLeaseMovesSandboxes(db: Db, a: Action)
    requires !AboutLease(a)
    ensures Next(db, a).sandboxes == db.sandboxes
  {
    hide Next, Beside;
    if a.ClaimRun? {
      ClaimRows(db, a.worker);
    } else if AboutTools(a) {
      NextIsBeside(db, a);
      ToolsSameTables(db, a);
    } else if AboutBrowser(a) {
      NextIsBeside(db, a);
      BrowserRows(db, a);
    } else {
      TurnStepsSameTables(db, a);
    }
  }

  lemma SessionStaysSame(db: Db, a: Action, r: RunId)
    requires r in db.runs
    ensures r in Next(db, a).runs && Next(db, a).runs[r].session == db.runs[r].session
  {
    NextSteps(db, a);
    hide Next;
    StepsFrame(db.runs[r], Next(db, a).runs[r]) by { assert Steps(db.runs[r], Next(db, a).runs[r]); hide Steps; }
  }

  /** The fence under which a turn works is lost in a step if and only if that step takes it. */
  lemma FenceLostIff(db: Db, a: Action, r: RunId, fence: Artifacts.Fence)
    requires r in db.runs && fence in CurrentFences(db, r)
    ensures r in Next(db, a).runs
    ensures fence !in CurrentFences(Next(db, a), r) <==> TakesFence(db, a, r)
  {
    hide Next, TakesFence;
    if AboutLease(a) {
      LeaseFences(db, a, r, fence);
    } else {
      SessionStaysSame(db, a, r);
      OnlyLeaseMovesSandboxes(db, a);
      OthersTakeNothing(db, a, r);
    }
  }

  lemma OthersTakeNothing(db: Db, a: Action, r: RunId)
    requires r in db.runs && db.runs[r].session in db.sandboxes
    ensures TakesFence(db, a, r) ==> AboutLease(a)
  {
  }

  /** What a step on the lease does to the fences of a turn whose session has a sandbox. */
  ghost predicate FenceStep(db: Db, db': Db, r: RunId, fence: Artifacts.Fence, taken: bool)
    requires r in db.runs && db.runs[r].session in db.sandboxes
  {
    var s := db.runs[r].session;
    && r in db'.runs && db'.runs[r].session == s && s in db'.sandboxes
    && db.sandboxes[s].fence <= db'.sandboxes[s].fence
    && (fence in CurrentFences(db, r) ==> (fence !in CurrentFences(db', r) <==> taken))
    && (Passed(db, r, fence) ==> fence !in CurrentFences(db', r))
  }

  lemma AcquireFences(db: Db, w: WorkerId, q: RunId, reuse: bool, now: int, ttl: int, r: RunId, fence: Artifacts.Fence)
    requires r in db.runs && db.runs[r].session in db.sandboxes
    ensures FenceStep(db, Acquire(db, w, q, reuse, now, ttl), r, fence, TakesFence(db, AcquireSandbox(w, q, reuse, now, ttl), r))
  {
    hide FenceStep, TakesFence;
    if q in db.runs && (w, q) in db.executing && db.runs[q].ledger.policy.sandboxAllowed && db.runs[q].session == db.runs[r].session {
      AcquireHere(db, w, q, reuse, now, ttl, r, fence);
    } else {
      AcquireElsewhere(db, w, q, reuse, now, ttl, r, fence);
    }
  }

  /** Taking the session's own sandbox. */
  lemma AcquireHere(db: Db, w: WorkerId, q: RunId, reuse: bool, now: int, ttl: int, r: RunId, fence: Artifacts.Fence)
    requires r in db.runs && db.runs[r].session in db.sandboxes && q in db.runs && (w, q) in db.executing
    requires db.runs[q].ledger.policy.sandboxAllowed && db.runs[q].session == db.runs[r].session
    ensures FenceStep(db, Acquire(db, w, q, reuse, now, ttl), r, fence, TakesFence(db, AcquireSandbox(w, q, reuse, now, ttl), r))
  {
    var s := db.runs[r].session;
    var box := db.sandboxes[s];
    var db' := Acquire(db, w, q, reuse, now, ttl);
    if !reuse {
      assert db' == WithSandbox(db, s, Sandbox(q, box.generation + 1, box.fence + 1, Active, now + ttl));
    } else if box.status.Active? {
      assert db' == WithSandbox(db, s, Sandbox(q, box.generation, if box.holder == q then box.fence else box.fence + 1, Active, now + ttl));
    } else {
      assert db' == db;
    }
    hide Acquire;
  }

  lemma AcquireElsewhere(db: Db, w: WorkerId, q: RunId, reuse: bool, now: int, ttl: int, r: RunId, fence: Artifacts.Fence)
    requires r in db.runs && db.runs[r].session in db.sandboxes
    requires !(q in db.runs && (w, q) in db.executing && db.runs[q].ledger.policy.sandboxAllowed && db.runs[q].session == db.runs[r].session)
    ensures FenceStep(db, Acquire(db, w, q, reuse, now, ttl), r, fence, TakesFence(db, AcquireSandbox(w, q, reuse, now, ttl), r))
  {
    var s := db.runs[r].session;
    var db' := Acquire(db, w, q, reuse, now, ttl);
    assert s in db'.sandboxes && db'.sandboxes[s] == db.sandboxes[s] && db'.runs == db.runs;
    hide Acquire;
  }

  lemma DirtyFences(db: Db, t: SessionId, generation: nat, token: nat, r: RunId, fence: Artifacts.Fence)
    requires r in db.runs && db.runs[r].session in db.sandboxes
    ensures FenceStep(db, MarkDirty(db, t, generation, token), r, fence, TakesFence(db, DirtySandbox(t, generation, token), r))
  {
  }

  lemma RetireFences(db: Db, t: SessionId, now: int, r: RunId, fence: Artifacts.Fence)
    requires r in db.runs && db.runs[r].session in db.sandboxes
    ensures FenceStep(db, Retire(db, t, now), r, fence, TakesFence(db, RetireSandbox(t, now), r))
  {
  }

  lemma LeaveFences(db: Db, w: WorkerId, q: RunId, r: RunId, fence: Artifacts.Fence)
    requires r in db.runs && db.runs[r].session in db.sandboxes
    ensures FenceStep(db, db.(executing := db.executing - {(w, q)}), r, fence, TakesFence(db, LeaveRun(w, q), r))
  {
  }

  lemma LeaseFences(db: Db, a: Action, r: RunId, fence: Artifacts.Fence)
    requires AboutLease(a) && r in db.runs && db.runs[r].session in db.sandboxes
    ensures FenceStep(db, Next(db, a), r, fence, TakesFence(db, a, r))
  {
    hide Next, Beside, FenceStep, TakesFence, Acquire, MarkDirty, Retire, Acquired, Changed, CurrentFences;
    NextIsBeside(db, a);
    match a
    case LeaveRun(w, q) => LeaveExecution(db, w, q); LeaveFences(db, w, q, r, fence);
    case AcquireSandbox(w, q, reuse, now, ttl) => AcquireRows(db, w, q, reuse, now, ttl); AcquireFences(db, w, q, reuse, now, ttl, r, fence);
    case DirtySandbox(s, generation, token) => DampIs(db, s, generation, token, 0); DirtyFences(db, s, generation, token, r, fence);
    case RetireSandbox(s, now) => DampIs(db, s, 0, 0, now); RetireFences(db, s, now, r, fence);
  }

  /** The session's fencing token has reached the fence's, and the fence is not current. */
  predicate Passed(db: Db, r: RunId, fence: Artifacts.Fence) {
    && r in db.runs && db.runs[r].session in db.sandboxes
    && fence.token <= db.sandboxes[db.runs[r].session].fence
    && fence !in CurrentFences(db, r)
  }

  lemma PassedStep(db: Db, a: Action, r: RunId, fence: Artifacts.Fence)
    requires Passed(db, r, fence)
    ensures Passed(Next(db, a), r, fence)
  {
    hide Next, TakesFence;
    if AboutLease(a) {
      LeaseFences(db, a, r, fence);
    } else {
      SessionStaysSame(db, a, r);
      OnlyLeaseMovesSandboxes(db, a);
    }
  }

  /** A fence that is lost is lost for ever, so a candidate recorded under it is never published. */
  lemma {:induction false} LostForEver(db: Db, r: RunId, fence: Artifacts.Fence, actions: seq<Action>)
    requires Passed(db, r, fence)
    ensures Passed(Play(db, actions), r, fence)
  {
    hide Next, Passed;
    if actions != [] {
      LostForEver(db, r, fence, actions[..|actions| - 1]);
      PassedStep(Play(db, actions[..|actions| - 1]), actions[|actions| - 1], r, fence);
    }
  }

  /** A fence that was current stays issued: losing it is final. */
  lemma LosingIsFinal(db: Db, a: Action, r: RunId, fence: Artifacts.Fence, actions: seq<Action>)
    requires r in db.runs && fence in CurrentFences(db, r) && TakesFence(db, a, r)
    ensures var later := Play(Next(db, a), actions); r in later.runs && fence !in CurrentFences(later, r)
  {
    assert AboutLease(a);
    hide Next, Play, TakesFence;
    LeaseFences(db, a, r, fence);
    LostForEver(Next(db, a), r, fence, actions);
  }
}
