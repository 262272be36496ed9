/** The browser control and the external tools as transactions in the order the code issues its statements, each proved
    equal to its step of the protocol. */
module ControlServices {
  import opened Wrappers
  import opened Runs
  import opened TurnProtocol
  import opened TurnInvariant
  import opened TurnTheorems
  import opened TurnEnd
  import opened TurnMoves
  import opened TurnSessions
  import TurnTables
  import opened TurnAnswers
  import opened Store
  import TurnServices
  import Ledger

  class BrowserControlService {
    const database: Database

    constructor (d: Database)
      ensures database == d
    {
      database := d;
    }

    /** Saves the control and appends its event to the log of the run it is anchored to. */
    method SaveWithEvent(tx: Transaction, s: SessionId, c: Control)
      requires c.anchor in tx.work.runs
      modifies tx
      ensures tx.work == TurnProtocol.SaveControl(old(tx.work), s, c)
    {
      hide Noted;
      tx.SaveControl(s, c);
      tx.AppendEvent(c.anchor, BrowserControl);
    }

    /** The control the caller has then, or none for an exception. */
    method Start(actor: OwnerId, s: SessionId, refused: bool, signingKey: Key, now: int, ttl: int) returns (control: Option<Control>)
      requires Anchored(database.state)
      modifies database
      ensures database.state == Take(old(database.state), actor, s, refused, signingKey, now, ttl)
      ensures control.Some? <==> TakesBrowser(old(database.state), TakeBrowser(actor, s, refused, signingKey, now, ttl), s)
      ensures control.Some? ==> s in database.state.controls && control.value == database.state.controls[s]
    {
      hide TurnProtocol.SaveControl, Anchored;
      ghost var before := database.state;
      var tx := new Transaction(database);
      if !Visible(tx.work, s, actor) || refused {
        return None;
      }
      var active := tx.work.sessions[s].active;
      if active.Some? {
        if active.value in tx.work.runs && !Terminal(tx.work.runs[active.value].status) {
          return None;
        }
        var _ := tx.ReleaseActiveTurn(s, active.value);
      }
      assert tx.work == Vacated(before, s);
      VacatedFrame(before, s);
      if !SandboxAvailable(tx.work, s, now) {
        return None;
      }
      HolderKnown(before, s);
      hide Vacated;
      if s in tx.work.controls && tx.work.controls[s].status.Manual? {
        var current := tx.work.controls[s];
        if Fits(tx.work, s, current) && Live(current, now) && current.signedWith == signingKey {
          tx.Commit();
          return Some(current);
        }
        SaveWithEvent(tx, s, current.(status := Expired));
        SaveControlFramed(Vacated(before, s), s, current.(status := Expired));
      }
      if ttl <= 0 {
        return None;
      }
      var box := tx.work.sandboxes[s];
      var revision := if s in tx.work.controls then tx.work.controls[s].revision + 1 else 1;
      var begun := Control(box.holder, box.generation, box.fence, Manual, revision,
                           Min(box.expiresAt, now + Min(ttl, MAX_CONTROL_SECONDS)), signingKey);
      SavedIs(tx.work, s, begun);
      SaveWithEvent(tx, s, begun);
      tx.Commit();
      return Some(begun);
    }

    method Get(actor: OwnerId, s: SessionId, now: int) returns (current: Option<Control>)
      requires Anchored(database.state)
      modifies database
      ensures database.state == Peek(old(database.state), actor, s, now)
      ensures current == if Visible(old(database.state), s, actor) && s in old(database.state).controls && s in database.state.controls
                         then Some(database.state.controls[s]) else None
    {
      hide TurnProtocol.SaveControl, Anchored;
      var tx := new Transaction(database);
      if !Visible(tx.work, s, actor) || s !in tx.work.controls {
        return None;
      }
      AnchorKnown(tx.work, s);
      var row := tx.work.controls[s];
      if row.status.Manual? && !(Fits(tx.work, s, row) && Live(row, now)) {
        row := row.(status := Expired);
        SaveControlFramed(tx.work, s, row);
        SaveWithEvent(tx, s, row);
        tx.Commit();
      }
      return Some(row);
    }

    method End(actor: OwnerId, s: SessionId, now: int) returns (current: Option<Control>)
      requires Anchored(database.state)
      modifies database
      ensures database.state == Hand(old(database.state), actor, s, now)
      ensures current == if Visible(old(database.state), s, actor) && s in old(database.state).controls && s in database.state.controls
                         then Some(database.state.controls[s]) else None
    {
      hide TurnProtocol.SaveControl, Anchored;
      var tx := new Transaction(database);
      if !Visible(tx.work, s, actor) || s !in tx.work.controls {
        return None;
      }
      AnchorKnown(tx.work, s);
      var row := tx.work.controls[s];
      if row.status.Manual? {
        row := row.(status := if Fits(tx.work, s, row) && Live(row, now) then Ended else Expired);
        SavedIs(tx.work, s, row);
        SaveWithEvent(tx, s, row);
      }
      tx.Commit();
      return Some(row);
    }
  }

  lemma SavedIs(db: Db, s: SessionId, c: Control)
    ensures var db' := TurnProtocol.SaveControl(db, s, c); s in db'.controls && db'.controls[s] == c
  {
    hide Noted;
  }

  lemma AnchorKnown(db: Db, s: SessionId)
    requires Anchored(db) && s in db.controls
    ensures db.controls[s].anchor in db.runs
  {
    hide RunTracked, WasClaimed, SandboxPlaced;
    assert ControlPlaced(db, s);
  }

  lemma HolderKnown(db: Db, s: SessionId)
    requires Anchored(db)
    ensures s in db.sandboxes ==> db.sandboxes[s].holder in db.runs
    ensures s in db.controls ==> db.controls[s].anchor in db.runs
  {
    hide RunTracked, WasClaimed;
    if s in db.sandboxes { assert SandboxPlaced(db, s); }
    if s in db.controls { assert ControlPlaced(db, s); }
  }

  class McpToolExecutionService {
    const database: Database

    constructor (d: Database)
      ensures database == d
    {
      database := d;
    }

    /** The effect's row, its event and the run's counter in one conditional update. */
    method SaveWithEvent(tx: Transaction, r: RunId, id: EffectId, effect: Effect, kind: Kind)
      requires Inv(tx.work) && r in tx.work.runs
      modifies tx
      ensures tx.work == WithRun(old(tx.work), r, Noted(WithEffect(old(tx.work).runs[r], id, effect), kind))
    {
      hide Inv;
      TurnServices.CounterFree(tx.work, r);
      var run := tx.work.runs[r];
      tx.SaveRun(r, WithEffect(run, id, effect));
      var added := tx.AddEvent(r, run.nextEvent, kind);
      var updated := tx.UpdateStatus(r, run.status, run.status, run.nextEvent + 1);
      assert added && updated;
      assert run.events + [Event(run.nextEvent, kind)] == run.events + Numbered(run.nextEvent, [kind]);
    }

    /** Starts a call; a result that is known is given again, and a call in flight or failed for good is refused. */
    method Begin(r: RunId, invocation: string, tool: string, arguments: string) returns (reply: CallReply)
      requires Inv(database.state)
      modifies database
      ensures database.state == if r !in old(database.state).runs then old(database.state)
                                else WithRun(old(database.state), r, Begun(old(database.state).runs[r], Invocation(invocation), tool, arguments))
      ensures reply == BeginReply(old(database.state), r, Invocation(invocation), tool, arguments)
    {
      hide Inv, Noted, Ledger.Blank;
      var id := Invocation(invocation);
      if r in database.state.runs { SameRun(database.state, r); }
      if !CallValid(id, tool) || r !in database.state.runs {
        return CallReply.Refused;
      }
      var tx := new Transaction(database);
      var run := tx.work.runs[r];
      if tool !in run.ledger.policy.externalTools || !run.status.Running? {
        return CallReply.Refused;
      }
      if id in run.effects {
        var existing := run.effects[id];
        if existing.tool != tool || existing.arguments != arguments {
          return CallReply.Refused;
        }
        match existing.status
        case Done(answer) => return Known(answer);
        case InFlight => return CallReply.Refused;
        case Broken(kind) =>
          if !kind.Temporary? {
            return CallReply.Refused;
          }
          SaveWithEvent(tx, r, id, existing.(status := InFlight, attempt := existing.attempt + 1), ToolProgress);
      } else {
        if |run.effects| >= run.ledger.policy.maxToolCalls {
          return CallReply.Refused;
        }
        SaveWithEvent(tx, r, id, Effect(tool, arguments, InFlight, 1), ToolProgress);
      }
      tx.Commit();
      return Took;
    }

    method Succeed(r: RunId, invocation: string, tool: string, arguments: string, answer: string) returns (reply: CallReply)
      requires Inv(database.state)
      modifies database
      ensures database.state == if r !in old(database.state).runs then old(database.state)
                                else WithRun(old(database.state), r,
                                             Finished(old(database.state).runs[r], Invocation(invocation), tool, arguments, 0, answer))
      ensures reply == FinishReply(old(database.state), r, Invocation(invocation), tool, arguments, 0, answer)
    {
      hide Inv, Noted, Ledger.Blank;
      var id := Invocation(invocation);
      if r in database.state.runs { SameRun(database.state, r); }
      if !CallValid(id, tool) || r !in database.state.runs {
        return CallReply.Refused;
      }
      var tx := new Transaction(database);
      var run := tx.work.runs[r];
      if tool !in run.ledger.policy.externalTools || !run.status.Running? || id !in run.effects {
        return CallReply.Refused;
      }
      var current := run.effects[id];
      if current.tool != tool || current.arguments != arguments {
        return CallReply.Refused;
      }
      if current.status.Done? {
        return if current.status.result == answer then Known(answer) else CallReply.Refused;
      }
      if !current.status.InFlight? {
        return CallReply.Refused;
      }
      SaveWithEvent(tx, r, id, current.(status := EffectStatus.Done(answer)), ToolProgress);
      tx.Commit();
      return Took;
    }

    /** Nothing asks for the run's status here. */
    method Fail(r: RunId, invocation: string, tool: string, arguments: string, e: ToolError)
      requires Inv(database.state)
      modifies database
      ensures database.state == if r !in old(database.state).runs then old(database.state)
                                else WithRun(old(database.state), r,
                                             FailedCall(old(database.state).runs[r], Invocation(invocation), tool, arguments, 0, e))
    {
      hide Inv, Noted, Ledger.Blank;
      var id := Invocation(invocation);
      if r in database.state.runs { SameRun(database.state, r); }
      if !CallValid(id, tool) || r !in database.state.runs {
        return;
      }
      var tx := new Transaction(database);
      var run := tx.work.runs[r];
      if tool !in run.ledger.policy.externalTools || id !in run.effects {
        return;
      }
      var current := run.effects[id];
      if current.tool != tool || current.arguments != arguments || !current.status.InFlight? || !ErrorFits(e) {
        return;
      }
      SaveWithEvent(tx, r, id, current.(status := Broken(e.kind)), ToolFailed);
      tx.Commit();
    }
  }

  lemma SameRun(db: Db, r: RunId)
    requires r in db.runs
    ensures WithRun(db, r, db.runs[r]) == db
  {
    assert db.runs[r := db.runs[r]] == db.runs;
  }
}
