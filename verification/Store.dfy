/** The database and the repositories' statements inside one transaction. */
module Store {
  import opened Wrappers
  import opened Runs
  import opened TurnProtocol
  import Artifacts
  import Ledger

  class Database {
    var state: Db

    constructor ()
      ensures state == EMPTY_DB
    {
      state := EMPTY_DB;
    }
  }

  /** A unit of work: statements change `work`, and nothing reaches the database before Commit. A
      service that returns without committing has rolled back. */
  class Transaction {
    const database: Database
    var work: Db

    constructor (d: Database)
      ensures database == d && work == d.state
    {
      database := d;
      work := d.state;
    }

    method Commit()
      modifies database
      ensures database.state == work
    {
      database.state := work;
    }

    /** Frees the session if this run still holds it; says whether it did. */
    method ReleaseActiveTurn(s: SessionId, r: RunId) returns (released: bool)
      modifies `work
      ensures released == Holds(old(work), s, r)
      ensures work == Release(old(work), s, r)
    {
      released := s in work.sessions && work.sessions[s].active == Some(r);
      if released {
        work := work.(sessions := work.sessions[s := work.sessions[s].(active := None)]);
      }
    }

    /** Takes the session for the run if nobody holds it; says whether it did. */
    method TryClaimActiveTurn(s: SessionId, r: RunId) returns (claimed: bool)
      modifies `work
      ensures claimed <==> s in old(work).sessions && old(work).sessions[s].active.None?
      ensures work == if claimed then old(work).(sessions := old(work).sessions[s := old(work).sessions[s].(active := Some(r))])
                      else old(work)
    {
      claimed := s in work.sessions && work.sessions[s].active.None?;
      if claimed {
        work := work.(sessions := work.sessions[s := work.sessions[s].(active := Some(r))]);
      }
    }

    /** The sandbox fence under which the run works right now. */
    method CurrentFences(r: RunId) returns (fences: set<Artifacts.Fence>)
      requires r in work.runs
      ensures fences == TurnProtocol.CurrentFences(work, r)
    {
      var s := work.runs[r].session;
      fences := {};
      if s in work.sandboxes {
        var box := work.sandboxes[s];
        if box.holder == r && box.status.Active? { fences := {Artifacts.Fence(box.generation, box.fence)}; }
      }
    }

    method AllocateMessageSequence(s: SessionId) returns (sequence: nat)
      requires s in work.sessions
      modifies `work
      ensures sequence == old(work).sessions[s].nextMessage
      ensures work == old(work).(sessions := old(work).sessions[s := old(work).sessions[s].(nextMessage := sequence + 1)])
    {
      sequence := work.sessions[s].nextMessage;
      work := work.(sessions := work.sessions[s := work.sessions[s].(nextMessage := sequence + 1)]);
    }

    method AddMessage(s: SessionId, m: Message)
      requires s in work.sessions
      modifies `work
      ensures work == old(work).(sessions := old(work).sessions[s :=
                                   old(work).sessions[s].(messages := old(work).sessions[s].messages + [m])])
    {
      var row := work.sessions[s];
      work := work.(sessions := work.sessions[s := row.(messages := row.messages + [m])]);
    }

    /** Inserts or replaces the rows of a run. */
    method SaveRun(r: RunId, run: Run)
      modifies `work
      ensures work == WithRun(old(work), r, run)
    {
      work := work.(runs := work.runs[r := run]);
    }

    /** The unique index on (run, sequence) refuses a number that is taken. */
    method AddEvent(r: RunId, sequence: nat, kind: Kind) returns (added: bool)
      requires r in work.runs
      modifies `work
      ensures added <==> forall e :: e in old(work).runs[r].events ==> e.sequence != sequence
      ensures work == if added then WithEvent(old(work), r, Event(sequence, kind)) else old(work)
    {
      var run := work.runs[r];
      added := forall e :: e in run.events ==> e.sequence != sequence;
      if added {
        SaveRun(r, run.(events := run.events + [Event(sequence, kind)]));
      }
    }

    /** Conditional on the status only; the new event counter is whatever the caller computed. */
    method UpdateStatus(r: RunId, expected: Status, to: Status, nextEvent: nat) returns (updated: bool)
      modifies `work
      ensures updated == Is(old(work), r, expected)
      ensures work == if updated then WithRun(old(work), r, old(work).runs[r].(status := to, nextEvent := nextEvent))
                      else old(work)
    {
      updated := r in work.runs && work.runs[r].status == expected;
      if updated {
        SaveRun(r, work.runs[r].(status := to, nextEvent := nextEvent));
      }
    }

    method SaveControl(s: SessionId, c: Control)
      modifies `work
      ensures work == old(work).(controls := old(work).controls[s := c])
    {
      work := work.(controls := work.controls[s := c]);
    }

    /** Appends under the run's row lock, with the number the row has now and whatever its status is. */
    method AppendEvent(r: RunId, kind: Kind)
      requires r in work.runs
      modifies `work
      ensures work == WithRun(old(work), r, Noted(old(work).runs[r], kind))
    {
      var run := work.runs[r];
      var sequence := run.nextEvent;
      assert run.events + [Event(sequence, kind)] == run.events + Numbered(sequence, [kind]);
      SaveRun(r, run.(events := run.events + [Event(sequence, kind)], nextEvent := sequence + 1));
    }

    method AddReceipt(slot: (OwnerId, Key), receipt: Receipt) returns (added: bool)
      modifies `work
      ensures added <==> slot !in old(work).receipts
      ensures work == if added then old(work).(receipts := old(work).receipts[slot := receipt]) else old(work)
    {
      added := slot !in work.receipts;
      if added {
        work := work.(receipts := work.receipts[slot := receipt]);
      }
    }
  }

  function WithEvent(db: Db, r: RunId, e: Event): Db
    requires r in db.runs
  {
    WithRun(db, r, db.runs[r].(events := db.runs[r].events + [e]))
  }

  /** The work after events of these kinds were added with consecutive numbers from sequence on. */
  function WithEvents(db: Db, r: RunId, sequence: nat, kinds: seq<Kind>): Db
    requires r in db.runs
  {
    WithRun(db, r, db.runs[r].(events := db.runs[r].events + Numbered(sequence, kinds)))
  }

  /** Every number from sequence on is free. */
  ghost predicate Free(db: Db, r: RunId, sequence: nat)
    requires r in db.runs
  {
    forall e :: e in db.runs[r].events ==> e.sequence < sequence
  }

  lemma MoreEvents(db: Db, r: RunId, sequence: nat, kinds: seq<Kind>, more: seq<Kind>)
    requires r in db.runs
    ensures WithEvents(WithEvents(db, r, sequence, kinds), r, sequence + |kinds|, more)
            == WithEvents(db, r, sequence, kinds + more)
  {
    assert db.runs[r].events + Numbered(sequence, kinds) + Numbered(sequence + |kinds|, more)
        == db.runs[r].events + Numbered(sequence, kinds + more);
  }

  lemma OneEvent(db: Db, r: RunId, sequence: nat, kind: Kind)
    requires r in db.runs
    ensures WithEvent(db, r, Event(sequence, kind)) == WithEvents(db, r, sequence, [kind])
  {
    assert [Event(sequence, kind)] == Numbered(sequence, [kind]);
  }

  lemma StillFree(db: Db, r: RunId, sequence: nat, kinds: seq<Kind>)
    requires r in db.runs && Free(db, r, sequence)
    ensures Free(WithEvents(db, r, sequence, kinds), r, sequence + |kinds|)
  {
  }
}
