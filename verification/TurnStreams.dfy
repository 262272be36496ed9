/** The event stream of an agent turn: what the protocol writes meets what the stream assumes. */
module TurnStreams {
  import opened Runs
  import opened TurnProtocol
  import opened TurnInvariant
  import opened TurnTheorems
  import opened TurnEnd
  import ES = EventStream
  import EventStore

  function SnapshotOf(db: Db, r: RunId): ES.Snapshot
    requires r in db.runs
  {
    ES.Snapshot(db.runs[r].status, db.runs[r].events)
  }

  lemma LogAscends(db: Db, r: RunId)
    requires Reachable(db) && r in db.runs
    ensures Ascending(db.runs[r].events) && EventStore.Positive(db.runs[r].events)
    ensures LogSound(db.runs[r].events, db.runs[r].nextEvent, db.runs[r].status)
  {
    hide Reachable;
    ReachableSound(db);
    hide RunPlaced, SessionSound, SightSound, RowsSound, LogFits, BudgetReported;
    assert RunSound(db.runs[r]);
  }

  /** Whatever is appended after a turn has ended is a late event. */
  lemma {:induction false} OnlyLateAfterEnd(db: Db, actions: seq<Action>, r: RunId)
    requires r in db.runs && Terminal(db.runs[r].status)
    ensures r in Play(db, actions).runs && db.runs[r].events <= Play(db, actions).runs[r].events
    ensures Play(db, actions).runs[r].status == db.runs[r].status
    ensures var later := Play(db, actions).runs[r].events;
            forall i :: |db.runs[r].events| <= i < |later| ==> WrittenLate(later[i].kind)
  {
    if actions != [] {
      var n := |actions| - 1;
      var middle := Play(db, actions[..n]);
      OnlyLateAfterEnd(db, actions[..n], r);
      LateStep(middle, actions[n], r);
      hide Next, Play;
    }
  }

  /** Two reads of a turn, with any transactions between them, are as the stream assumes. */
  lemma LaterReadFollows(db: Db, actions: seq<Action>, r: RunId)
    requires Reachable(db) && r in db.runs
    ensures r in Play(db, actions).runs
    ensures ES.Follows(SnapshotOf(db, r), SnapshotOf(Play(db, actions), r))
  {
    hide Reachable, LogSound, Ascending, Play;
    EveryRunEvolves(db, actions);
    ReachablePlay(db, actions);
    LogAscends(Play(db, actions), r);
    if Terminal(db.runs[r].status) { OnlyLateAfterEnd(db, actions, r); }
  }

  /** A stream's rounds over a run of the protocol: the k-th read happens when cuts[k] transactions
      have committed. */
  ghost predicate ReadDuring(rounds: seq<ES.Round>, r: RunId, actions: seq<Action>, cuts: seq<nat>) {
    && |cuts| == 2 * |rounds|
    && (forall i :: 0 <= i < |cuts| ==> cuts[i] <= |actions| && r in Play(EMPTY_DB, actions[..cuts[i]]).runs)
    && (forall i :: 0 < i < |cuts| ==> cuts[i - 1] <= cuts[i])
    && (forall k :: 0 <= k < |rounds| ==>
          && rounds[k].atStatus == SnapshotOf(Play(EMPTY_DB, actions[..cuts[2 * k]]), r)
          && rounds[k].atEvents == SnapshotOf(Play(EMPTY_DB, actions[..cuts[2 * k + 1]]), r))
  }

  lemma ReadsFollow(actions: seq<Action>, i: nat, j: nat, r: RunId)
    requires i <= j <= |actions| && r in Play(EMPTY_DB, actions[..i]).runs
    ensures r in Play(EMPTY_DB, actions[..j]).runs
    ensures ES.Follows(SnapshotOf(Play(EMPTY_DB, actions[..i]), r), SnapshotOf(Play(EMPTY_DB, actions[..j]), r))
    ensures Ascending(Play(EMPTY_DB, actions[..i]).runs[r].events)
  {
    hide ES.Follows, Ascending, LogSound;
    var db := Play(EMPTY_DB, actions[..i]);
    assert Reachable(db);
    PlaySplits(EMPTY_DB, actions[..i], actions[i..j]);
    assert actions[..i] + actions[i..j] == actions[..j];
    hide Play, Reachable;
    LaterReadFollows(db, actions[i..j], r);
    LogAscends(db, r);
  }

  /** Every stream over an agent turn satisfies the stream theorems' hypothesis, so its output is exact and
      it misses nothing but late events when it closes. */
  lemma TurnStreamsAdvance(rounds: seq<ES.Round>, r: RunId, actions: seq<Action>, cuts: seq<nat>)
    requires ReadDuring(rounds, r, actions, cuts)
    ensures ES.Advancing(rounds)
  {
    hide Play, ES.Follows, Ascending;
    forall k | 0 <= k < |rounds|
      ensures Ascending(rounds[k].atStatus.log) && ES.Follows(rounds[k].atStatus, rounds[k].atEvents)
    {
      assert cuts[2 * k + 1 - 1] <= cuts[2 * k + 1];
      ReadsFollow(actions, cuts[2 * k], cuts[2 * k + 1], r);
    }
    forall k | 0 < k < |rounds| ensures ES.Follows(rounds[k - 1].atEvents, rounds[k].atStatus) {
      assert cuts[2 * k - 1] <= cuts[2 * k];
      assert rounds[k - 1].atEvents == SnapshotOf(Play(EMPTY_DB, actions[..cuts[2 * (k - 1) + 1]]), r);
      ReadsFollow(actions, cuts[2 * k - 1], cuts[2 * k], r);
    }
  }

  /** The page of a turn closes exactly when the turn has ended: a page that has caught up with the log is
      closed if and only if the turn's status is terminal. */
  lemma PageClosesExactlyAtTheEnd(db: Db, r: RunId, client: EventStore.Client)
    requires Reachable(db) && r in db.runs
    requires EventStore.Caught(client, db.runs[r].events, |db.runs[r].events|)
             || (client.state.closed && exists p :: EventStore.Caught(client, db.runs[r].events, p))
    ensures client.state.closed <==> Terminal(db.runs[r].status)
  {
    LogAscends(db, r);
    hide Reachable, ES.Follows;
    var events, status := db.runs[r].events, db.runs[r].status;
    hide Dense, BudgetReported, Ascending, EventStore.Listened;
    assert LogFits(events, status);
    if Terminal(status) {
      var k: nat :| EndsAt(events, status, k);
      assert ClosesStream(events[k].kind);
    }
  }
}
