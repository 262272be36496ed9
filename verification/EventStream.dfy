/** The server's event stream: it polls the run's status, then its events, while writers go on. */
module EventStream {
  import opened Wrappers
  import opened Runs

  const BATCH_LIMIT: nat := 500

  // ---- what a reader can see ------------------------------------------------------------------------

  /** A run as one short transaction reads it. */
  datatype Snapshot = Snapshot(status: Status, log: seq<Event>)

  /** One round of the stream reads the status in one transaction and the events in a later one. */
  datatype Round = Round(atStatus: Snapshot, atEvents: Snapshot)

  /** What writers may do between two reads: append in ascending order, and once the run has ended
      leave its status alone and append nothing but late events. */
  predicate Follows(a: Snapshot, b: Snapshot) {
    && a.log <= b.log
    && Ascending(b.log)
    && (Terminal(a.status) ==>
          && b.status == a.status
          && forall i :: |a.log| <= i < |b.log| ==> WrittenLate(b.log[i].kind))
  }

  /** The rounds of one connection, each read later than the one before. */
  predicate Advancing(rounds: seq<Round>) {
    && (forall k :: 0 <= k < |rounds| ==> Ascending(rounds[k].atStatus.log) && Follows(rounds[k].atStatus, rounds[k].atEvents))
    && forall k :: 0 < k < |rounds| ==> Follows(rounds[k - 1].atEvents, rounds[k].atStatus)
  }

  // ---- parts of a log ---------------------------------------------------------------------------------

  /** The events with a larger sequence. */
  function After(log: seq<Event>, cursor: int): seq<Event> {
    if log == [] then []
    else
      var n := |log| - 1;
      After(log[..n], cursor) + (if log[n].sequence > cursor then [log[n]] else [])
  }

  /** The events with a sequence above low and at most high. */
  function Between(log: seq<Event>, low: int, high: int): seq<Event> {
    if log == [] then []
    else
      var n := |log| - 1;
      Between(log[..n], low, high) + (if low < log[n].sequence <= high then [log[n]] else [])
  }

  /** The repository's page: the first events after the cursor, in order. */
  function ListAfter(log: seq<Event>, cursor: int, limit: nat): seq<Event> {
    var rest := After(log, cursor);
    if |rest| <= limit then rest else rest[..limit]
  }

  /** The first p events have at most this sequence and the others a larger one. */
  predicate Splits(log: seq<Event>, cursor: int, p: nat) {
    && p <= |log|
    && (forall i :: 0 <= i < p ==> log[i].sequence <= cursor)
    && forall i :: p <= i < |log| ==> log[i].sequence > cursor
  }

  /** Where an ascending log is cut by a cursor. */
  function Position(log: seq<Event>, cursor: int): (p: nat)
    ensures p <= |log|
  {
    if log == [] then 0
    else if log[|log| - 1].sequence <= cursor then |log|
    else Position(log[..|log| - 1], cursor)
  }

  lemma {:induction false} PositionEdges(log: seq<Event>, cursor: int)
    ensures var p := Position(log, cursor);
            (p > 0 ==> log[p - 1].sequence <= cursor) && (p < |log| ==> log[p].sequence > cursor)
  {
    if log != [] && log[|log| - 1].sequence > cursor {
      PositionEdges(log[..|log| - 1], cursor);
    }
  }

  lemma Ordered(log: seq<Event>, i: nat, j: nat)
    requires Ascending(log) && i <= j < |log|
    ensures log[i].sequence <= log[j].sequence && (i < j ==> log[i].sequence < log[j].sequence)
  {
  }

  lemma PositionSplits(log: seq<Event>, cursor: int)
    requires Ascending(log)
    ensures Splits(log, cursor, Position(log, cursor))
  {
    hide Ascending, Position;
    var p := Position(log, cursor);
    PositionEdges(log, cursor);
    forall i | 0 <= i < |log| ensures if i < p then log[i].sequence <= cursor else log[i].sequence > cursor {
      if i < p { Ordered(log, i, p - 1); } else { Ordered(log, p, i); }
    }
  }

  lemma PositionIs(log: seq<Event>, cursor: int, p: nat)
    requires Ascending(log) && p <= |log|
    requires p > 0 ==> log[p - 1].sequence <= cursor
    requires p < |log| ==> log[p].sequence > cursor
    ensures Position(log, cursor) == p
  {
    hide Ascending, Position;
    var q := Position(log, cursor);
    PositionEdges(log, cursor);
    if q < p {
      Ordered(log, q, p - 1);
    } else if p < q {
      Ordered(log, p, q - 1);
    }
  }

  /** An appended tail of larger sequences does not move the position. */
  lemma PositionKept(log: seq<Event>, longer: seq<Event>, cursor: int)
    requires log <= longer && Ascending(longer) && Position(log, cursor) < |log|
    ensures Position(longer, cursor) == Position(log, cursor)
  {
    hide Ascending, Position;
    PositionEdges(log, cursor);
    PositionIs(longer, cursor, Position(log, cursor));
  }

  lemma PrefixSlice<T>(s: seq<T>, n: nat, p: nat, q: nat)
    requires p <= q <= n <= |s|
    ensures s[..n][p..q] == s[p..q]
  {
  }

  lemma JoinSlices<T>(s: seq<T>, a: nat, b: nat, c: nat)
    requires a <= b <= c <= |s|
    ensures s[a..b] + s[b..c] == s[a..c]
  {
  }

  lemma DropThenTake<T>(s: seq<T>, p: nat, n: nat)
    requires p + n <= |s|
    ensures s[p..][..n] == s[p..p + n] && s[p..|s|] == s[p..]
  {
  }

  lemma SamePart<T>(s: seq<T>, longer: seq<T>, p: nat, q: nat)
    requires s <= longer && p <= q <= |s|
    ensures s[p..q] == longer[p..q]
  {
  }

  lemma SplitInit(log: seq<Event>, cursor: int, p: nat)
    requires Splits(log, cursor, p) && log != []
    ensures var n := |log| - 1;
            if p <= n then log[n].sequence > cursor && Splits(log[..n], cursor, p)
            else log[n].sequence <= cursor && p == |log| && Splits(log[..n], cursor, n)
  {
  }

  lemma {:induction false} SplitAfter(log: seq<Event>, cursor: int, p: nat)
    requires Splits(log, cursor, p)
    ensures p <= |log| && After(log, cursor) == log[p..]
  {
    assert p <= |log|;
    if log != [] {
      var n := |log| - 1;
      SplitInit(log, cursor, p);
      hide Splits;
      SplitAfter(log[..n], cursor, if p <= n then p else n);
      if p <= n {
        PrefixSlice(log, n, p, n);
        JoinSlices(log, p, n, n + 1);
        assert log[n..n + 1] == [log[n]];
      }
    }
  }

  lemma {:induction false} SplitBetween(log: seq<Event>, low: int, p: nat, high: int, q: nat)
    requires Splits(log, low, p) && Splits(log, high, q) && p <= q
    ensures q <= |log| && Between(log, low, high) == log[p..q]
  {
    assert q <= |log|;
    if log != [] {
      var n := |log| - 1;
      SplitInit(log, low, p);
      SplitInit(log, high, q);
      hide Splits;
      SplitBetween(log[..n], low, if p <= n then p else n, high, if q <= n then q else n);
      if q <= n {
        PrefixSlice(log, n, p, q);
      } else if p <= n {
        PrefixSlice(log, n, p, n);
        JoinSlices(log, p, n, q);
        assert log[n..q] == [log[n]];
      }
    }
  }

  lemma AfterIsSuffix(log: seq<Event>, cursor: int)
    requires Ascending(log)
    ensures After(log, cursor) == log[Position(log, cursor)..]
  {
    hide Ascending, Splits, Position, After;
    PositionSplits(log, cursor);
    SplitAfter(log, cursor, Position(log, cursor));
  }

  lemma BetweenIsSlice(log: seq<Event>, low: int, high: int)
    requires Ascending(log) && low <= high
    ensures Position(log, low) <= Position(log, high)
    ensures Between(log, low, high) == log[Position(log, low)..Position(log, high)]
  {
    hide Ascending, Splits, Position, Between;
    var p, q := Position(log, low), Position(log, high);
    PositionEdges(log, low);
    PositionEdges(log, high);
    if q < p { Ordered(log, q, p - 1); }
    PositionSplits(log, low);
    PositionSplits(log, high);
    SplitBetween(log, low, p, high, q);
  }

  // ---- the stream -------------------------------------------------------------------------------------

  /** What has been sent, the cursor, and whether the server has closed the stream. */
  datatype Stream = Stream(sent: seq<Event>, last: int, closed: bool)

  function Step(stream: Stream, round: Round): Stream {
    if stream.closed then stream
    else
      var batch := ListAfter(round.atEvents.log, stream.last, BATCH_LIMIT);
      Stream(stream.sent + batch,
             if batch == [] then stream.last else batch[|batch| - 1].sequence,
             Terminal(round.atStatus.status) && |batch| < BATCH_LIMIT)
  }

  function StreamOf(rounds: seq<Round>, cursor: int): Stream {
    if rounds == [] then Stream([], cursor, false)
    else Step(StreamOf(rounds[..|rounds| - 1], cursor), rounds[|rounds| - 1])
  }

  /** The generator, over the rounds it gets to read before the client goes away. */
  method Follow(rounds: seq<Round>, cursor: int) returns (stream: Stream, used: nat)
    ensures used <= |rounds| && stream == StreamOf(rounds[..used], cursor) == StreamOf(rounds, cursor)
    ensures !stream.closed ==> used == |rounds|
  {
    hide ListAfter, Terminal;
    var sent, last, closed := [], cursor, false;
    used := 0;
    while used < |rounds| && !closed
      invariant used <= |rounds|
      invariant Stream(sent, last, closed) == StreamOf(rounds[..used], cursor)
      decreases |rounds| - used
    {
      ghost var before := Stream(sent, last, closed);
      var status := rounds[used].atStatus.status;
      var events := ListAfter(rounds[used].atEvents.log, last, BATCH_LIMIT);
      for i := 0 to |events|
        invariant sent == before.sent + events[..i]
        invariant last == if i == 0 then before.last else events[i - 1].sequence
      {
        sent := sent + [events[i]];
        last := events[i].sequence;
      }
      var drained := |events| < BATCH_LIMIT;
      closed := Terminal(status) && drained;
      assert rounds[..used + 1][..used] == rounds[..used];
      used := used + 1;
    }
    assert rounds[..|rounds|] == rounds;
    if closed { ClosedStays(rounds, cursor, used); }
    return Stream(sent, last, closed), used;
  }

  lemma {:induction false} ClosedStays(rounds: seq<Round>, cursor: int, k: nat)
    requires k <= |rounds| && StreamOf(rounds[..k], cursor).closed
    ensures StreamOf(rounds, cursor) == StreamOf(rounds[..k], cursor)
  {
    if k == |rounds| {
      assert rounds[..k] == rounds;
    } else {
      var shorter := rounds[..|rounds| - 1];
      assert shorter[..k] == rounds[..k];
      ClosedStays(shorter, cursor, k);
    }
  }

  // ---- exactness ----------------------------------------------------------------------------------------

  /** The stream has sent exactly the log between the client's cursor and its own. */
  predicate Exact(stream: Stream, log: seq<Event>, cursor: int) {
    && cursor <= stream.last
    && stream.sent == Between(log, cursor, stream.last)
    && (stream.last == cursor || exists i :: 0 <= i < |log| && log[i].sequence == stream.last)
  }

  lemma BetweenLater(log: seq<Event>, longer: seq<Event>, cursor: int, i: nat)
    requires log <= longer && Ascending(log) && Ascending(longer) && i < |log| && cursor < log[i].sequence
    ensures Between(longer, cursor, log[i].sequence) == Between(log, cursor, log[i].sequence)
  {
    hide Ascending, Between, Position;
    var last := log[i].sequence;
    var p := Position(log, cursor);
    PositionEdges(log, cursor);
    EventAt(log, i);
    EventAt(longer, i);
    BetweenIsSlice(log, cursor, last);
    BetweenIsSlice(longer, cursor, last);
    PositionKept(log, longer, cursor);
    SamePart(log, longer, p, i + 1);
  }

  lemma NothingBetween(log: seq<Event>, cursor: int)
    requires Ascending(log)
    ensures Between(log, cursor, cursor) == []
  {
    hide Ascending, Between, Position;
    BetweenIsSlice(log, cursor, cursor);
  }

  lemma ExactLater(stream: Stream, log: seq<Event>, longer: seq<Event>, cursor: int)
    requires Exact(stream, log, cursor) && log <= longer && Ascending(longer)
    ensures Exact(stream, longer, cursor)
  {
    assert Ascending(log);
    hide Ascending, Between;
    if stream.last != cursor {
      var i :| 0 <= i < |log| && log[i].sequence == stream.last;
      assert longer[i].sequence == stream.last;
      BetweenLater(log, longer, cursor, i);
    } else {
      NothingBetween(log, cursor);
      NothingBetween(longer, cursor);
    }
  }

  lemma EventAt(log: seq<Event>, i: nat)
    requires Ascending(log) && i < |log|
    ensures Position(log, log[i].sequence) == i + 1
  {
    PositionIs(log, log[i].sequence, i + 1);
  }

  /** A page read behind the cursor is the next stretch of the log. */
  lemma PageIsSlice(log: seq<Event>, cursor: int, limit: nat)
    requires Ascending(log)
    ensures var p, batch := Position(log, cursor), ListAfter(log, cursor, limit);
            && p + |batch| <= |log| && batch == log[p..p + |batch|]
            && (|batch| < limit ==> p + |batch| == |log|)
            && (batch != [] ==>
                  && log[p].sequence > cursor
                  && log[p + |batch| - 1] == batch[|batch| - 1]
                  && Position(log, batch[|batch| - 1].sequence) == p + |batch|)
  {
    hide Ascending, After, Position;
    AfterIsSuffix(log, cursor);
    var p, batch := Position(log, cursor), ListAfter(log, cursor, limit);
    DropThenTake(log, p, |batch|);
    if batch != [] {
      assert log[p + |batch| - 1] == batch[|batch| - 1];
      PositionEdges(log, cursor);
      EventAt(log, p + |batch| - 1);
    }
  }

  lemma PageExtends(log: seq<Event>, cursor: int, last: int, batch: seq<Event>)
    requires Ascending(log) && cursor <= last && batch == ListAfter(log, last, BATCH_LIMIT) && batch != []
    ensures var next := batch[|batch| - 1].sequence;
            && last < next && Between(log, cursor, next) == Between(log, cursor, last) + batch
            && exists i :: 0 <= i < |log| && log[i].sequence == next
  {
    hide Ascending, Between, After, Position, ListAfter;
    var from, p := Position(log, cursor), Position(log, last);
    PageIsSlice(log, last, BATCH_LIMIT);
    var next := batch[|batch| - 1].sequence;
    Ordered(log, p, p + |batch| - 1);
    BetweenIsSlice(log, cursor, last);
    BetweenIsSlice(log, cursor, next);
    JoinSlices(log, from, p, p + |batch|);
  }

  lemma LastPage(log: seq<Event>, cursor: int, last: int, batch: seq<Event>)
    requires Ascending(log) && cursor <= last && batch == ListAfter(log, last, BATCH_LIMIT) && |batch| < BATCH_LIMIT
    ensures Between(log, cursor, last) + batch == After(log, cursor)
  {
    hide Ascending, Between, After, Position, ListAfter;
    var from, p := Position(log, cursor), Position(log, last);
    PageIsSlice(log, last, BATCH_LIMIT);
    AfterIsSuffix(log, cursor);
    BetweenIsSlice(log, cursor, last);
    JoinSlices(log, from, p, |log|);
  }

  /** One round keeps the output exact, whatever was appended since the last one. */
  lemma StepExact(stream: Stream, round: Round, cursor: int)
    requires !stream.closed && Exact(stream, round.atEvents.log, cursor) && Ascending(round.atEvents.log)
    ensures Exact(Step(stream, round), round.atEvents.log, cursor)
    ensures Step(stream, round).closed ==> Step(stream, round).sent == After(round.atEvents.log, cursor)
  {
    hide Ascending, Between, After, Position, ListAfter;
    var log := round.atEvents.log;
    var batch := ListAfter(log, stream.last, BATCH_LIMIT);
    if batch != [] { PageExtends(log, cursor, stream.last, batch); }
    if |batch| < BATCH_LIMIT { LastPage(log, cursor, stream.last, batch); }
    assert batch == [] ==> stream.sent + batch == stream.sent;
  }

  function LastLog(rounds: seq<Round>): seq<Event> {
    if rounds == [] then [] else rounds[|rounds| - 1].atEvents.log
  }

  /** For every interleaving of writers with the two reads, the output is the log after the client's
      cursor up to the stream's own, in order, with no gap and no repeat. */
  lemma {:induction false} AlwaysExact(rounds: seq<Round>, cursor: int)
    requires Advancing(rounds)
    ensures Exact(StreamOf(rounds, cursor), LastLog(rounds), cursor)
  {
    if rounds == [] {
      assert StreamOf(rounds, cursor) == Stream([], cursor, false);
    } else {
      hide Exact, Step, Ascending;
      var n := |rounds| - 1;
      AlwaysExact(rounds[..n], cursor);
      ExactBefore(rounds, cursor);
      if StreamOf(rounds[..n], cursor).closed {
        ClosedStep(StreamOf(rounds[..n], cursor), rounds[n]);
      } else {
        FollowsAscends(rounds[n]);
        StepExact(StreamOf(rounds[..n], cursor), rounds[n], cursor);
      }
    }
  }

  lemma ClosedStep(stream: Stream, round: Round)
    requires stream.closed
    ensures Step(stream, round) == stream
  {
  }

  /** When the stream closes, the run had ended before the last page was read and that page was the
      end of the log; whatever the log holds later and the client never got was written late. */
  lemma {:induction false} ClosesOnlyWhenDone(rounds: seq<Round>, cursor: int, now: Snapshot)
    requires Advancing(rounds) && StreamOf(rounds, cursor).closed
    requires Follows(rounds[|rounds| - 1].atEvents, now)
    ensures exists k :: 0 <= k < |rounds| && Terminal(rounds[k].atStatus.status)
                        && StreamOf(rounds, cursor).sent == After(rounds[k].atEvents.log, cursor)
    ensures var missed := After(now.log, StreamOf(rounds, cursor).last);
            && After(now.log, cursor) == StreamOf(rounds, cursor).sent + missed
            && forall i :: 0 <= i < |missed| ==> WrittenLate(missed[i].kind)
  {
    var n := |rounds| - 1;
    var shorter := rounds[..n];
    if StreamOf(shorter, cursor).closed {
      assert rounds[n - 1] == shorter[|shorter| - 1];
      ThroughRound(rounds[n - 1].atEvents, rounds[n], now);
      ClosesOnlyWhenDone(shorter, cursor, now);
      var k :| 0 <= k < |shorter| && Terminal(shorter[k].atStatus.status)
               && StreamOf(shorter, cursor).sent == After(shorter[k].atEvents.log, cursor);
      assert rounds[k] == shorter[k];
    } else {
      AlwaysExact(shorter, cursor);
      ExactBefore(rounds, cursor);
      StepExact(StreamOf(shorter, cursor), rounds[n], cursor);
      MissedIsLate(StreamOf(rounds, cursor), rounds[n].atEvents, now, cursor);
    }
  }

  lemma ExactBefore(rounds: seq<Round>, cursor: int)
    requires Advancing(rounds) && rounds != []
    requires Exact(StreamOf(rounds[..|rounds| - 1], cursor), LastLog(rounds[..|rounds| - 1]), cursor)
    ensures Exact(StreamOf(rounds[..|rounds| - 1], cursor), LastLog(rounds), cursor)
  {
    hide Exact, StreamOf, Ascending;
    var n := |rounds| - 1;
    FollowsAscends(rounds[n]);
    assert LastLog(rounds[..n]) <= rounds[n].atEvents.log by {
      if n > 0 { assert Follows(rounds[n - 1].atEvents, rounds[n].atStatus); }
    }
    ExactLater(StreamOf(rounds[..n], cursor), LastLog(rounds[..n]), rounds[n].atEvents.log, cursor);
  }

  lemma ThroughRound(a: Snapshot, round: Round, now: Snapshot)
    requires Follows(a, round.atStatus) && Follows(round.atStatus, round.atEvents) && Follows(round.atEvents, now)
    ensures Follows(a, now)
  {
  }

  lemma MissedIsLate(stream: Stream, read: Snapshot, now: Snapshot, cursor: int)
    requires Ascending(read.log) && Follows(read, now) && Terminal(read.status)
    requires Exact(stream, read.log, cursor) && stream.sent == After(read.log, cursor)
    ensures var missed := After(now.log, stream.last);
            && After(now.log, cursor) == stream.sent + missed
            && forall i :: 0 <= i < |missed| ==> WrittenLate(missed[i].kind)
  {
    hide Ascending, Between, After, Position;
    ExactLater(stream, read.log, now.log, cursor);
    AfterIsSuffix(read.log, cursor);
    AfterIsSuffix(now.log, cursor);
    AfterIsSuffix(now.log, stream.last);
    BetweenIsSlice(read.log, cursor, stream.last);
    BetweenIsSlice(now.log, cursor, stream.last);
    var p, q := Position(now.log, cursor), Position(now.log, stream.last);
    assert now.log[p..q] + now.log[q..] == now.log[p..];
    if q < |read.log| {
      PositionKept(now.log, now.log, stream.last);
      EndReached(read.log, now.log, stream.last, cursor);
    }
  }

  /** When everything behind the cursor was sent, the stream's own cursor is at the end of the log. */
  lemma EndReached(log: seq<Event>, longer: seq<Event>, last: int, cursor: int)
    requires Ascending(log) && Ascending(longer) && log <= longer && cursor <= last
    requires Between(log, cursor, last) == After(log, cursor)
    ensures Position(longer, last) >= |log|
  {
    hide Ascending, Between, After, Position;
    AfterIsSuffix(log, cursor);
    BetweenIsSlice(log, cursor, last);
    assert |log[Position(log, cursor)..]| == |log[Position(log, cursor)..Position(log, last)]|;
    var p := Position(longer, last);
    PositionEdges(longer, last);
    if p < |log| {
      PositionIs(log, last, p);
    }
  }

  // ---- closing in time ----------------------------------------------------------------------------------

  /** Once the run has been seen ended and nothing more is written, the stream closes after exactly
      the remaining full pages and one page that is not full. */
  lemma {:induction false} ClosesInTime(rounds: seq<Round>, cursor: int, k: nat, remaining: nat)
    requires Advancing(rounds) && k < |rounds| && !StreamOf(rounds[..k], cursor).closed
    requires Terminal(rounds[k].atStatus.status)
    requires forall j :: k <= j < |rounds| ==> rounds[j].atEvents.log == rounds[k].atEvents.log
    requires remaining == |After(rounds[k].atEvents.log, StreamOf(rounds[..k], cursor).last)|
    requires k + remaining / BATCH_LIMIT + 1 <= |rounds|
    ensures StreamOf(rounds[..k + remaining / BATCH_LIMIT + 1], cursor).closed
    ensures !StreamOf(rounds[..k + remaining / BATCH_LIMIT], cursor).closed
    decreases remaining
  {
    hide Ascending, Position, After, Follows;
    var log := rounds[k].atEvents.log;
    var before := StreamOf(rounds[..k], cursor);
    assert rounds[..k + 1][..k] == rounds[..k];
    var after := StreamOf(rounds[..k + 1], cursor);
    assert Ascending(log) by { assert Follows(rounds[k].atStatus, rounds[k].atEvents); FollowsAscends(rounds[k]); }
    PageIsSlice(log, before.last, BATCH_LIMIT);
    AfterIsSuffix(log, before.last);
    if remaining >= BATCH_LIMIT {
      AfterIsSuffix(log, after.last);
      EndedStays(rounds, k);
      ClosesInTime(rounds, cursor, k + 1, remaining - BATCH_LIMIT);
    }
  }

  lemma FollowsAscends(round: Round)
    requires Follows(round.atStatus, round.atEvents)
    ensures Ascending(round.atEvents.log)
  {
  }

  lemma EndedStays(rounds: seq<Round>, k: nat)
    requires Advancing(rounds) && k < |rounds| && Terminal(rounds[k].atStatus.status)
    ensures k + 1 < |rounds| ==> Terminal(rounds[k + 1].atStatus.status)
  {
    if k + 1 < |rounds| {
      assert Follows(rounds[k].atEvents, rounds[k + 1].atStatus);
    }
  }

  // ---- why this order -----------------------------------------------------------------------------------

  /** Had the events been read before the status, the stream could close without the event that ended
      the run: a round whose page is read before the run succeeds and whose status is read after. */
  lemma OtherOrderLosesTheEnd()
    ensures exists round: Round ::
              && Ascending(round.atEvents.log) && Follows(round.atEvents, round.atStatus)
              && var stream := Step(Stream([], 0, false), round);
                 && stream.closed
                 && exists i :: 0 <= i < |round.atStatus.log| && round.atStatus.log[i] !in stream.sent
                                && ClosesStream(round.atStatus.log[i].kind)
  {
    var early := Snapshot(Running, [Event(1, RunCreated)]);
    var late := Snapshot(Succeeded, [Event(1, RunCreated), Event(2, TurnSucceeded)]);
    var round := Round(late, early);
    PageOfOne(Event(1, RunCreated));
    hide ListAfter;
    assert Step(Stream([], 0, false), round).sent == early.log;
    assert late.log[1] !in early.log && ClosesStream(late.log[1].kind);
  }

  lemma PageOfOne(e: Event)
    requires e.sequence > 0
    ensures ListAfter([e], 0, BATCH_LIMIT) == [e]
  {
    assert [e][..0] == [];
    assert After([], 0) == [];
    assert After([e], 0) == [] + [e];
  }
}
