/** The browser's side of the event stream: the fold over received events, and reconnecting. */
module EventStore {
  import opened Wrappers
  import opened Runs
  import ES = EventStream

  // ---- the fold -------------------------------------------------------------------------------------

  datatype StreamState = StreamState(events: seq<Event>, lastSequence: int, closed: bool)

  const EMPTY_STATE := StreamState([], 0, false)

  /** Where a sorted list takes a new element. */
  function InsertSorted(events: seq<Event>, e: Event): seq<Event> {
    if events == [] then [e]
    else if events[|events| - 1].sequence < e.sequence then events + [e]
    else InsertSorted(events[..|events| - 1], e) + [events[|events| - 1]]
  }

  predicate Known(events: seq<Event>, sequence: int) {
    exists i :: 0 <= i < |events| && events[i].sequence == sequence
  }

  function ApplyEvent(state: StreamState, e: Event): StreamState {
    if Known(state.events, e.sequence) then state
    else StreamState(InsertSorted(state.events, e),
                     if state.lastSequence < e.sequence then e.sequence else state.lastSequence,
                     state.closed || ClosesStream(e.kind))
  }

  function Fold(delivered: seq<Event>): StreamState {
    if delivered == [] then EMPTY_STATE else ApplyEvent(Fold(delivered[..|delivered| - 1]), delivered[|delivered| - 1])
  }

  /** Deliveries come from one log: the same number always carries the same event. */
  predicate OneLog(delivered: seq<Event>) {
    forall i, j :: 0 <= i < |delivered| && 0 <= j < |delivered| && delivered[i].sequence == delivered[j].sequence
      ==> delivered[i] == delivered[j]
  }

  function Elements(events: seq<Event>): set<Event> {
    set e | e in events
  }

  predicate Below(events: seq<Event>, sequence: int) {
    forall i :: 0 <= i < |events| ==> events[i].sequence < sequence
  }

  lemma AppendAscends(events: seq<Event>, e: Event)
    requires Ascending(events) && Below(events, e.sequence)
    ensures Ascending(events + [e]) && Elements(events + [e]) == Elements(events) + {e}
  {
  }

  lemma LastBounds(events: seq<Event>, sequence: int)
    requires Ascending(events) && (events != [] ==> events[|events| - 1].sequence < sequence)
    ensures Below(events, sequence)
  {
  }

  lemma InitOf(events: seq<Event>)
    requires Ascending(events) && events != []
    ensures var n := |events| - 1;
            && Ascending(events[..n]) && Below(events[..n], events[n].sequence)
            && Elements(events) == Elements(events[..n]) + {events[n]}
            && forall s :: Known(events[..n], s) ==> Known(events, s)
  {
    var n := |events| - 1;
    assert events == events[..n] + [events[n]];
    forall s | Known(events[..n], s) ensures Known(events, s) {
      var i :| 0 <= i < n && events[..n][i].sequence == s;
      assert events[i].sequence == s;
    }
  }

  lemma {:induction false} InsertBelow(events: seq<Event>, e: Event, sequence: int)
    requires Below(events, sequence) && e.sequence < sequence
    ensures Below(InsertSorted(events, e), sequence)
  {
    if events != [] {
      InsertBelow(events[..|events| - 1], e, sequence);
    }
  }

  lemma {:induction false} InsertKeepsOrder(events: seq<Event>, e: Event)
    requires Ascending(events) && !Known(events, e.sequence)
    ensures Ascending(InsertSorted(events, e))
    ensures Elements(InsertSorted(events, e)) == Elements(events) + {e}
  {
    if events == [] {
      AppendAscends([], e);
      assert [] + [e] == [e];
    } else {
      var n := |events| - 1;
      var last := events[n];
      assert last.sequence != e.sequence;
      InitOf(events);
      hide Ascending, Known, Elements, Below;
      if last.sequence < e.sequence {
        LastBounds(events, e.sequence);
        AppendAscends(events, e);
      } else {
        InsertKeepsOrder(events[..n], e);
        InsertBelow(events[..n], e, last.sequence);
        AppendAscends(InsertSorted(events[..n], e), last);
      }
    }
  }

  /** The greatest sequence delivered, or zero. */
  predicate Greatest(delivered: seq<Event>, top: int) {
    && (forall e :: e in delivered ==> e.sequence <= top)
    && (top == 0 || Known(delivered, top))
    && top >= 0
  }

  predicate SomeCloses(delivered: seq<Event>) {
    exists i :: 0 <= i < |delivered| && ClosesStream(delivered[i].kind)
  }

  /** The fold keeps each delivered event once, in ascending order, with the greatest sequence as cursor,
      and is closed exactly when a closing event was delivered. */
  lemma {:induction false} FoldKeepsEach(delivered: seq<Event>)
    requires OneLog(delivered)
    ensures var state := Fold(delivered);
            && Ascending(state.events) && Elements(state.events) == Elements(delivered)
            && Greatest(delivered, state.lastSequence)
            && (state.closed <==> SomeCloses(delivered))
  {
    if delivered != [] {
      var n := |delivered| - 1;
      var shorter, e := delivered[..n], delivered[n];
      assert delivered == shorter + [e];
      FoldKeepsEach(shorter);
      var before := Fold(shorter);
      assert Elements(delivered) == Elements(shorter) + {e};
      if Known(before.events, e.sequence) {
        var i :| 0 <= i < |before.events| && before.events[i].sequence == e.sequence;
        assert before.events[i] in Elements(shorter);
        var j :| 0 <= j < n && shorter[j] == before.events[i];
        assert delivered[j] == delivered[n];
        CloserGrows(shorter, e, j);
      } else {
        InsertKeepsOrder(before.events, e);
        CloserAppends(shorter, e);
      }
      GreatestAppends(shorter, e, before.lastSequence);
    }
  }

  lemma CloserGrows(shorter: seq<Event>, e: Event, j: nat)
    requires j < |shorter| && shorter[j] == e
    ensures SomeCloses(shorter + [e]) <==> SomeCloses(shorter)
  {
    CloserAppends(shorter, e);
  }

  lemma CloserAppends(shorter: seq<Event>, e: Event)
    ensures SomeCloses(shorter + [e]) <==> SomeCloses(shorter) || ClosesStream(e.kind)
  {
    var all := shorter + [e];
    if SomeCloses(shorter) {
      var i :| 0 <= i < |shorter| && ClosesStream(shorter[i].kind);
      assert all[i] == shorter[i];
    }
    if ClosesStream(e.kind) { assert all[|shorter|] == e; }
  }

  lemma GreatestAppends(shorter: seq<Event>, e: Event, top: int)
    requires Greatest(shorter, top)
    ensures Greatest(shorter + [e], if top < e.sequence then e.sequence else top)
  {
    var all := shorter + [e];
    if Known(shorter, top) {
      var i :| 0 <= i < |shorter| && shorter[i].sequence == top;
      assert all[i].sequence == top;
    }
    assert all[|shorter|] == e;
  }

  /** Two ascending lists of the same events are the same list. */
  lemma {:induction false} AscendingIsUnique(a: seq<Event>, b: seq<Event>)
    requires Ascending(a) && Ascending(b) && Elements(a) == Elements(b)
    ensures a == b
  {
    NoElements(a);
    NoElements(b);
    if a != [] {
      var m, n := |a| - 1, |b| - 1;
      LastIsGreatest(a, b);
      LastIsGreatest(b, a);
      assert a == a[..m] + [a[m]] && b == b[..n] + [b[n]];
      assert Elements(a[..m]) == Elements(a) - {a[m]} by { InitElements(a); }
      assert Elements(b[..n]) == Elements(b) - {b[n]} by { InitElements(b); }
      AscendingIsUnique(a[..m], b[..n]);
    }
  }

  lemma NoElements(a: seq<Event>)
    ensures Elements(a) == {} <==> a == []
  {
    if a != [] { assert a[0] in Elements(a); }
  }

  lemma InitElements(a: seq<Event>)
    requires Ascending(a) && a != []
    ensures Elements(a[..|a| - 1]) == Elements(a) - {a[|a| - 1]}
  {
    var m := |a| - 1;
    forall e | e in Elements(a) && e != a[m] ensures e in Elements(a[..m]) {
      var i :| 0 <= i < |a| && a[i] == e;
      assert a[..m][i] == e;
    }
    forall e | e in Elements(a[..m]) ensures e in Elements(a) && e != a[m] {
      var i :| 0 <= i < m && a[..m][i] == e;
      assert a[i].sequence < a[m].sequence;
    }
  }

  lemma LastIsGreatest(a: seq<Event>, b: seq<Event>)
    requires Ascending(a) && Ascending(b) && Elements(a) == Elements(b) && a != [] && b != []
    ensures a[|a| - 1] == b[|b| - 1]
  {
    var x, y := a[|a| - 1], b[|b| - 1];
    assert x in Elements(b) && y in Elements(a);
    var i :| 0 <= i < |b| && b[i] == x;
    var j :| 0 <= j < |a| && a[j] == y;
    assert i < |b| - 1 ==> x.sequence < y.sequence;
    assert j < |a| - 1 ==> y.sequence < x.sequence;
  }

  /** Order and repetition of the deliveries make no difference. */
  lemma DeliveryOrderIsInvisible(a: seq<Event>, b: seq<Event>)
    requires OneLog(a) && OneLog(b) && Elements(a) == Elements(b)
    ensures Fold(a) == Fold(b)
  {
    FoldKeepsEach(a);
    FoldKeepsEach(b);
    AscendingIsUnique(Fold(a).events, Fold(b).events);
    SameElements(a, b);
    SameElements(b, a);
  }

  lemma SameElements(a: seq<Event>, b: seq<Event>)
    requires Elements(a) == Elements(b)
    ensures SomeCloses(a) ==> SomeCloses(b)
    ensures forall top :: Greatest(a, top) ==> Greatest(b, top)
  {
    forall i | 0 <= i < |a| ensures exists j :: 0 <= j < |b| && b[j] == a[i] {
      assert a[i] in Elements(b);
    }
    forall e | e in b ensures e in a {
      assert e in Elements(a);
    }
    if SomeCloses(a) {
      var i :| 0 <= i < |a| && ClosesStream(a[i].kind);
      var j :| 0 <= j < |b| && b[j] == a[i];
      assert ClosesStream(b[j].kind);
    }
    forall top | Greatest(a, top) ensures Greatest(b, top) {
      if Known(a, top) {
        var i :| 0 <= i < |a| && a[i].sequence == top;
        var j :| 0 <= j < |b| && b[j] == a[i];
        assert b[j].sequence == top;
      }
    }
  }

  // ---- reconnecting -----------------------------------------------------------------------------------

  /** The page's state together with the identifiers of all frames the browser has received, whether or not the
      page listens for their type. */
  datatype Client = Client(state: StreamState, received: set<int>)

  const FRESH_CLIENT := Client(EMPTY_STATE, {})

  /** One frame arrives; after a closing event the page has closed its stream and hears no more. */
  function Receive(client: Client, e: Event): Client {
    if client.state.closed then client
    else Client(if Subscribed(e.kind) then ApplyEvent(client.state, e) else client.state, client.received + {e.sequence})
  }

  function ReceiveAll(client: Client, frames: seq<Event>): Client {
    if frames == [] then client
    else Receive(ReceiveAll(client, frames[..|frames| - 1]), frames[|frames| - 1])
  }

  /** One connection: the server replays the log after the cursor, and the connection lasts for some number of
      frames. */
  datatype Connection = Connection(cursor: int, log: seq<Event>, frames: nat)

  function Connect(client: Client, c: Connection): Client {
    var replay := ES.After(c.log, c.cursor);
    ReceiveAll(client, if c.frames < |replay| then replay[..c.frames] else replay)
  }

  function ConnectAll(connections: seq<Connection>): Client {
    if connections == [] then FRESH_CLIENT
    else Connect(ConnectAll(connections[..|connections| - 1]), connections[|connections| - 1])
  }

  /** Each connection reads a log that continues the one before and resumes from the start or from any identifier
      received by then: the browser's last one, or an earlier one, so that frames come again. */
  predicate Continuing(connections: seq<Connection>) {
    && (forall k :: 0 <= k < |connections| ==>
          connections[k].cursor == 0 || connections[k].cursor in ConnectAll(connections[..k]).received)
    && (forall k :: 0 <= k < |connections| ==> Ascending(connections[k].log) && Positive(connections[k].log))
    && forall k :: 0 < k < |connections| ==> connections[k - 1].log <= connections[k].log
  }

  predicate Positive(log: seq<Event>) {
    forall i :: 0 <= i < |log| ==> log[i].sequence > 0
  }

  function Listened(log: seq<Event>): seq<Event> {
    if log == [] then []
    else
      var n := |log| - 1;
      Listened(log[..n]) + (if Subscribed(log[n].kind) then [log[n]] else [])
  }

  function Numbers(log: seq<Event>): set<int> {
    set e | e in log :: e.sequence
  }

  /** Having received the first p events of the log and nothing else. */
  predicate Caught(client: Client, log: seq<Event>, p: nat) {
    && p <= |log|
    && client.state.events == Listened(log[..p])
    && client.received == Numbers(log[..p])
    && (client.state.closed ==> p > 0 && ClosesStream(log[p - 1].kind))
    && (forall i :: 0 <= i < p - 1 ==> !ClosesStream(log[i].kind))
    && (!client.state.closed && p > 0 ==> !ClosesStream(log[p - 1].kind))
  }

  lemma {:induction false} ListenedPart(log: seq<Event>)
    requires Ascending(log)
    ensures Ascending(Listened(log))
    ensures forall e :: e in Listened(log) <==> e in log && Subscribed(e.kind)
  {
    if log != [] {
      var n := |log| - 1;
      ListenedPart(log[..n]);
      assert log == log[..n] + [log[n]];
      forall e | e in Listened(log[..n]) ensures e.sequence < log[n].sequence {
        assert e in log[..n];
      }
    }
  }

  lemma ListenedNext(log: seq<Event>, p: nat)
    requires p < |log|
    ensures Listened(log[..p + 1]) == Listened(log[..p]) + (if Subscribed(log[p].kind) then [log[p]] else [])
  {
    assert log[..p + 1][..p] == log[..p];
  }

  /** What was heard of a log's beginning comes before the next event. */
  lemma HeardBelow(log: seq<Event>, p: nat)
    requires Ascending(log) && p < |log|
    ensures Below(Listened(log[..p]), log[p].sequence)
  {
    assert Ascending(log[..p]);
    ListenedPart(log[..p]);
    var heard := Listened(log[..p]);
    forall i | 0 <= i < |heard| ensures heard[i].sequence < log[p].sequence {
      assert heard[i] in log[..p];
    }
  }

  lemma ApplyNext(state: StreamState, e: Event)
    requires Below(state.events, e.sequence)
    ensures ApplyEvent(state, e).events == state.events + [e]
    ensures ApplyEvent(state, e).closed == (state.closed || ClosesStream(e.kind))
  {
    assert !Known(state.events, e.sequence);
  }

  lemma ReceiveNext(client: Client, log: seq<Event>, p: nat)
    requires Ascending(log) && Caught(client, log, p) && p < |log| && !client.state.closed
    ensures Caught(Receive(client, log[p]), log, p + 1)
  {
    assert ClosesStream(log[p].kind) ==> Subscribed(log[p].kind);
    assert Numbers(log[..p + 1]) == Numbers(log[..p]) + {log[p].sequence} by { assert log[..p + 1] == log[..p] + [log[p]]; }
    hide Ascending, Listened, Below, ApplyEvent, Subscribed, ClosesStream, Numbers;
    ListenedNext(log, p);
    HeardBelow(log, p);
    ApplyNext(client.state, log[p]);
  }

  /** A frame that comes again changes nothing. */
  lemma ReceiveAgain(client: Client, log: seq<Event>, p: nat, i: nat)
    requires Ascending(log) && Caught(client, log, p) && i < p
    ensures Receive(client, log[i]) == client
  {
    var part := log[..p];
    assert part[i] == log[i] && log[i] in part && Ascending(part);
    assert client.received + {log[i].sequence} == client.received;
    hide Numbers;
    if Subscribed(log[i].kind) {
      ListenedPart(part);
      var j :| 0 <= j < |Listened(part)| && Listened(part)[j] == log[i];
      hide Listened;
      assert Known(client.state.events, log[i].sequence);
    }
  }

  /** Frames from any position up to where the page is on to any later one. */
  lemma {:induction false} ReceiveFrom(client: Client, log: seq<Event>, p: nat, from: nat, q: nat) returns (r: nat)
    requires Ascending(log) && Caught(client, log, p) && from <= p && from <= q <= |log|
    ensures p <= r <= (if p < q then q else p) && Caught(ReceiveAll(client, log[from..q]), log, r)
    ensures !ReceiveAll(client, log[from..q]).state.closed && p <= q ==> r == q
    decreases q
  {
    hide Caught, Ascending;
    if from == q {
      r := p;
    } else {
      r := ReceiveFrom(client, log, p, from, q - 1);
      assert log[from..q][..q - from - 1] == log[from..q - 1] && log[from..q][q - from - 1] == log[q - 1];
      var before := ReceiveAll(client, log[from..q - 1]);
      if q - 1 < r {
        ReceiveAgain(before, log, r, q - 1);
      } else if !before.state.closed {
        ReceiveNext(before, log, q - 1);
        r := q;
      }
    }
  }

  lemma ReplayStarts(client: Client, log: seq<Event>, p: nat, cursor: int) returns (from: nat)
    requires Ascending(log) && Positive(log) && Caught(client, log, p)
    requires cursor == 0 || cursor in client.received
    ensures from <= p && ES.After(log, cursor) == log[from..]
  {
    hide Listened, ClosesStream;
    if cursor == 0 {
      from := 0;
    } else {
      var e :| e in log[..p] && e.sequence == cursor;
      var i :| 0 <= i < p && log[i] == e;
      from := i + 1;
      if from < |log| { ES.Ordered(log, i, from); }
    }
    hide Ascending;
    ES.PositionIs(log, cursor, from);
    ES.AfterIsSuffix(log, cursor);
  }

  lemma CaughtLater(client: Client, log: seq<Event>, longer: seq<Event>, p: nat)
    requires Caught(client, log, p) && log <= longer
    ensures Caught(client, longer, p)
  {
    assert longer[..p] == log[..p];
    assert forall i :: 0 <= i < p ==> longer[i] == log[i];
  }

  function LatestLog(connections: seq<Connection>): seq<Event> {
    if connections == [] then [] else connections[|connections| - 1].log
  }

  lemma ContinuingInit(connections: seq<Connection>)
    requires Continuing(connections) && connections != []
    ensures var n := |connections| - 1;
            && Continuing(connections[..n])
            && Ascending(connections[n].log) && Positive(connections[n].log)
            && LatestLog(connections[..n]) <= connections[n].log
            && (connections[n].cursor == 0 || connections[n].cursor in ConnectAll(connections[..n]).received)
  {
    hide ConnectAll, Ascending, Positive;
    var n := |connections| - 1;
    if n > 0 { assert connections[n - 1].log <= connections[n].log; }
    assert forall k :: 0 <= k < n ==> connections[..n][..k] == connections[..k];
  }

  lemma {:induction false} CaughtAfter(connections: seq<Connection>) returns (p: nat)
    requires Continuing(connections)
    ensures Caught(ConnectAll(connections), LatestLog(connections), p)
  {
    if connections == [] {
      p := 0;
    } else {
      hide Caught, Ascending, Positive, Continuing, Connect;
      var n := |connections| - 1;
      ContinuingInit(connections);
      var before := CaughtAfter(connections[..n]);
      CaughtLater(ConnectAll(connections[..n]), LatestLog(connections[..n]), connections[n].log, before);
      p := ConnectIsExact(ConnectAll(connections[..n]), connections[n], before);
    }
  }

  /** Across any reconnects from any received cursor, each dropped after any number of frames while the log grows and
      frames come again, the page holds exactly the listened-for events of some beginning of the log, and that
      beginning ends with the first closing event if the page has closed and holds none otherwise. */
  lemma ReconnectsAreExact(connections: seq<Connection>)
    requires Continuing(connections)
    ensures exists p :: Caught(ConnectAll(connections), LatestLog(connections), p)
  {
    var p := CaughtAfter(connections);
  }

  lemma ConnectIsExact(client: Client, c: Connection, before: nat) returns (p: nat)
    requires Ascending(c.log) && Positive(c.log) && Caught(client, c.log, before)
    requires c.cursor == 0 || c.cursor in client.received
    ensures Caught(Connect(client, c), c.log, p)
  {
    hide Caught, Ascending, Positive, ReceiveAll, ES.After, Connect;
    var from := ReplayStarts(client, c.log, before, c.cursor);
    var to := PartSent(client, c, from) by { assert from <= |c.log| by { CaughtFits(client, c.log, before); } }
    p := ReceiveFrom(client, c.log, before, from, to);
  }

  lemma CaughtFits(client: Client, log: seq<Event>, p: nat)
    requires Caught(client, log, p)
    ensures p <= |log|
  {
  }

  /** The frames of a connection are a part of the log. */
  lemma PartSent(client: Client, c: Connection, from: nat) returns (to: nat)
    requires from <= |c.log| && ES.After(c.log, c.cursor) == c.log[from..]
    ensures from <= to <= |c.log| && Connect(client, c) == ReceiveAll(client, c.log[from..to])
  {
    hide ES.After, ReceiveAll;
    to := if c.frames < |c.log| - from then from + c.frames else |c.log|;
    assert c.log[from..to] == if c.frames < |c.log[from..]| then c.log[from..][..c.frames] else c.log[from..];
  }

  /** However the listened-for events of a log's beginning are delivered, in any order and with any
      repetition, the page ends up with exactly them, sorted. */
  lemma AnyDeliveryOfAPart(delivered: seq<Event>, log: seq<Event>, p: nat)
    requires Ascending(log) && p <= |log|
    requires Elements(delivered) == Elements(Listened(log[..p]))
    ensures Fold(delivered).events == Listened(log[..p])
  {
    var part := Listened(log[..p]);
    assert Ascending(log[..p]);
    ListenedPart(log[..p]);
    assert OneLog(delivered) by {
      forall i, j | 0 <= i < |delivered| && 0 <= j < |delivered| && delivered[i].sequence == delivered[j].sequence
        ensures delivered[i] == delivered[j]
      {
        assert delivered[i] in Elements(part) && delivered[j] in Elements(part);
        SameNumberSameEvent(part, delivered[i], delivered[j]);
      }
    }
    FoldKeepsEach(delivered);
    AscendingIsUnique(Fold(delivered).events, part);
  }

  lemma SameNumberSameEvent(events: seq<Event>, a: Event, b: Event)
    requires Ascending(events) && a in events && b in events && a.sequence == b.sequence
    ensures a == b
  {
    var i :| 0 <= i < |events| && events[i] == a;
    var j :| 0 <= j < |events| && events[j] == b;
    assert i < j ==> a.sequence < b.sequence;
    assert j < i ==> b.sequence < a.sequence;
  }

  /** A turn cancelled by its executor logs two closing events; the page closes on the first, so the
      second never reaches it. */
  lemma SecondClosingEventUnseen(connections: seq<Connection>, k: nat)
    requires Continuing(connections) && k + 1 < |LatestLog(connections)|
    requires LatestLog(connections)[k].kind.RunCancelled? && LatestLog(connections)[k + 1].kind.TurnCancelled?
    ensures LatestLog(connections)[k + 1] !in ConnectAll(connections).state.events
  {
    hide Caught, Continuing, Ascending, ConnectAll, Listened;
    var log := LatestLog(connections);
    var p := CaughtAfter(connections);
    assert Ascending(log) by { LatestAscends(connections); }
    CaughtBefore(ConnectAll(connections), log, p, k);
    HeardBelowLater(log, p, k + 1);
  }

  lemma LatestAscends(connections: seq<Connection>)
    requires Continuing(connections) && LatestLog(connections) != []
    ensures Ascending(LatestLog(connections))
  {
    hide ConnectAll, Ascending;
  }

  lemma CaughtBefore(client: Client, log: seq<Event>, p: nat, k: nat)
    requires Caught(client, log, p) && k < |log| && ClosesStream(log[k].kind)
    ensures p <= k + 1 && client.state.events == Listened(log[..p])
  {
    hide Listened, ClosesStream;
  }

  lemma HeardBelowLater(log: seq<Event>, p: nat, k: nat)
    requires Ascending(log) && p <= k < |log|
    ensures log[k] !in Listened(log[..p])
  {
    HeardBelow(log, p);
    ES.Ordered(log, p, k);
    hide Ascending, Listened;
  }

  // ---- Last-Event-ID ------------------------------------------------------------------------------------

  /** What the header can be: absent or empty, not an integer, or an integer. */
  datatype LastEventId = Absent | Malformed | Number(value: int)

  /** The cursor a stream starts from; None is the answer 400. */
  function CursorOf(header: LastEventId): (cursor: Option<nat>)
  {
    match header
    case Absent => Some(0)
    case Malformed => None
    case Number(n) => if n < 0 then None else Some(n)
  }

  /** Reconnecting with the identifier of the last frame continues right behind it. */
  lemma ResumesBehindLastFrame(log: seq<Event>, i: nat)
    requires Ascending(log) && i < |log|
    ensures CursorOf(Number(log[i].sequence)).Some?
    ensures ES.After(log, CursorOf(Number(log[i].sequence)).value) == log[i + 1..]
    ensures ES.After(log, -1) == log
  {
    hide Ascending, ES.After, ES.Position;
    ES.EventAt(log, i);
    ES.AfterIsSuffix(log, log[i].sequence);
    ES.AfterIsSuffix(log, -1);
    ES.PositionEdges(log, -1);
  }
}
