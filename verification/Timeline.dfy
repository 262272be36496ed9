/** The page's timeline: messages grouped by turn, and stored events merged with live ones. */
module Timeline {
  import opened Wrappers
  import opened Runs
  import opened TurnProtocol
  import opened TurnTheorems
  import EventStore

  // ---- grouping, as a value ---------------------------------------------------------------------------

  datatype Group = Group(run: RunId, messages: seq<Message>)

  function IndexOf(groups: seq<Group>, r: RunId): (i: nat)
    ensures i <= |groups|
    ensures i < |groups| ==> groups[i].run == r
    ensures forall j :: 0 <= j < i ==> groups[j].run != r
  {
    if groups == [] then 0 else if groups[0].run == r then 0 else 1 + IndexOf(groups[1..], r)
  }

  /** Adds the message to its turn's group, which is opened at the end if there is none. */
  function AddTo(groups: seq<Group>, m: Message): seq<Group> {
    var i := IndexOf(groups, m.run);
    if i < |groups| then groups[i := groups[i].(messages := groups[i].messages + [m])]
    else groups + [Group(m.run, [m])]
  }

  function Grouped(messages: seq<Message>): seq<Group> {
    if messages == [] then [] else AddTo(Grouped(messages[..|messages| - 1]), messages[|messages| - 1])
  }

  function WithActive(groups: seq<Group>, active: Option<RunId>): seq<Group> {
    if active.Some? && active.value != "" && IndexOf(groups, active.value) == |groups| then groups + [Group(active.value, [])]
    else groups
  }

  function Flatten(groups: seq<Group>): seq<Message> {
    if groups == [] then [] else Flatten(groups[..|groups| - 1]) + groups[|groups| - 1].messages
  }

  // ---- grouping, in place -------------------------------------------------------------------------------

  /** A group the loop keeps pushing into. */
  class TurnGroup {
    const run: RunId
    var messages: seq<Message>

    constructor (r: RunId)
      ensures run == r && messages == []
    {
      run := r;
      messages := [];
    }
  }

  /** The groups as they stand, in order. */
  ghost predicate Shows(groups: seq<TurnGroup>, view: seq<Group>)
    reads groups
  {
    && |view| == |groups|
    && forall i :: 0 <= i < |groups| ==> view[i] == Group(groups[i].run, groups[i].messages)
  }

  /** The list and the map refer to the same group objects, one for each turn. */
  ghost predicate Shared(groups: seq<TurnGroup>, byRun: map<RunId, TurnGroup>) {
    && (forall i, j :: 0 <= i < j < |groups| ==> groups[i].run != groups[j].run)
    && (forall i :: 0 <= i < |groups| ==> groups[i].run in byRun && byRun[groups[i].run] == groups[i])
    && (forall r :: r in byRun ==> byRun[r] in groups && byRun[r].run == r)
  }

  lemma GroupedNext(messages: seq<Message>, k: nat)
    requires k < |messages|
    ensures Grouped(messages[..k + 1]) == AddTo(Grouped(messages[..k]), messages[k])
  {
    assert messages[..k + 1][..k] == messages[..k];
  }

  /** In a shared list a turn's index is where its group object stands, if it has one. */
  lemma IndexIsShared(groups: seq<TurnGroup>, byRun: map<RunId, TurnGroup>, view: seq<Group>, r: RunId)
    requires Shared(groups, byRun) && Shows(groups, view)
    ensures if r in byRun then IndexOf(view, r) < |view| && groups[IndexOf(view, r)] == byRun[r] else IndexOf(view, r) == |view|
    ensures r in byRun ==> forall i :: 0 <= i < |groups| && i != IndexOf(view, r) ==> groups[i] != byRun[r]
  {
    var i := IndexOf(view, r);
    if r in byRun {
      var j :| 0 <= j < |groups| && groups[j] == byRun[r];
      assert view[j].run == r;
      assert i <= j;
    }
    if i < |view| {
      assert groups[i].run == r;
    }
  }

  method GroupMessagesByTurn(messages: seq<Message>, active: Option<RunId>) returns (groups: seq<TurnGroup>)
    ensures fresh(groups)
    ensures Shows(groups, WithActive(Grouped(messages), active))
  {
    hide Grouped, IndexOf, Shared;
    groups := [];
    var byRun: map<RunId, TurnGroup> := map[];
    ghost var view: seq<Group> := [];
    assert Shared(groups, byRun) by { NothingShared(); }
    assert Grouped([]) == [] by { NothingGrouped(); }
    for k := 0 to |messages|
      invariant fresh(groups) && Shared(groups, byRun)
      invariant Shows(groups, view) && view == Grouped(messages[..k])
    {
      var message := messages[k];
      GroupedNext(messages, k);
      IndexIsShared(groups, byRun, view, message.run);
      ghost var at := IndexOf(view, message.run);
      if message.run in byRun {
        var group := byRun[message.run];
        group.messages := group.messages + [message];
      } else {
        var group := new TurnGroup(message.run);
        NewShared(groups, byRun, view, group);
        byRun := byRun[message.run := group];
        groups := groups + [group];
        group.messages := group.messages + [message];
      }
      view := AddTo(view, message);
    }
    assert messages[..|messages|] == messages;
    if active.Some? && active.value != "" {
      IndexIsShared(groups, byRun, view, active.value);
      if active.value !in byRun {
        var group := new TurnGroup(active.value);
        groups := groups + [group];
      }
    }
  }

  lemma NothingShared()
    ensures Shared([], map[])
  {
  }

  lemma NothingGrouped()
    ensures Grouped([]) == []
  {
  }

  lemma NewShared(groups: seq<TurnGroup>, byRun: map<RunId, TurnGroup>, view: seq<Group>, group: TurnGroup)
    requires Shared(groups, byRun) && Shows(groups, view) && group.run !in byRun
    ensures Shared(groups + [group], byRun[group.run := group])
  {
  }

  // ---- when grouping keeps the order -----------------------------------------------------------------

  /** The messages of each turn stand together. */
  predicate Contiguous(messages: seq<Message>) {
    forall i, j, k :: 0 <= i < j < k < |messages| && messages[i].run == messages[k].run ==> messages[j].run == messages[i].run
  }

  /** Groups of different turns, each holding messages of its own turn only. */
  predicate WellGrouped(groups: seq<Group>) {
    && (forall i, j :: 0 <= i < j < |groups| ==> groups[i].run != groups[j].run)
    && forall i :: 0 <= i < |groups| ==> OwnMessages(groups[i])
  }

  predicate OwnMessages(g: Group) {
    g.messages != [] && forall m :: m in g.messages ==> m.run == g.run
  }

  lemma {:induction false} GroupedIsWellGrouped(messages: seq<Message>)
    ensures WellGrouped(Grouped(messages))
    ensures forall r :: IndexOf(Grouped(messages), r) < |Grouped(messages)| <==> exists m :: m in messages && m.run == r
  {
    if messages != [] {
      var n := |messages| - 1;
      var shorter, m := messages[..n], messages[n];
      GroupedIsWellGrouped(shorter);
      assert messages == shorter + [m];
      var groups := Grouped(shorter);
      var i := IndexOf(groups, m.run);
      var after := AddTo(groups, m);
      forall r ensures IndexOf(after, r) < |after| <==> exists x :: x in messages && x.run == r {
        IndexAfterAdd(groups, m, r);
        if exists x :: x in shorter && x.run == r {
          var x :| x in shorter && x.run == r;
          assert x in messages;
        }
        if m.run == r { assert m in messages; }
      }
    }
  }

  lemma IndexAfterAdd(groups: seq<Group>, m: Message, r: RunId)
    ensures IndexOf(AddTo(groups, m), r) < |AddTo(groups, m)| <==> IndexOf(groups, r) < |groups| || m.run == r
  {
    var after := AddTo(groups, m);
    var i := IndexOf(groups, m.run);
    assert i < |after| && after[i].run == m.run;
    if IndexOf(groups, r) < |groups| {
      assert after[IndexOf(groups, r)].run == r;
    }
    var j := IndexOf(after, r);
    if j < |after| && j < |groups| { assert groups[j].run == r; }
  }

  /** Each group lists its turn's messages in their order. */
  function OfTurn(messages: seq<Message>, r: RunId): seq<Message> {
    if messages == [] then []
    else
      var n := |messages| - 1;
      OfTurn(messages[..n], r) + (if messages[n].run == r then [messages[n]] else [])
  }

  lemma {:induction false} GroupsHoldTheirTurns(messages: seq<Message>)
    ensures forall g :: g in Grouped(messages) ==> g.messages == OfTurn(messages, g.run)
  {
    if messages != [] {
      var n := |messages| - 1;
      var shorter, m := messages[..n], messages[n];
      GroupsHoldTheirTurns(shorter);
      GroupedIsWellGrouped(shorter);
      GroupedIsWellGrouped(messages);
      var groups, after := Grouped(shorter), Grouped(messages);
      var i := IndexOf(groups, m.run);
      forall j | 0 <= j < |after| ensures after[j].messages == OfTurn(messages, after[j].run) {
        if j < |groups| { assert groups[j] in groups; }
        if j == |groups| { NoneOfTurn(shorter, m.run); }
      }
    }
  }

  lemma {:induction false} NoneOfTurn(messages: seq<Message>, r: RunId)
    requires IndexOf(Grouped(messages), r) == |Grouped(messages)|
    ensures OfTurn(messages, r) == []
  {
    GroupedIsWellGrouped(messages);
    NoMessages(messages, r);
  }

  lemma {:induction false} NoMessages(messages: seq<Message>, r: RunId)
    requires forall m :: m in messages ==> m.run != r
    ensures OfTurn(messages, r) == []
  {
    if messages != [] {
      NoMessages(messages[..|messages| - 1], r);
    }
  }

  lemma FlattenUpdatesLast(groups: seq<Group>, m: Message)
    requires groups != []
    ensures var n := |groups| - 1;
            Flatten(groups[n := groups[n].(messages := groups[n].messages + [m])]) == Flatten(groups) + [m]
  {
    var n := |groups| - 1;
    var after := groups[n := groups[n].(messages := groups[n].messages + [m])];
    assert after[..n] == groups[..n];
    assert Flatten(after[..n]) + (groups[n].messages + [m]) == Flatten(groups[..n]) + groups[n].messages + [m];
  }

  lemma AddToLast(groups: seq<Group>, m: Message)
    requires WellGrouped(groups) && groups != []
    requires IndexOf(groups, m.run) < |groups| ==> groups[|groups| - 1].run == m.run
    ensures var after := AddTo(groups, m);
            && after != [] && after[|after| - 1].run == m.run && Flatten(after) == Flatten(groups) + [m]
  {
    var i := IndexOf(groups, m.run);
    if i < |groups| {
      assert i == |groups| - 1;
      hide IndexOf, Flatten, OwnMessages;
      FlattenUpdatesLast(groups, m);
    } else {
      hide Flatten;
      FlattenAppends(groups, Group(m.run, [m]));
    }
  }

  lemma {:induction false} LastGroupIsLastTurn(messages: seq<Message>)
    requires Contiguous(messages) && messages != []
    ensures Grouped(messages) != []
    ensures Grouped(messages)[|Grouped(messages)| - 1].run == messages[|messages| - 1].run
    ensures Flatten(Grouped(messages)) == messages
  {
    hide IndexOf, Flatten, AddTo, Contiguous, WellGrouped;
    var n := |messages| - 1;
    var shorter, m := messages[..n], messages[n];
    assert messages == shorter + [m];
    if n == 0 {
      FirstGroup(m);
      assert messages == [m];
    } else {
      ContiguousInit(messages);
      LastGroupIsLastTurn(shorter);
      GroupedIsWellGrouped(shorter);
      AddToLast(Grouped(shorter), m);
    }
  }

  lemma FirstGroup(m: Message)
    ensures Grouped([m]) == [Group(m.run, [m])] && Flatten([Group(m.run, [m])]) == [m]
  {
    OneGroup(m);
    assert [m][..0] == [];
    assert Grouped([]) == [];
  }

  lemma OneGroup(m: Message)
    ensures Flatten([Group(m.run, [m])]) == [m]
  {
    hide Flatten;
    var none: seq<Group> := [];
    NoGroups();
    FlattenAppends(none, Group(m.run, [m]));
    assert none + [Group(m.run, [m])] == [Group(m.run, [m])];
  }

  lemma NoGroups()
    ensures Flatten([]) == []
  {
  }

  lemma FlattenAppends(groups: seq<Group>, g: Group)
    ensures Flatten(groups + [g]) == Flatten(groups) + g.messages
  {
    assert (groups + [g])[..|groups|] == groups;
  }

  /** The last message's turn was not seen before, or it is the turn of the message right before it. */
  lemma ContiguousInit(messages: seq<Message>)
    requires Contiguous(messages) && |messages| > 1
    ensures var n := |messages| - 1;
            && Contiguous(messages[..n])
            && ((exists m :: m in messages[..n] && m.run == messages[n].run) ==> messages[n - 1].run == messages[n].run)
  {
    var n := |messages| - 1;
    if exists m :: m in messages[..n] && m.run == messages[n].run {
      var m :| m in messages[..n] && m.run == messages[n].run;
      var a :| 0 <= a < n && messages[a] == m;
      assert a < n - 1 ==> messages[n - 1].run == messages[a].run;
    }
  }

  /** In a flattened list of well-formed groups the messages of each turn stand together. */
  lemma {:induction false} FlattenedIsContiguous(groups: seq<Group>)
    requires WellGrouped(groups)
    ensures Contiguous(Flatten(groups))
    ensures forall m :: m in Flatten(groups) ==> exists i :: 0 <= i < |groups| && groups[i].run == m.run
  {
    if groups != [] {
      var n := |groups| - 1;
      var front, back := Flatten(groups[..n]), groups[n].messages;
      FlattenedIsContiguous(groups[..n]);
      assert OwnMessages(groups[n]);
      forall m | m in front ensures m.run != groups[n].run && exists i :: 0 <= i < |groups| && groups[i].run == m.run {
        var i :| 0 <= i < n && groups[..n][i].run == m.run;
        assert groups[i].run == m.run;
      }
      JoinContiguous(front, back, groups[n].run);
      forall m | m in Flatten(groups) ensures exists i :: 0 <= i < |groups| && groups[i].run == m.run {
        if m in back { assert groups[n].run == m.run; }
      }
    }
  }

  lemma JoinContiguous(front: seq<Message>, back: seq<Message>, r: RunId)
    requires Contiguous(front)
    requires forall m :: m in front ==> m.run != r
    requires forall m :: m in back ==> m.run == r
    ensures Contiguous(front + back)
  {
    var all := front + back;
    forall i, j, k | 0 <= i < j < k < |all| && all[i].run == all[k].run ensures all[j].run == all[i].run {
      if k < |front| {
        assert front[i].run == front[k].run;
      } else {
        assert all[k] in back;
        assert all[j] in back;
      }
    }
  }

  /** Showing the groups one after the other shows the transcript unchanged exactly when the messages
      of each turn stand together. */
  lemma GroupingKeepsOrderIff(messages: seq<Message>)
    ensures Flatten(Grouped(messages)) == messages <==> Contiguous(messages)
  {
    if Contiguous(messages) && messages != [] {
      LastGroupIsLastTurn(messages);
    }
    GroupedIsWellGrouped(messages);
    FlattenedIsContiguous(Grouped(messages));
  }

  lemma ActiveAddsNothing(groups: seq<Group>, active: Option<RunId>)
    ensures Flatten(WithActive(groups, active)) == Flatten(groups)
  {
    if active.Some? {
      assert (groups + [Group(active.value, [])])[..|groups|] == groups;
      assert Flatten(groups) + [] == Flatten(groups);
    }
  }

  /** The page never reorders a transcript the protocol has produced. */
  lemma TimelineShowsTheTranscript(db: Db, s: SessionId, active: Option<RunId>)
    requires Reachable(db) && s in db.sessions
    ensures Flatten(WithActive(Grouped(db.sessions[s].messages), active)) == db.sessions[s].messages
  {
    hide Reachable;
    TranscriptsOrdered(db, s);
    var messages := db.sessions[s].messages;
    assert Contiguous(messages);
    GroupingKeepsOrderIff(messages);
    ActiveAddsNothing(Grouped(messages), active);
  }

  // ---- merging events -------------------------------------------------------------------------------------

  /** The event is the last one with its number. */
  predicate Wins(events: seq<Event>, e: Event) {
    exists i :: 0 <= i < |events| && events[i] == e && LastWithNumber(events, i)
  }

  predicate LastWithNumber(events: seq<Event>, i: nat)
    requires i < |events|
  {
    forall j :: i < j < |events| ==> events[j].sequence != events[i].sequence
  }

  /** The sorted list of the winners. */
  ghost predicate Merged(persisted: seq<Event>, live: seq<Event>, merged: seq<Event>) {
    Ascending(merged) && forall e :: e in merged <==> Wins(persisted + live, e)
  }

  /** The map holds the winners among the events set so far. */
  ghost predicate Winners(events: seq<Event>, byNumber: map<nat, Event>) {
    && (forall n :: n in byNumber ==> byNumber[n].sequence == n)
    && forall e: Event :: (e.sequence in byNumber && byNumber[e.sequence] == e) <==> Wins(events, e)
  }

  lemma SetKeepsWinners(events: seq<Event>, byNumber: map<nat, Event>, e: Event)
    requires Winners(events, byNumber)
    ensures Winners(events + [e], byNumber[e.sequence := e])
  {
    var all, after := events + [e], byNumber[e.sequence := e];
    forall x: Event ensures (x.sequence in after && after[x.sequence] == x) <==> Wins(all, x) {
      if x.sequence == e.sequence {
        if x == e { assert all[|events|] == e && LastWithNumber(all, |events|); }
        if Wins(all, x) {
          var i :| 0 <= i < |all| && all[i] == x && LastWithNumber(all, i);
          assert all[|events|].sequence == x.sequence;
        }
      } else {
        WinsAppended(events, e, x);
      }
    }
  }

  lemma WinsAppended(events: seq<Event>, e: Event, x: Event)
    requires x.sequence != e.sequence
    ensures Wins(events + [e], x) <==> Wins(events, x)
  {
    var all := events + [e];
    if Wins(events, x) {
      var i :| 0 <= i < |events| && events[i] == x && LastWithNumber(events, i);
      assert all[i] == x && LastWithNumber(all, i);
    }
    if Wins(all, x) {
      var i :| 0 <= i < |all| && all[i] == x && LastWithNumber(all, i);
      assert i < |events| && events[i] == x;
      forall j | i < j < |events| ensures events[j].sequence != x.sequence {
        assert all[j] == events[j];
      }
      assert LastWithNumber(events, i);
    }
  }

  method MergeRunEvents(persisted: seq<Event>, live: seq<Event>) returns (merged: seq<Event>)
    ensures Merged(persisted, live, merged)
  {
    var byNumber: map<nat, Event> := map[];
    for i := 0 to |persisted|
      invariant Winners(persisted[..i], byNumber)
    {
      SetKeepsWinners(persisted[..i], byNumber, persisted[i]);
      assert persisted[..i] + [persisted[i]] == persisted[..i + 1];
      byNumber := byNumber[persisted[i].sequence := persisted[i]];
    }
    assert persisted[..|persisted|] + live[..0] == persisted;
    assert persisted[..|persisted|] == persisted;
    for i := 0 to |live|
      invariant Winners(persisted + live[..i], byNumber)
    {
      SetKeepsWinners(persisted + live[..i], byNumber, live[i]);
      assert persisted + live[..i] + [live[i]] == persisted + live[..i + 1];
      byNumber := byNumber[live[i].sequence := live[i]];
    }
    assert live[..|live|] == live;
    merged := SortValues(byNumber);
    forall e ensures e in merged <==> Wins(persisted + live, e) {
      assert e in merged <==> e.sequence in byNumber && byNumber[e.sequence] == e;
    }
  }

  /** The map's values in the order of their numbers. */
  method SortValues(byNumber: map<nat, Event>) returns (sorted: seq<Event>)
    requires forall n :: n in byNumber ==> byNumber[n].sequence == n
    ensures Ascending(sorted)
    ensures forall e :: e in sorted <==> e.sequence in byNumber && byNumber[e.sequence] == e
  {
    hide Ascending, EventStore.Below, EventStore.Elements;
    sorted := [];
    var rest := byNumber.Keys;
    assert Ascending(sorted) && forall n :: n in rest ==> EventStore.Below([], n) by { NothingSorted(); }
    while rest != {}
      invariant rest <= byNumber.Keys
      invariant Ascending(sorted)
      invariant forall e :: e in sorted <==> e.sequence in byNumber && e.sequence !in rest && byNumber[e.sequence] == e
      invariant forall n :: n in rest ==> EventStore.Below(sorted, n)
      decreases |rest|
    {
      ghost var smallest := Smallest(rest);
      var n :| n in rest && forall k :: k in rest ==> n <= k;
      EventStore.AppendAscends(sorted, byNumber[n]);
      StillBelow(sorted, byNumber[n], rest - {n});
      sorted := sorted + [byNumber[n]];
      rest := rest - {n};
    }
  }

  lemma NothingSorted()
    ensures Ascending([]) && forall n :: EventStore.Below([], n)
  {
  }

  lemma StillBelow(sorted: seq<Event>, e: Event, rest: set<nat>)
    requires forall n :: n in rest ==> EventStore.Below(sorted, n) && e.sequence < n
    ensures forall n :: n in rest ==> EventStore.Below(sorted + [e], n)
  {
  }

  lemma Smallest(s: set<nat>) returns (n: nat)
    requires s != {}
    ensures n in s && forall k :: k in s ==> n <= k
    decreases |s|
  {
    n :| n in s;
    if s - {n} != {} {
      var m := Smallest(s - {n});
      forall k | k in s ensures (if n < m then n else m) <= k {
        if k != n { assert k in s - {n}; }
      }
      n := if n < m then n else m;
    } else {
      assert s == {n};
    }
  }

  /** When both lists come from one log, merging is their sorted union, in whatever order the two were
      filled and however often events repeat. */
  lemma MergeIsSortedUnion(persisted: seq<Event>, live: seq<Event>, merged: seq<Event>)
    requires Merged(persisted, live, merged) && EventStore.OneLog(persisted + live)
    ensures EventStore.Elements(merged) == EventStore.Elements(persisted) + EventStore.Elements(live)
  {
    var all := persisted + live;
    forall e ensures Wins(all, e) <==> e in persisted || e in live {
      if e in all {
        WinnerOf(all, e.sequence);
        var w :| Wins(all, w) && w.sequence == e.sequence;
        var i :| 0 <= i < |all| && all[i] == w && LastWithNumber(all, i);
        var j :| 0 <= j < |all| && all[j] == e;
        assert all[i] == all[j];
      }
    }
  }

  lemma {:induction false} WinnerOf(events: seq<Event>, n: nat)
    requires EventStore.Known(events, n)
    ensures exists w :: Wins(events, w) && w.sequence == n
  {
    var last := |events| - 1;
    if events[last].sequence == n {
      assert LastWithNumber(events, last);
      assert Wins(events, events[last]);
    } else {
      var i :| 0 <= i < |events| && events[i].sequence == n;
      assert events[..last][i].sequence == n;
      WinnerOf(events[..last], n);
      var w :| Wins(events[..last], w) && w.sequence == n;
      WinsAppended(events[..last], events[last], w);
      assert events[..last] + [events[last]] == events;
    }
  }

  /** A live event replaces the stored one with its number. */
  lemma LiveOverrides(persisted: seq<Event>, live: seq<Event>, merged: seq<Event>, i: nat)
    requires Merged(persisted, live, merged) && i < |live| && LastWithNumber(live, i)
    ensures live[i] in merged
    ensures forall e :: e in merged && e.sequence == live[i].sequence ==> e == live[i]
  {
    var all := persisted + live;
    var at := |persisted| + i;
    assert all[at] == live[i];
    forall j | at < j < |all| ensures all[j].sequence != live[i].sequence {
      assert all[j] == live[j - |persisted|];
    }
    assert LastWithNumber(all, at);
    assert Wins(all, live[i]);
    forall e | e in merged && e.sequence == live[i].sequence ensures e == live[i] {
      EventStore.SameNumberSameEvent(merged, e, live[i]);
    }
  }
}
