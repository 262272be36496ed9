/** What each step of an upload is answered, what a post refers to, and that every transaction under way can be finished. */
module AttachmentAnswers {
  import opened Wrappers
  import opened Attachments

  // ---- uploads ----------------------------------------------------------------------------------------------

  /** The step of upload u that looks for the key of this attachment. */
  predicate AsksFor(s: State, a: Action, u: UploadId, wanted: Attachment) {
    match a
    case Begin(v, owner, key, request) => v == u && u !in s.uploads && wanted == Attachment(Id(owner, request.session, key), request, Available)
    case Recheck(v) => v == u && u in s.uploads && s.uploads[u] == Stored(wanted)
    case Insert(v) => v == u && u in s.uploads && s.uploads[u] == Rechecked(wanted)
    case _ => false
  }

  /** The row under the key of the attachment. */
  predicate KeyRow(s: State, id: Id, wanted: Attachment) {
    id in s.rows && id.owner == wanted.id.owner && id.key == wanted.id.key
  }

  function AnswerTo(wanted: Attachment, answer: Answer): Upload {
    Answered(wanted.id.owner, wanted.id.key, answer)
  }

  lemma ByKeyIs(s: State, id: Id, wanted: Attachment)
    requires RowsSound(s) && KeyRow(s, id, wanted)
    ensures HasKey(s, wanted.id.owner, wanted.id.key) && ByKey(s, wanted.id.owner, wanted.id.key) == id
    ensures s.rows[id].id == id && s.rows[id].request.session == id.session
  {
    assert HasKey(s, wanted.id.owner, wanted.id.key);
  }

  /** A key that is taken answers: the row if it holds the same request, and else a conflict. Only the first two steps look
      whether the session is there. Nothing but the upload itself changes. */
  lemma TakenKeyAnswers(s: State, a: Action, u: UploadId, wanted: Attachment, id: Id)
    requires Inv(s) && AsksFor(s, a, u, wanted) && KeyRow(s, id, wanted)
    ensures var answer := if !a.Insert? && !Visible(s, wanted.id.session, wanted.id.owner) then SessionMissing
                          else if s.rows[id].request == wanted.request then Uploaded(s.rows[id], true) else Conflict;
            Next(s, a) == s.(uploads := s.uploads[u := AnswerTo(wanted, answer)])
  {
    assert RowsSound(s) && (u in s.uploads ==> UploadSound(s, s.uploads[u]));
    hide Inv;
    ByKeyIs(s, id, wanted);
    hide HasKey, ByKey, RowsSound, Held;
  }

  lemma KeyRowIff(s: State, wanted: Attachment)
    ensures HasKey(s, wanted.id.owner, wanted.id.key) <==> exists id :: KeyRow(s, id, wanted)
  {
    if id :| KeyRow(s, id, wanted) {
      assert id in s.rows && id.owner == wanted.id.owner && id.key == wanted.id.key;
    }
    if HasKey(s, wanted.id.owner, wanted.id.key) {
      var id :| id in s.rows && id.owner == wanted.id.owner && id.key == wanted.id.key;
      assert KeyRow(s, id, wanted);
    }
  }

  /** A key that is free: the upload goes on, and its insert makes the row. */
  lemma FreeKeyGoesOn(s: State, a: Action, u: UploadId, wanted: Attachment)
    requires Inv(s) && AsksFor(s, a, u, wanted) && forall id :: !KeyRow(s, id, wanted)
    ensures Next(s, a)
            == if !a.Insert? && !Visible(s, wanted.id.session, wanted.id.owner) then
                 s.(uploads := s.uploads[u := AnswerTo(wanted, SessionMissing)])
               else if a.Begin? then s.(uploads := s.uploads[u := Writing(wanted)])
               else if a.Recheck? then s.(uploads := s.uploads[u := Rechecked(wanted)])
               else s.(rows := s.rows[wanted.id := wanted], uploads := s.uploads[u := AnswerTo(wanted, Uploaded(wanted, false))])
  {
    KeyRowIff(s, wanted);
    assert wanted.id !in s.rows by { assert !KeyRow(s, wanted.id, wanted); }
    hide Inv, HasKey, ByKey, KeyRow;
  }

  /** An upload that nobody disturbs stores its bytes and its row, and the same request again, under another upload, is
      answered with that row. */
  lemma UploadSucceeds(s: State, u: UploadId, owner: OwnerId, key: Key, request: Request, v: UploadId)
    requires Inv(s) && u !in s.uploads && v !in s.uploads && v != u && Visible(s, request.session, owner)
    requires var value := Attachment(Id(owner, request.session, key), request, Available); forall id :: !KeyRow(s, id, value)
    ensures var value := Attachment(Id(owner, request.session, key), request, Available);
            var done := Play(s, [Begin(u, owner, key, request), Write(u, true), Recheck(u), Insert(u)]);
            && done == s.(rows := s.rows[value.id := value], storage := s.storage[value.Path() := request.content],
                          uploads := s.uploads[u := Answered(owner, key, Uploaded(value, false))])
            && Next(done, Begin(v, owner, key, request))
               == done.(uploads := done.uploads[v := Answered(owner, key, Uploaded(value, true))])
  {
    hide Inv, Next, Visible, KeyRow, Play;
    var value := Attachment(Id(owner, request.session, key), request, Available);
    PlayFour(s, Begin(u, owner, key, request), Write(u, true), Recheck(u), Insert(u));
    var s2 := BytesStored(s, u, value);
    var s4 := RowInserted(s, s2, u, value);
    assert s4.uploads == s.uploads[u := AnswerTo(value, Uploaded(value, false))];
    SameView(s, s4, value);
    NewKey(s4, value);
    TakenKeyAnswers(s4, Begin(v, owner, key, request), v, value, value.id);
  }

  lemma NewKey(s: State, value: Attachment)
    ensures value.id in s.rows ==> KeyRow(s, value.id, value)
  {
  }

  /** The first two steps of an upload under a free key. */
  lemma BytesStored(s: State, u: UploadId, value: Attachment) returns (s2: State)
    requires Inv(s) && u !in s.uploads && value.id.session == value.request.session && value.status.Available?
    requires Visible(s, value.id.session, value.id.owner) && forall id :: !KeyRow(s, id, value)
    ensures s2 == Next(Next(s, Begin(u, value.id.owner, value.id.key, value.request)), Write(u, true)) && Inv(s2)
    ensures s2 == s.(storage := s.storage[value.Path() := value.request.content], uploads := s.uploads[u := Stored(value)])
  {
    hide Inv, Next, Visible, KeyRow;
    var begin := Begin(u, value.id.owner, value.id.key, value.request);
    var s1 := Next(s, begin);
    FreeKeyGoesOn(s, begin, u, value);
    NextKeeps(s, begin);
    StoredIs(s1, u, value);
    NextKeeps(s1, Write(u, true));
    s2 := Next(s1, Write(u, true));
    assert s1.uploads[u := Stored(value)] == s.uploads[u := Stored(value)];
  }

  /** The last two steps. */
  lemma RowInserted(s: State, s2: State, u: UploadId, value: Attachment) returns (s4: State)
    requires Visible(s, value.id.session, value.id.owner) && forall id :: !KeyRow(s, id, value)
    requires Inv(s2) && s2.sessions == s.sessions && s2.rows == s.rows && u in s2.uploads && s2.uploads[u] == Stored(value)
    ensures s4 == Next(Next(s2, Recheck(u)), Insert(u)) && Inv(s4)
    ensures s4 == s2.(rows := s.rows[value.id := value], uploads := s2.uploads[u := AnswerTo(value, Uploaded(value, false))])
  {
    hide Inv, Next, Visible, KeyRow;
    SameView(s, s2, value);
    FreeKeyGoesOn(s2, Recheck(u), u, value);
    NextKeeps(s2, Recheck(u));
    var s3 := Next(s2, Recheck(u));
    SameView(s, s3, value);
    FreeKeyGoesOn(s3, Insert(u), u, value);
    NextKeeps(s3, Insert(u));
    s4 := Next(s3, Insert(u));
    assert s3.uploads[u := AnswerTo(value, Uploaded(value, false))] == s2.uploads[u := AnswerTo(value, Uploaded(value, false))];
  }

  lemma SameView(s: State, s': State, value: Attachment)
    requires s'.sessions == s.sessions
    ensures Visible(s', value.id.session, value.id.owner) <==> Visible(s, value.id.session, value.id.owner)
    ensures s'.rows == s.rows ==> forall id :: KeyRow(s', id, value) <==> KeyRow(s, id, value)
  {
  }

  lemma StoredIs(s: State, u: UploadId, value: Attachment)
    requires u in s.uploads && s.uploads[u] == Writing(value)
    ensures Next(s, Write(u, true))
            == s.(storage := s.storage[value.Path() := value.request.content], uploads := s.uploads[u := Stored(value)])
    ensures Next(s, Write(u, false)) == s.(uploads := s.uploads[u := AnswerTo(value, StorageFailed)])
  {
  }

  lemma PlayFour(s: State, a: Action, b: Action, c: Action, d: Action)
    ensures Play(s, [a, b, c, d]) == Next(Next(Next(Next(s, a), b), c), d)
  {
    hide Next;
    assert [a, b, c, d][..3] == [a, b, c] && [a, b, c][..2] == [a, b] && [a, b][..1] == [a];
    assert Play(s, [a]) == Next(s, a);
    assert Play(s, [a, b]) == Next(Next(s, a), b);
    assert Play(s, [a, b, c]) == Next(Next(Next(s, a), b), c);
  }

  // ---- posts -----------------------------------------------------------------------------------------------------

  /** The steps of a post: its locks one after the other, then the message. */
  function PostSteps(t: TxId, k: nat): (steps: seq<Action>)
    ensures |steps| == k
  {
    seq(k, _ => TakePostLock(t))
  }

  predicate AllUsable(s: State, ids: seq<Id>, owner: OwnerId, session: SessionId) {
    forall i :: 0 <= i < |ids| ==> Usable(s, ids[i], owner, session)
  }

  /** The post once it has asked for k rows that nobody else holds. */
  ghost predicate Asking(s: State, s': State, t: TxId, m: MessageId, owner: OwnerId, session: SessionId, ids: seq<Id>, k: nat)
    requires k <= |ids|
  {
    && s' == s.(txs := s'.txs, locks := s'.locks)
    && s'.txs == s.txs[t := PostLocking(m, owner, session, ids, k, !AllUsable(s, ids[..k], owner, session))]
    && (forall id :: id in s'.locks && s'.locks[id] != t ==> id in s.locks && s.locks[id] == s'.locks[id])
    && (forall id :: id in s.locks ==> id in s'.locks && s'.locks[id] == s.locks[id])
  }

  lemma OneMoreLock(s: State, s': State, t: TxId, m: MessageId, owner: OwnerId, session: SessionId, ids: seq<Id>, k: nat)
    requires k < |ids| && Asking(s, s', t, m, owner, session, ids, k)
    requires ids[k] !in s.locks && forall id :: id in s.locks ==> s.locks[id] != t
    ensures Asking(s, Next(s', TakePostLock(t)), t, m, owner, session, ids, k + 1)
  {
    hide Usable, AllUsable, Next;
    OneMoreUsable(s, s', owner, session, ids, k);
    LockIs(s', t);
  }

  lemma OneMoreUsable(s: State, s': State, owner: OwnerId, session: SessionId, ids: seq<Id>, k: nat)
    requires k < |ids| && s'.rows == s.rows
    ensures AllUsable(s, ids[..k + 1], owner, session) <==> AllUsable(s, ids[..k], owner, session) && Usable(s, ids[k], owner, session)
    ensures Usable(s', ids[k], owner, session) <==> Usable(s, ids[k], owner, session)
  {
    assert ids[..k + 1] == ids[..k] + [ids[k]];
  }

  /** The next lock of a post on a row that nobody else holds. */
  lemma LockIs(s: State, t: TxId)
    requires t in s.txs && s.txs[t].PostLocking? && s.txs[t].next < |s.txs[t].ids| && !Blocked(s, t, s.txs[t].ids[s.txs[t].next])
    ensures var tx := s.txs[t]; var id := tx.ids[tx.next]; var usable := Usable(s, id, tx.owner, tx.session);
            Next(s, TakePostLock(t)) == s.(locks := if usable then s.locks[id := t] else s.locks,
                                           txs := s.txs[t := tx.(next := tx.next + 1, missing := tx.missing || !usable)])
  {
    hide Usable, Blocked;
  }

  lemma {:induction false} LocksTaken(s: State, started: State, t: TxId, m: MessageId, owner: OwnerId, session: SessionId, ids: seq<Id>,
                                      k: nat)
    requires k <= |ids| && Asking(s, started, t, m, owner, session, ids, 0)
    requires forall i :: 0 <= i < |ids| ==> ids[i] !in s.locks
    requires forall id :: id in s.locks ==> s.locks[id] != t
    ensures Asking(s, Play(started, PostSteps(t, k)), t, m, owner, session, ids, k)
  {
    hide Asking, Next;
    if k > 0 {
      LocksTaken(s, started, t, m, owner, session, ids, k - 1);
      assert PostSteps(t, k)[..k - 1] == PostSteps(t, k - 1);
      OneMoreLock(s, Play(started, PostSteps(t, k - 1)), t, m, owner, session, ids, k - 1);
    }
  }

  /** A post whose rows nobody holds refers to all of its attachments if all of them are usable, and to none otherwise; either
      way it leaves no lock and nothing else. */
  lemma PostRefersIff(s: State, t: TxId, m: MessageId, owner: OwnerId, session: SessionId, ids: seq<Id>)
    requires Inv(s) && t !in s.txs && forall i :: 0 <= i < |ids| ==> ids[i] !in s.locks
    ensures var locked := Play(Next(s, StartPost(t, m, owner, session, ids)), PostSteps(t, |ids|));
            Next(locked, FinishPost(t))
            == if AllUsable(s, ids, owner, session) then
                 s.(references := s.references + set i | 0 <= i < |ids| :: (m, ids[i]))
               else s
  {
    assert forall id :: id in s.locks ==> s.locks[id] != t;
    hide Inv, AllUsable;
    var started := Next(s, StartPost(t, m, owner, session, ids));
    assert AllUsable(s, ids[..0], owner, session) by { NoneAsked(s, owner, session); }
    LocksTaken(s, started, t, m, owner, session, ids, |ids|);
    assert ids[..|ids|] == ids;
    hide Next, Play;
    CommittedPost(s, Play(started, PostSteps(t, |ids|)), t, m, owner, session, ids);
  }

  lemma NoneAsked(s: State, owner: OwnerId, session: SessionId)
    ensures AllUsable(s, [], owner, session)
  {
  }

  lemma CommittedPost(s: State, s': State, t: TxId, m: MessageId, owner: OwnerId, session: SessionId, ids: seq<Id>)
    requires Asking(s, s', t, m, owner, session, ids, |ids|) && t !in s.txs && ids[..|ids|] == ids
    requires forall id :: id in s.locks ==> s.locks[id] != t
    ensures Next(s', FinishPost(t))
            == if AllUsable(s, ids, owner, session) then
                 s.(references := s.references + set i | 0 <= i < |ids| :: (m, ids[i]))
               else s
  {
    hide AllUsable;
    assert (map id | id in s'.locks && s'.locks[id] != t :: s'.locks[id]) == s.locks;
    assert s'.txs - {t} == s.txs;
  }

  // ---- everybody can finish ----------------------------------------------------------------------------------------

  /** The steps a transaction still has to take. */
  function Left(tx: Tx): nat {
    match tx
    case DeleteWaiting(_) => 3
    case DeleteLocked(_) => 2
    case DeleteChecked(_) => 1
    case PostLocking(_, _, _, ids, next, _) => if next < |ids| then |ids| - next + 1 else 1
  }

  /** The step it takes next. */
  function NextStep(t: TxId, tx: Tx): Action {
    match tx
    case DeleteWaiting(_) => TakeDeleteLock(t)
    case DeleteLocked(_) => LookForReferences(t)
    case DeleteChecked(_) => FinishDelete(t)
    case PostLocking(_, _, _, ids, next, _) => if next < |ids| then TakePostLock(t) else FinishPost(t)
  }

  /** A transaction that does not wait gets ahead by its next step: it ends, or has less left; the others stay. */
  lemma NextStepGetsAhead(s: State, t: TxId)
    requires t in s.txs && !Waits(s, t)
    ensures var s' := Next(s, NextStep(t, s.txs[t]));
            || s'.txs == s.txs - {t}
            || (t in s'.txs && s'.txs == s.txs[t := s'.txs[t]] && Left(s'.txs[t]) < Left(s.txs[t]))
  {
    hide Referenced, Usable, Next, Waits, Left;
    match s.txs[t]
    case DeleteWaiting(_) => DeleteGetsAhead(s, t);
    case DeleteLocked(_) => DeleteGetsAhead(s, t);
    case DeleteChecked(_) => DeleteGetsAhead(s, t);
    case PostLocking(_, _, _, _, _, _) => PostGetsAhead(s, t);
  }

  lemma Unlocked(s: State, t: TxId)
    ensures Unlock(s, t).txs == s.txs - {t}
  {
  }

  lemma DeleteGetsAhead(s: State, t: TxId)
    requires t in s.txs && !Waits(s, t) && !s.txs[t].PostLocking?
    ensures var s' := Next(s, NextStep(t, s.txs[t]));
            || s'.txs == s.txs - {t}
            || (t in s'.txs && s'.txs == s.txs[t := s'.txs[t]] && Left(s'.txs[t]) < Left(s.txs[t]))
  {
    hide Referenced, Unlock;
    Unlocked(s, t);
    if s.txs[t].DeleteChecked? { MarkEnds(s, t); hide MarkDeleted; }
  }

  lemma MarkEnds(s: State, t: TxId)
    requires t in s.txs && s.txs[t].DeleteChecked?
    ensures MarkDeleted(s, t).txs == s.txs - {t}
  {
  }

  lemma PostGetsAhead(s: State, t: TxId)
    requires t in s.txs && !Waits(s, t) && s.txs[t].PostLocking?
    ensures var s' := Next(s, NextStep(t, s.txs[t]));
            || s'.txs == s.txs - {t}
            || (t in s'.txs && s'.txs == s.txs[t := s'.txs[t]] && Left(s'.txs[t]) < Left(s.txs[t]))
  {
    if s.txs[t].next < |s.txs[t].ids| {
      LockIs(s, t);
      hide Next;
    } else {
      PostEnds(s, t);
      hide CommitPost;
    }
  }

  lemma PostEnds(s: State, t: TxId)
    requires t in s.txs && s.txs[t].PostLocking? && s.txs[t].next >= |s.txs[t].ids|
    ensures CommitPost(s, t).txs == s.txs - {t}
  {
  }

  ghost function Work(txs: map<TxId, Tx>): nat {
    if txs == map[] then 0
    else
      SomeTx(txs);
      var t :| t in txs;
      Left(txs[t]) + Work(txs - {t})
  }

  lemma SomeTx(txs: map<TxId, Tx>)
    ensures txs == map[] || exists t :: t in txs
  {
    if forall t :: t !in txs {
      assert txs == map[];
    }
  }

  lemma {:induction false} WorkSplit(txs: map<TxId, Tx>, t: TxId)
    requires t in txs
    ensures Work(txs) == Left(txs[t]) + Work(txs - {t})
    decreases |txs|
  {
    SomeTx(txs);
    var first :| first in txs && Work(txs) == Left(txs[first]) + Work(txs - {first});
    if first != t {
      WorkSplit(txs - {first}, t);
      WorkSplit(txs - {t}, first);
      assert txs - {first} - {t} == txs - {t} - {first};
    }
  }

  lemma LessWork(txs: map<TxId, Tx>, txs': map<TxId, Tx>, t: TxId)
    requires t in txs
    requires txs' == txs - {t} || (t in txs' && txs' == txs[t := txs'[t]] && Left(txs'[t]) < Left(txs[t]))
    ensures Work(txs') < Work(txs)
  {
    WorkSplit(txs, t);
    if txs' != txs - {t} {
      WorkSplit(txs', t);
      assert txs' - {t} == txs - {t};
    }
  }

  lemma PlayExtends(actions: seq<Action>, a: Action)
    ensures Play(EMPTY, actions + [a]) == Next(Play(EMPTY, actions), a)
  {
    assert (actions + [a])[..|actions|] == actions;
    hide Next;
  }

  /** From any state of any run whose posts ask in identifier order, the transactions under way can all be brought to an
      end, by their own steps alone: no deadlock, and no step that leads nowhere. */
  lemma {:induction false} EveryoneCanFinish(actions: seq<Action>, rank: Id -> int) returns (more: seq<Action>)
    requires PostsInOrder(actions, rank)
    ensures Play(EMPTY, actions + more).txs == map[]
    ensures forall a :: a in more ==> exists t, tx :: a == NextStep(t, tx)
    decreases Work(Play(EMPTY, actions).txs)
  {
    hide Next, Work, NextStep, Left;
    var s := Play(EMPTY, actions);
    more := [];
    if s.txs == map[] {
      assert actions + [] == actions;
    } else {
      SomeTx(s.txs);
      SomeoneCanGoOn(actions, rank);
      var t :| t in s.txs && !Waits(s, t);
      var a := NextStep(t, s.txs[t]);
      NextStepGetsAhead(s, t);
      PlayExtends(actions, a);
      LessWork(s.txs, Next(s, a).txs, t);
      assert !a.StartPost? by { NotAStart(t, s.txs[t]); }
      var rest := EveryoneCanFinish(actions + [a], rank);
      more := [a] + rest;
      assert actions + more == actions + [a] + rest;
    }
  }

  lemma NotAStart(t: TxId, tx: Tx)
    ensures !NextStep(t, tx).StartPost?
  {
  }
}
