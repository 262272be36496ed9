/** Attachments: uploads in two transactions around a storage write, deletions and posts that meet at row
    locks, all as interleaved steps. */
module Attachments {
  import opened Wrappers

  type OwnerId = string
  type SessionId = string
  type Key = string
  type Content = string
  type MessageId = nat
  type UploadId = nat
  type TxId = nat

  /** Derived from owner, session and key, so the same request always names the same attachment. */
  datatype Id = Id(owner: OwnerId, session: SessionId, key: Key)

  /** The path ends with the content's identity, so it never holds two contents. */
  datatype StorageKey = StorageKey(id: Id, content: Content)

  datatype Status = Available | Deleted

  /** What the upload fingerprint covers: session, public metadata and content. */
  datatype Request = Request(session: SessionId, displayName: string, mediaType: string, content: Content)

  datatype Attachment = Attachment(id: Id, request: Request, status: Status) {
    function Path(): StorageKey { StorageKey(id, request.content) }
  }

  // ---- uploads ------------------------------------------------------------------------------------------

  datatype Answer =
    | Uploaded(attachment: Attachment, replayed: bool)
    | Conflict
    | SessionMissing
    | StorageFailed
    | Raised

  /** Where an upload stands; a crashed one stays where it was for ever. */
  datatype Upload =
    | Writing(value: Attachment)
    | Stored(value: Attachment)
    | Rechecked(value: Attachment)
    | Answered(owner: OwnerId, key: Key, answer: Answer)

  // ---- row-locking transactions ---------------------------------------------------------------------------

  /** A deletion locks one row, looks for references, then marks it. A post locks its rows one after
      the other in identifier order, then writes its message with the references. */
  datatype Tx =
    | DeleteWaiting(id: Id)
    | DeleteLocked(id: Id)
    | DeleteChecked(id: Id)
    | PostLocking(message: MessageId, owner: OwnerId, session: SessionId, ids: seq<Id>, next: nat, missing: bool)

  datatype State = State(
    sessions: map<SessionId, OwnerId>,
    rows: map<Id, Attachment>,
    storage: map<StorageKey, Content>,
    references: set<(MessageId, Id)>,
    uploads: map<UploadId, Upload>,
    txs: map<TxId, Tx>,
    locks: map<Id, TxId>)

  const EMPTY := State(map[], map[], map[], {}, map[], map[], map[])

  predicate Visible(s: State, session: SessionId, owner: OwnerId) {
    session in s.sessions && s.sessions[session] == owner
  }

  /** The row with this owner and idempotency key, over all sessions. */
  predicate HasKey(s: State, owner: OwnerId, key: Key) {
    exists id :: id in s.rows && id.owner == owner && id.key == key
  }

  ghost function ByKey(s: State, owner: OwnerId, key: Key): Id
    requires HasKey(s, owner, key)
  {
    var id :| id in s.rows && id.owner == owner && id.key == key;
    id
  }

  predicate Referenced(s: State, id: Id) {
    exists r :: r in s.references && r.1 == id
  }

  function Answers(s: State, u: UploadId, owner: OwnerId, key: Key, answer: Answer): State {
    s.(uploads := s.uploads[u := Answered(owner, key, answer)])
  }

  /** The first transaction: a known key answers at once, otherwise the attachment is made up. */
  ghost function BeginUpload(s: State, u: UploadId, owner: OwnerId, key: Key, request: Request): State {
    if u in s.uploads then s
    else if !Visible(s, request.session, owner) then Answers(s, u, owner, key, SessionMissing)
    else if HasKey(s, owner, key) then
      var row := s.rows[ByKey(s, owner, key)];
      Answers(s, u, owner, key,
              if row.id.session != request.session || row.request != request then Conflict else Uploaded(row, true))
    else s.(uploads := s.uploads[u := Writing(Attachment(Id(owner, request.session, key), request, Available))])
  }

  /** The storage write, outside any transaction. */
  function WriteBytes(s: State, u: UploadId, ok: bool): State {
    if u !in s.uploads || !s.uploads[u].Writing? then s
    else
      var value := s.uploads[u].value;
      if !ok then Answers(s, u, value.id.owner, value.id.key, StorageFailed)
      else s.(storage := s.storage[value.Path() := value.request.content], uploads := s.uploads[u := Stored(value)])
  }

  /** The second transaction looks up session and key again; the key may have come meanwhile. */
  ghost function RecheckUpload(s: State, u: UploadId): State {
    if u !in s.uploads || !s.uploads[u].Stored? then s
    else
      var value := s.uploads[u].value;
      var owner, key := value.id.owner, value.id.key;
      if !Visible(s, value.id.session, owner) then Answers(s, u, owner, key, SessionMissing)
      else if HasKey(s, owner, key) then
        var row := s.rows[ByKey(s, owner, key)];
        Answers(s, u, owner, key, if row.request != value.request then Conflict else Uploaded(row, true))
      else s.(uploads := s.uploads[u := Rechecked(value)])
  }

  /** The insert does nothing when a unique index holds it up, and then reads the row with the key. */
  ghost function InsertUpload(s: State, u: UploadId): State {
    if u !in s.uploads || !s.uploads[u].Rechecked? then s
    else
      var value := s.uploads[u].value;
      var owner, key := value.id.owner, value.id.key;
      if value.id !in s.rows && !HasKey(s, owner, key) then
        Answers(s.(rows := s.rows[value.id := value]), u, owner, key, Uploaded(value, false))
      else if !HasKey(s, owner, key) then Answers(s, u, owner, key, Raised)
      else
        var row := s.rows[ByKey(s, owner, key)];
        Answers(s, u, owner, key,
                if row.id.session != value.id.session || row.request != value.request then Conflict else Uploaded(row, true))
  }

  // ---- deletions and posts ----------------------------------------------------------------------------------

  predicate Blocked(s: State, t: TxId, id: Id) {
    id in s.locks && s.locks[id] != t
  }

  function Unlock(s: State, t: TxId): State {
    s.(locks := map id | id in s.locks && s.locks[id] != t :: s.locks[id], txs := s.txs - {t})
  }

  predicate Usable(s: State, id: Id, owner: OwnerId, session: SessionId) {
    id in s.rows && id.owner == owner && id.session == session && s.rows[id].status.Available?
  }

  /** Takes the row lock once it is free and then reads the row; a row that is gone ends the deletion. */
  function LockForDelete(s: State, t: TxId): State {
    if t !in s.txs || !s.txs[t].DeleteWaiting? || Blocked(s, t, s.txs[t].id) then s
    else
      var id := s.txs[t].id;
      if id !in s.rows || !s.rows[id].status.Available? then Unlock(s, t)
      else s.(locks := s.locks[id := t], txs := s.txs[t := DeleteLocked(id)])
  }

  function CheckReferences(s: State, t: TxId): State {
    if t !in s.txs || !s.txs[t].DeleteLocked? then s
    else if Referenced(s, s.txs[t].id) then Unlock(s, t)
    else s.(txs := s.txs[t := DeleteChecked(s.txs[t].id)])
  }

  /** A conditional update on the status, and the commit. */
  function MarkDeleted(s: State, t: TxId): State {
    if t !in s.txs || !s.txs[t].DeleteChecked? then s
    else
      var id := s.txs[t].id;
      if id !in s.rows || !s.rows[id].status.Available? then Unlock(s, t)
      else Unlock(s.(rows := s.rows[id := s.rows[id].(status := Deleted)]), t)
  }

  /** The next row of a post's locking query; a row that no longer matches is left out of its result. */
  function LockForPost(s: State, t: TxId): State {
    if t !in s.txs || !s.txs[t].PostLocking? || s.txs[t].next >= |s.txs[t].ids| then s
    else
      var tx := s.txs[t];
      var id := tx.ids[tx.next];
      if Blocked(s, t, id) then s
      else if Usable(s, id, tx.owner, tx.session) then
        s.(locks := s.locks[id := t], txs := s.txs[t := tx.(next := tx.next + 1)])
      else s.(txs := s.txs[t := tx.(next := tx.next + 1, missing := true)])
  }

  /** The message with its references, or the exception that an attachment is missing. */
  function CommitPost(s: State, t: TxId): State {
    if t !in s.txs || !s.txs[t].PostLocking? || s.txs[t].next < |s.txs[t].ids| then s
    else
      var tx := s.txs[t];
      if tx.missing then Unlock(s, t)
      else Unlock(s.(references := s.references + set i | 0 <= i < |tx.ids| :: (tx.message, tx.ids[i])), t)
  }

  datatype Action =
    | OpenSession(session: SessionId, owner: OwnerId)
    | Begin(upload: UploadId, owner: OwnerId, key: Key, request: Request)
    | Write(upload: UploadId, ok: bool)
    | Recheck(upload: UploadId)
    | Insert(upload: UploadId)
    | StartDelete(tx: TxId, id: Id)
    | StartPost(tx: TxId, message: MessageId, owner: OwnerId, session: SessionId, ids: seq<Id>)
    | TakeDeleteLock(tx: TxId)
    | LookForReferences(tx: TxId)
    | FinishDelete(tx: TxId)
    | TakePostLock(tx: TxId)
    | FinishPost(tx: TxId)
    | RollBack(tx: TxId)

  ghost function Next(s: State, a: Action): State {
    match a
    case OpenSession(session, owner) =>
      if session in s.sessions then s else s.(sessions := s.sessions[session := owner])
    case Begin(u, owner, key, request) => BeginUpload(s, u, owner, key, request)
    case Write(u, ok) => WriteBytes(s, u, ok)
    case Recheck(u) => RecheckUpload(s, u)
    case Insert(u) => InsertUpload(s, u)
    case StartDelete(t, id) => if t in s.txs then s else s.(txs := s.txs[t := DeleteWaiting(id)])
    case StartPost(t, m, owner, session, ids) =>
      if t in s.txs then s else s.(txs := s.txs[t := PostLocking(m, owner, session, ids, 0, false)])
    case TakeDeleteLock(t) => LockForDelete(s, t)
    case LookForReferences(t) => CheckReferences(s, t)
    case FinishDelete(t) => MarkDeleted(s, t)
    case TakePostLock(t) => LockForPost(s, t)
    case FinishPost(t) => CommitPost(s, t)
    case RollBack(t) => Unlock(s, t)
  }

  ghost function Play(s: State, actions: seq<Action>): State {
    if actions == [] then s else Next(Play(s, actions[..|actions| - 1]), actions[|actions| - 1])
  }

  // ---- invariant ------------------------------------------------------------------------------------------------

  /** One row for each owner and key, under the identifier they give, with its bytes in storage. */
  ghost predicate RowsSound(s: State) {
    && (forall id :: id in s.rows ==> s.rows[id].id == id && s.rows[id].request.session == id.session)
    && (forall i, j :: i in s.rows && j in s.rows && i.owner == j.owner && i.key == j.key ==> i == j)
    && (forall id :: id in s.rows ==> Held(s, s.rows[id]))
  }

  predicate Held(s: State, value: Attachment) {
    value.Path() in s.storage && s.storage[value.Path()] == value.request.content
  }

  ghost predicate UploadSound(s: State, u: Upload) {
    match u
    case Writing(value) => value.id.session == value.request.session && value.status.Available?
    case Stored(value) => value.id.session == value.request.session && value.status.Available? && Held(s, value)
    case Rechecked(value) => value.id.session == value.request.session && value.status.Available? && Held(s, value)
    case Answered(owner, key, answer) =>
      answer.Uploaded? ==>
        && answer.attachment.id in s.rows
        && answer.attachment.id.owner == owner && answer.attachment.id.key == key
        && s.rows[answer.attachment.id].request == answer.attachment.request
        && (!answer.replayed ==> answer.attachment.status.Available?)
        && (answer.attachment.status.Deleted? ==> s.rows[answer.attachment.id].status.Deleted?)
  }

  /** A transaction's locks are its own, and the rows it holds are available; a deletion that has looked for
      references still has none. */
  ghost predicate TxSound(s: State, t: TxId)
    requires t in s.txs
  {
    match s.txs[t]
    case DeleteWaiting(_) => true
    case DeleteLocked(id) => Holds(s, t, id)
    case DeleteChecked(id) => Holds(s, t, id) && !Referenced(s, id)
    case PostLocking(_, _, _, ids, next, missing) =>
      next <= |ids| && (!missing ==> forall i :: 0 <= i < next ==> Holds(s, t, ids[i]))
  }

  predicate Holds(s: State, t: TxId, id: Id) {
    id in s.locks && s.locks[id] == t && id in s.rows && s.rows[id].status.Available?
  }

  ghost predicate Inv(s: State) {
    && RowsSound(s)
    && (forall u :: u in s.uploads ==> UploadSound(s, s.uploads[u]))
    && (forall t :: t in s.txs ==> TxSound(s, t))
    && (forall id :: id in s.locks ==> s.locks[id] in s.txs)
    && (forall r :: r in s.references ==> r.1 in s.rows && s.rows[r.1].status.Available?)
  }

  // ---- preservation ----------------------------------------------------------------------------------------------

  /** Bytes and rows stay, and a row only changes from available to deleted. */
  ghost predicate RowsStay(s: State, s': State) {
    && (forall p :: p in s.storage ==> p in s'.storage && s'.storage[p] == s.storage[p])
    && forall id :: id in s.rows ==>
         && id in s'.rows && s'.rows[id].id == s.rows[id].id && s'.rows[id].request == s.rows[id].request
         && (s.rows[id].status.Deleted? ==> s'.rows[id].status.Deleted?)
  }

  lemma UploadsStay(s: State, s': State, except: UploadId)
    requires Inv(s) && RowsStay(s, s')
    ensures forall u :: u in s.uploads && u != except ==> UploadSound(s', s.uploads[u])
  {
    hide RowsSound, TxSound;
  }

  /** A change to uploads, rows or storage that touches no available row leaves every transaction sound. */
  lemma TxsStay(s: State, s': State)
    requires Inv(s) && s'.txs == s.txs && s'.locks == s.locks && s'.references == s.references
    requires forall id :: id in s.rows ==> id in s'.rows && s'.rows[id] == s.rows[id]
    ensures forall t :: t in s'.txs ==> TxSound(s', t)
    ensures forall r :: r in s'.references ==> r.1 in s'.rows && s'.rows[r.1].status.Available?
  {
    hide RowsSound, UploadSound;
  }

  lemma AnswersKeeps(s: State, u: UploadId, owner: OwnerId, key: Key, answer: Answer)
    requires Inv(s) && UploadSound(s, Answered(owner, key, answer))
    ensures Inv(Answers(s, u, owner, key, answer))
  {
    hide RowsSound;
    var s' := Answers(s, u, owner, key, answer);
    assert RowsSound(s') by { assert s'.rows == s.rows && s'.storage == s.storage; SameRows(s, s'); }
    UploadsStay(s, s', u);
    TxsStay(s, s');
  }

  lemma SameRows(s: State, s': State)
    requires RowsSound(s) && s'.rows == s.rows && RowsStay(s, s')
    ensures RowsSound(s')
  {
  }

  lemma BeginKeeps(s: State, u: UploadId, owner: OwnerId, key: Key, request: Request)
    requires Inv(s)
    ensures Inv(BeginUpload(s, u, owner, key, request))
  {
    if u !in s.uploads {
      if !Visible(s, request.session, owner) {
        AnswersKeeps(s, u, owner, key, SessionMissing);
      } else if HasKey(s, owner, key) {
        KeyAnswers(s, u, owner, key, request);
      } else {
        var s' := BeginUpload(s, u, owner, key, request);
        assert RowsSound(s') by { SameRows(s, s'); }
        hide RowsSound;
        UploadsStay(s, s', u);
        TxsStay(s, s');
      }
    }
  }

  lemma KeyAnswers(s: State, u: UploadId, owner: OwnerId, key: Key, request: Request)
    requires Inv(s) && HasKey(s, owner, key)
    ensures var row := s.rows[ByKey(s, owner, key)];
            && Inv(Answers(s, u, owner, key, if row.request != request then Conflict else Uploaded(row, true)))
            && (row.id.session != request.session ==> row.request != request)
  {
    var row := s.rows[ByKey(s, owner, key)];
    assert row.id == ByKey(s, owner, key);
    AnswersKeeps(s, u, owner, key, if row.request != request then Conflict else Uploaded(row, true));
  }

  lemma WriteKeeps(s: State, u: UploadId, ok: bool)
    requires Inv(s)
    ensures Inv(WriteBytes(s, u, ok))
  {
    if u in s.uploads && s.uploads[u].Writing? {
      var value := s.uploads[u].value;
      if !ok {
        AnswersKeeps(s, u, value.id.owner, value.id.key, StorageFailed);
      } else {
        var s' := WriteBytes(s, u, ok);
        BytesAgree(s, value.Path());
        var written := s.(storage := s.storage[value.Path() := value.request.content]);
        assert RowsSound(s') by { WrittenRows(s, value); SameRows(written, s'); }
        assert forall v :: v in s.uploads && v != u ==> UploadSound(s', s.uploads[v]) by { WrittenUploads(s, value, u); }
        hide RowsSound;
        TxsStay(s, s');
      }
    }
  }

  /** Every path in storage that a row or an upload uses holds the content it is named after. */
  lemma BytesAgree(s: State, p: StorageKey)
    ensures forall a: Attachment :: a.Path() == p ==> a.request.content == p.content
  {
  }

  lemma WrittenRows(s: State, value: Attachment)
    requires RowsSound(s)
    ensures RowsSound(s.(storage := s.storage[value.Path() := value.request.content]))
  {
  }

  lemma WrittenUploads(s: State, value: Attachment, u: UploadId)
    requires Inv(s)
    ensures var s' := s.(storage := s.storage[value.Path() := value.request.content]);
            forall v :: v in s.uploads && v != u ==> UploadSound(s', s.uploads[v])
  {
    hide RowsSound, TxSound;
  }

  lemma RecheckKeeps(s: State, u: UploadId)
    requires Inv(s)
    ensures Inv(RecheckUpload(s, u))
  {
    if u in s.uploads && s.uploads[u].Stored? {
      var value := s.uploads[u].value;
      if !Visible(s, value.id.session, value.id.owner) {
        AnswersKeeps(s, u, value.id.owner, value.id.key, SessionMissing);
      } else if HasKey(s, value.id.owner, value.id.key) {
        KeyAnswers(s, u, value.id.owner, value.id.key, value.request);
      } else {
        var s' := RecheckUpload(s, u);
        assert s' == s.(uploads := s.uploads[u := Rechecked(value)]);
        hide RecheckUpload, HasKey, Visible;
        assert UploadSound(s, s.uploads[u]);
        assert RowsSound(s') by { SameRows(s, s'); }
        hide RowsSound;
        UploadsStay(s, s', u);
        TxsStay(s, s');
      }
    }
  }

  lemma InsertKeeps(s: State, u: UploadId)
    requires Inv(s)
    ensures Inv(InsertUpload(s, u))
  {
    if u in s.uploads && s.uploads[u].Rechecked? {
      assert UploadSound(s, s.uploads[u]);
      assert RowsSound(s);
      hide Inv, Answers;
      var value := s.uploads[u].value;
      var owner, key := value.id.owner, value.id.key;
      if value.id !in s.rows && !HasKey(s, owner, key) {
        var inserted := s.(rows := s.rows[value.id := value]);
        NewRow(s, value);
        AnswersKeeps(inserted, u, owner, key, Uploaded(value, false));
      } else {
        if value.id in s.rows { assert HasKey(s, owner, key); }
        KeyAnswers(s, u, owner, key, value.request);
      }
    }
  }

  lemma NewRow(s: State, value: Attachment)
    requires Inv(s) && value.id !in s.rows && !HasKey(s, value.id.owner, value.id.key)
    requires value.id.session == value.request.session && Held(s, value)
    ensures Inv(s.(rows := s.rows[value.id := value]))
  {
    var s' := s.(rows := s.rows[value.id := value]);
    assert RowsSound(s') by { InsertedRows(s, value); }
    assert RowsStay(s, s');
    hide RowsSound;
    assert forall u :: u in s.uploads ==> UploadSound(s', s.uploads[u]) by { AllUploadsStay(s, s'); }
    TxsStay(s, s');
  }

  lemma InsertedRows(s: State, value: Attachment)
    requires RowsSound(s) && value.id !in s.rows && !HasKey(s, value.id.owner, value.id.key)
    requires value.id.session == value.request.session && Held(s, value)
    ensures RowsSound(s.(rows := s.rows[value.id := value]))
  {
  }

  lemma AllUploadsStay(s: State, s': State)
    requires Inv(s) && RowsStay(s, s')
    ensures forall u :: u in s.uploads ==> UploadSound(s', s.uploads[u])
  {
    hide RowsSound, TxSound;
  }

  // ---- transactions ----

  /** A step that changes transactions and locks only. */
  lemma TxStepKeeps(s: State, s': State)
    requires Inv(s)
    requires s' == s.(txs := s'.txs, locks := s'.locks)
    requires forall t :: t in s'.txs ==> TxSound(s', t)
    requires forall id :: id in s'.locks ==> s'.locks[id] in s'.txs
    ensures Inv(s')
  {
    hide TxSound;
    SameRows(s, s');
    hide RowsSound;
    AllUploadsStay(s, s');
  }

  /** The other transactions keep what they hold when this one takes free locks or gives its own back. */
  lemma OthersStay(s: State, s': State, t: TxId)
    requires Inv(s) && s' == s.(txs := s'.txs, locks := s'.locks)
    requires forall id :: id in s.locks && s.locks[id] != t ==> id in s'.locks && s'.locks[id] == s.locks[id]
    requires forall x :: x in s'.txs && x != t ==> x in s.txs && s'.txs[x] == s.txs[x]
    ensures forall x :: x in s'.txs && x != t ==> TxSound(s', x)
  {
    hide RowsSound, UploadSound;
    forall x | x in s'.txs && x != t ensures TxSound(s', x) {
      assert TxSound(s, x);
    }
  }

  lemma UnlockKeeps(s: State, t: TxId)
    requires Inv(s)
    ensures Inv(Unlock(s, t))
  {
    hide RowsSound, UploadSound, TxSound;
    OthersStay(s, Unlock(s, t), t);
    TxStepKeeps(s, Unlock(s, t));
  }

  lemma StartKeeps(s: State, t: TxId, tx: Tx)
    requires Inv(s) && t !in s.txs
    requires tx.DeleteWaiting? || (tx.PostLocking? && tx.next == 0)
    ensures Inv(s.(txs := s.txs[t := tx]))
  {
    hide RowsSound, UploadSound;
    var s' := s.(txs := s.txs[t := tx]);
    OthersStay(s, s', t);
    TxStepKeeps(s, s');
  }

  lemma LockForDeleteKeeps(s: State, t: TxId)
    requires Inv(s)
    ensures Inv(LockForDelete(s, t))
  {
    hide RowsSound, UploadSound;
    if t in s.txs && s.txs[t].DeleteWaiting? && !Blocked(s, t, s.txs[t].id) {
      var id := s.txs[t].id;
      if id !in s.rows || !s.rows[id].status.Available? {
        UnlockKeeps(s, t);
      } else {
        OthersStay(s, LockForDelete(s, t), t);
        TxStepKeeps(s, LockForDelete(s, t));
      }
    }
  }

  lemma CheckReferencesKeeps(s: State, t: TxId)
    requires Inv(s)
    ensures Inv(CheckReferences(s, t))
  {
    hide RowsSound, UploadSound;
    if t in s.txs && s.txs[t].DeleteLocked? {
      if Referenced(s, s.txs[t].id) {
        UnlockKeeps(s, t);
      } else {
        assert TxSound(s, t);
        OthersStay(s, CheckReferences(s, t), t);
        TxStepKeeps(s, CheckReferences(s, t));
      }
    }
  }

  lemma MarkDeletedKeeps(s: State, t: TxId)
    requires Inv(s)
    ensures Inv(MarkDeleted(s, t))
  {
    if t in s.txs && s.txs[t].DeleteChecked? {
      assert TxSound(s, t);
      var id := s.txs[t].id;
      var unlocked := Unlock(s, t);
      UnlockKeeps(s, t);
      MarkKeeps(unlocked, id);
    }
  }

  /** A row nobody refers to and nobody has locked may be deleted. */
  lemma MarkKeeps(s: State, id: Id)
    requires Inv(s) && id in s.rows && id !in s.locks && !Referenced(s, id)
    ensures Inv(s.(rows := s.rows[id := s.rows[id].(status := Deleted)]))
  {
    var s' := s.(rows := s.rows[id := s.rows[id].(status := Deleted)]);
    MarkedRows(s, id);
    hide RowsSound;
    AllUploadsStay(s, s');
    hide UploadSound, TxSound;
    assert forall r :: r in s.references ==> r.1 != id;
    MarkedTxs(s, id);
  }

  /** Transactions that do not hold the row are not concerned. */
  lemma MarkedTxs(s: State, id: Id)
    requires Inv(s) && id in s.rows && id !in s.locks
    ensures var s' := s.(rows := s.rows[id := s.rows[id].(status := Deleted)]); forall t :: t in s'.txs ==> TxSound(s', t)
  {
    hide RowsSound, UploadSound;
    var s' := s.(rows := s.rows[id := s.rows[id].(status := Deleted)]);
    forall t | t in s'.txs ensures TxSound(s', t) {
      assert TxSound(s, t);
    }
  }

  lemma MarkedRows(s: State, id: Id)
    requires RowsSound(s) && id in s.rows
    ensures RowsSound(s.(rows := s.rows[id := s.rows[id].(status := Deleted)]))
  {
  }

  lemma LockForPostKeeps(s: State, t: TxId)
    requires Inv(s)
    ensures Inv(LockForPost(s, t))
  {
    hide RowsSound, UploadSound;
    if t in s.txs && s.txs[t].PostLocking? && s.txs[t].next < |s.txs[t].ids| {
      assert TxSound(s, t);
      if !Blocked(s, t, s.txs[t].ids[s.txs[t].next]) {
        TakenKeepsTx(s, t);
        OthersStay(s, LockForPost(s, t), t);
        hide TxSound, Usable;
        TxStepKeeps(s, LockForPost(s, t));
      }
    }
  }

  lemma TakenKeepsTx(s: State, t: TxId)
    requires t in s.txs && s.txs[t].PostLocking? && s.txs[t].next < |s.txs[t].ids| && TxSound(s, t)
    requires !Blocked(s, t, s.txs[t].ids[s.txs[t].next])
    ensures t in LockForPost(s, t).txs && TxSound(LockForPost(s, t), t)
  {
    var tx := s.txs[t];
    var id := tx.ids[tx.next];
    if Usable(s, id, tx.owner, tx.session) {
      var s' := s.(locks := s.locks[id := t], txs := s.txs[t := tx.(next := tx.next + 1)]);
      assert LockForPost(s, t) == s';
      hide LockForPost, Usable, Blocked;
    } else {
      assert LockForPost(s, t) == s.(txs := s.txs[t := tx.(next := tx.next + 1, missing := true)]);
      hide LockForPost, Usable, Blocked;
    }
  }

  lemma CommitPostKeeps(s: State, t: TxId)
    requires Inv(s)
    ensures Inv(CommitPost(s, t))
  {
    if t in s.txs && s.txs[t].PostLocking? && s.txs[t].next >= |s.txs[t].ids| {
      var tx := s.txs[t];
      assert TxSound(s, t);
      if tx.missing {
        UnlockKeeps(s, t);
      } else {
        var added := set i | 0 <= i < |tx.ids| :: (tx.message, tx.ids[i]);
        var referring := s.(references := s.references + added);
        hide RowsSound, UploadSound;
        ReferringKeeps(s, t, added);
        UnlockKeeps(referring, t);
      }
    }
  }

  /** New references to rows the transaction has locked disturb no deletion. */
  lemma ReferringKeeps(s: State, t: TxId, added: set<(MessageId, Id)>)
    requires Inv(s) && t in s.txs && s.txs[t].PostLocking?
    requires forall r :: r in added ==> Holds(s, t, r.1)
    ensures Inv(s.(references := s.references + added))
  {
    var s' := s.(references := s.references + added);
    SameRows(s, s');
    hide RowsSound;
    AllUploadsStay(s, s');
    hide UploadSound;
    forall x | x in s'.txs ensures TxSound(s', x) {
      assert TxSound(s, x);
    }
  }

  lemma NextKeeps(s: State, a: Action)
    requires Inv(s)
    ensures Inv(Next(s, a))
  {
    hide Inv, BeginUpload, WriteBytes, RecheckUpload, InsertUpload, LockForDelete, CheckReferences, MarkDeleted, LockForPost,
         CommitPost, Unlock;
    match a
    case OpenSession(session, owner) => if session !in s.sessions { OpenKeeps(s, session, owner); }
    case Begin(u, owner, key, request) => BeginKeeps(s, u, owner, key, request);
    case Write(u, ok) => WriteKeeps(s, u, ok);
    case Recheck(u) => RecheckKeeps(s, u);
    case Insert(u) => InsertKeeps(s, u);
    case StartDelete(t, id) => if t !in s.txs { StartKeeps(s, t, DeleteWaiting(id)); }
    case StartPost(t, m, owner, session, ids) =>
      if t !in s.txs { StartKeeps(s, t, PostLocking(m, owner, session, ids, 0, false)); }
    case TakeDeleteLock(t) => LockForDeleteKeeps(s, t);
    case LookForReferences(t) => CheckReferencesKeeps(s, t);
    case FinishDelete(t) => MarkDeletedKeeps(s, t);
    case TakePostLock(t) => LockForPostKeeps(s, t);
    case FinishPost(t) => CommitPostKeeps(s, t);
    case RollBack(t) => UnlockKeeps(s, t);
  }

  lemma OpenKeeps(s: State, session: SessionId, owner: OwnerId)
    requires Inv(s) && session !in s.sessions
    ensures Inv(s.(sessions := s.sessions[session := owner]))
  {
    var s' := s.(sessions := s.sessions[session := owner]);
    SameRows(s, s');
    hide RowsSound;
    AllUploadsStay(s, s');
    TxsStay(s, s');
  }

  lemma {:induction false} EveryRunKeeps(actions: seq<Action>)
    ensures Inv(Play(EMPTY, actions))
  {
    if actions != [] {
      EveryRunKeeps(actions[..|actions| - 1]);
      NextKeeps(Play(EMPTY, actions[..|actions| - 1]), actions[|actions| - 1]);
    }
  }

  // ---- guarantees ------------------------------------------------------------------------------------------------

  ghost predicate Reachable(s: State) {
    exists actions :: s == Play(EMPTY, actions)
  }

  lemma ReachableSound(s: State)
    requires Reachable(s)
    ensures Inv(s)
  {
    hide Inv;
    var actions :| s == Play(EMPTY, actions);
    EveryRunKeeps(actions);
  }

  /** References and rows are never removed, a row keeps its content, and a deleted one stays deleted. */
  ghost predicate Stays(s: State, s': State) {
    && s.references <= s'.references
    && forall id :: id in s.rows ==>
         && id in s'.rows && s'.rows[id].request == s.rows[id].request
         && (s.rows[id].status.Deleted? ==> s'.rows[id].status.Deleted?)
  }

  lemma BeginStays(s: State, u: UploadId, owner: OwnerId, key: Key, request: Request)
    ensures Stays(s, BeginUpload(s, u, owner, key, request)) && SameLocks(s, BeginUpload(s, u, owner, key, request))
  {
    hide HasKey, ByKey, Visible;
    var s' := BeginUpload(s, u, owner, key, request);
    assert s' == s.(uploads := s'.uploads);
    hide BeginUpload;
  }

  lemma WriteStays(s: State, u: UploadId, ok: bool)
    ensures Stays(s, WriteBytes(s, u, ok)) && SameLocks(s, WriteBytes(s, u, ok))
  {
  }

  lemma RecheckStays(s: State, u: UploadId)
    ensures Stays(s, RecheckUpload(s, u)) && SameLocks(s, RecheckUpload(s, u))
  {
    hide HasKey, ByKey, Visible;
    var s' := RecheckUpload(s, u);
    assert s' == s.(uploads := s'.uploads);
    hide RecheckUpload;
  }

  lemma AnswersStay(s: State, u: UploadId, owner: OwnerId, key: Key, answer: Answer)
    ensures var s' := Answers(s, u, owner, key, answer);
            && s'.rows == s.rows && s'.references == s.references && s'.txs == s.txs && s'.locks == s.locks
            && s'.uploads == s.uploads[u := Answered(owner, key, answer)]
  {
  }

  lemma InsertStays(s: State, u: UploadId)
    ensures Stays(s, InsertUpload(s, u)) && SameLocks(s, InsertUpload(s, u))
  {
    hide Visible, Answers;
    if u in s.uploads && s.uploads[u].Rechecked? {
      var value := s.uploads[u].value;
      var owner, key := value.id.owner, value.id.key;
      if value.id !in s.rows && !HasKey(s, owner, key) {
        AnswersStay(s.(rows := s.rows[value.id := value]), u, owner, key, Uploaded(value, false));
      } else if !HasKey(s, owner, key) {
        AnswersStay(s, u, owner, key, Raised);
      } else {
        var row := s.rows[ByKey(s, owner, key)];
        var conflict := row.id.session != value.id.session || row.request != value.request;
        AnswersStay(s, u, owner, key, if conflict then Conflict else Uploaded(row, true));
      }
    }
  }

  predicate SameLocks(s: State, s': State) {
    s'.txs == s.txs && s'.locks == s.locks
  }

  lemma LockingStays(s: State, t: TxId)
    ensures Stays(s, LockForDelete(s, t)) && Stays(s, CheckReferences(s, t)) && Stays(s, LockForPost(s, t))
    ensures Stays(s, Unlock(s, t))
  {
    hide Referenced, Usable, Blocked;
  }

  lemma MarkStays(s: State, t: TxId)
    ensures Stays(s, MarkDeleted(s, t))
  {
  }

  lemma CommitStays(s: State, t: TxId)
    ensures Stays(s, CommitPost(s, t))
  {
  }

  lemma NextStays(s: State, a: Action)
    ensures Stays(s, Next(s, a))
  {
    hide BeginUpload, WriteBytes, RecheckUpload, InsertUpload, LockForDelete, CheckReferences, MarkDeleted, LockForPost,
         CommitPost, Unlock;
    match a
    case Begin(u, owner, key, request) => BeginStays(s, u, owner, key, request);
    case Write(u, ok) => WriteStays(s, u, ok);
    case Recheck(u) => RecheckStays(s, u);
    case Insert(u) => InsertStays(s, u);
    case TakeDeleteLock(t) => LockingStays(s, t);
    case LookForReferences(t) => LockingStays(s, t);
    case FinishDelete(t) => MarkStays(s, t);
    case TakePostLock(t) => LockingStays(s, t);
    case FinishPost(t) => CommitStays(s, t);
    case RollBack(t) => LockingStays(s, t);
    case _ =>
  }

  lemma {:induction false} EveryRunStays(s: State, actions: seq<Action>)
    requires Inv(s)
    ensures Inv(Play(s, actions))
    ensures Stays(s, Play(s, actions))
  {
    hide Inv, Next;
    if actions != [] {
      var n := |actions| - 1;
      EveryRunStays(s, actions[..n]);
      NextStays(Play(s, actions[..n]), actions[n]);
      NextKeeps(Play(s, actions[..n]), actions[n]);
    }
  }

  /** An attachment that a message refers to is there, with its bytes, and is never deleted afterwards,
      whatever deletions and posts run concurrently. */
  lemma ReferencedNeverDeleted(s: State, message: MessageId, id: Id, actions: seq<Action>)
    requires Reachable(s) && (message, id) in s.references
    ensures var later := Play(s, actions);
            && id in later.rows && later.rows[id].status.Available? && Held(later, later.rows[id])
  {
    hide Reachable, UploadSound, TxSound, Play;
    ReachableSound(s);
    EveryRunStays(s, actions);
    assert (message, id) in Play(s, actions).references;
  }

  /** Every successful answer for one owner and key names the same attachment with the same content, under any
      interleaving of uploads, retries and crashes; the bytes were in storage first. */
  lemma OneAttachmentPerKey(s: State, u: UploadId, v: UploadId)
    requires Reachable(s) && u in s.uploads && v in s.uploads
    requires s.uploads[u].Answered? && s.uploads[u].answer.Uploaded?
    requires s.uploads[v].Answered? && s.uploads[v].answer.Uploaded?
    requires s.uploads[u].owner == s.uploads[v].owner && s.uploads[u].key == s.uploads[v].key
    ensures var a, b := s.uploads[u].answer.attachment, s.uploads[v].answer.attachment;
            && a.id == b.id && a.request == b.request
            && a.id.owner == s.uploads[u].owner && a.id.key == s.uploads[u].key
            && Held(s, a)
  {
    hide Reachable, TxSound;
    ReachableSound(s);
    assert UploadSound(s, s.uploads[u]) && UploadSound(s, s.uploads[v]);
    var a := s.uploads[u].answer.attachment;
    assert Held(s, s.rows[a.id]) && s.rows[a.id].id == a.id;
  }

  /** A successful answer need not name a usable attachment: once an unreferenced attachment has been
      deleted, repeating its upload is answered with the deleted one, and the key is used up. */
  lemma ReplayNamesTheDeleted(s: State, id: Id, t: TxId, u: UploadId)
    requires Reachable(s) && id in s.rows && s.rows[id].status.Available? && !Referenced(s, id) && id !in s.locks
    requires t !in s.txs && u !in s.uploads && Visible(s, id.session, id.owner)
    ensures var d1 := Next(s, StartDelete(t, id));
            var d2 := Next(d1, TakeDeleteLock(t));
            var d3 := Next(d2, LookForReferences(t));
            var d4 := Next(d3, FinishDelete(t));
            var d5 := Next(d4, Begin(u, id.owner, id.key, s.rows[id].request));
            && u in d5.uploads
            && d5.uploads[u] == Answered(id.owner, id.key, Uploaded(s.rows[id].(status := Deleted), true))
            && d5.rows == d4.rows
  {
    hide Reachable, UploadSound, TxSound;
    ReachableSound(s);
    var d4 := s.(rows := s.rows[id := s.rows[id].(status := Deleted)]);
    DeletionRuns(s, id, t);
    MarkedRows(s, id);
    hide Next;
    assert HasKey(d4, id.owner, id.key) && ByKey(d4, id.owner, id.key) == id;
    BeginReplays(d4, u, id);
  }

  /** The row with this owner and key has been deleted. */
  ghost predicate KeyGone(s: State, owner: OwnerId, key: Key) {
    exists id :: id in s.rows && id.owner == owner && id.key == key && s.rows[id].status.Deleted?
  }

  /** The transaction has just answered this upload with an attachment. */
  predicate Succeeds(s: State, s': State, u: UploadId) {
    && u in s'.uploads && s'.uploads[u].Answered? && s'.uploads[u].answer.Uploaded?
    && (u in s.uploads ==> !s.uploads[u].Answered?)
  }

  lemma KeyGoneIff(s: State, owner: OwnerId, key: Key)
    requires RowsSound(s) && HasKey(s, owner, key)
    ensures var id := ByKey(s, owner, key); id in s.rows && (s.rows[id].status.Deleted? <==> KeyGone(s, owner, key))
  {
    var id := ByKey(s, owner, key);
    hide ByKey;
    assert forall x :: x in s.rows && x.owner == owner && x.key == key ==> x == id;
  }

  /** A successful answer names a usable attachment if and only if the row under the caller's key, where there is
      one, has not been deleted; it is what the row then says, and only three transactions give one. */
  lemma AnswerUsableIff(s: State, a: Action, u: UploadId)
    requires Inv(s) && Succeeds(s, Next(s, a), u)
    ensures (a.Begin? || a.Recheck? || a.Insert?) && a.upload == u
    ensures var s' := Next(s, a); var owner, key := s'.uploads[u].owner, s'.uploads[u].key;
            var value := s'.uploads[u].answer.attachment;
            && (value.status.Available? <==> !KeyGone(s, owner, key))
            && value.id in s'.rows && s'.rows[value.id] == value && value.id.owner == owner && value.id.key == key
  {
    hide Inv, BeginUpload, WriteBytes, RecheckUpload, InsertUpload, LockForDelete, CheckReferences, MarkDeleted, LockForPost,
         CommitPost, Unlock, KeyGone;
    match a
    case Begin(v, owner, key, request) => BeginAnswer(s, v, owner, key, request, u);
    case Write(v, ok) => WriteAnswer(s, v, ok, u);
    case Recheck(v) => RecheckAnswer(s, v, u);
    case Insert(v) => InsertAnswer(s, v, u);
    case TakeDeleteLock(t) => TxAnswer(s, t);
    case LookForReferences(t) => TxAnswer(s, t);
    case FinishDelete(t) => TxAnswer(s, t);
    case TakePostLock(t) => TxAnswer(s, t);
    case FinishPost(t) => TxAnswer(s, t);
    case RollBack(t) => TxAnswer(s, t);
    case _ =>
  }

  lemma TxAnswer(s: State, t: TxId)
    ensures LockForDelete(s, t).uploads == s.uploads && CheckReferences(s, t).uploads == s.uploads
    ensures MarkDeleted(s, t).uploads == s.uploads && LockForPost(s, t).uploads == s.uploads
    ensures CommitPost(s, t).uploads == s.uploads && Unlock(s, t).uploads == s.uploads
  {
    hide Usable, Referenced, Blocked;
  }

  /** What an answer with an attachment says. */
  ghost predicate SaysTheRow(s: State, s': State, u: UploadId) {
    && u in s'.uploads && s'.uploads[u].Answered? && s'.uploads[u].answer.Uploaded?
    && var owner, key := s'.uploads[u].owner, s'.uploads[u].key; var value := s'.uploads[u].answer.attachment;
       && (value.status.Available? <==> !KeyGone(s, owner, key))
       && value.id in s'.rows && s'.rows[value.id] == value && value.id.owner == owner && value.id.key == key
  }

  lemma WriteAnswer(s: State, v: UploadId, ok: bool, u: UploadId)
    ensures !Succeeds(s, WriteBytes(s, v, ok), u)
  {
  }

  /** The answer from the row with the key. */
  lemma RowAnswer(s: State, u: UploadId, owner: OwnerId, key: Key)
    requires Inv(s) && HasKey(s, owner, key)
    ensures SaysTheRow(s, Answers(s, u, owner, key, Uploaded(s.rows[ByKey(s, owner, key)], true)), u)
  {
    KeyGoneIff(s, owner, key);
    hide UploadSound, TxSound, KeyGone;
  }

  lemma BeginAnswer(s: State, v: UploadId, owner: OwnerId, key: Key, request: Request, u: UploadId)
    requires Inv(s) && Succeeds(s, BeginUpload(s, v, owner, key, request), u)
    ensures v == u && SaysTheRow(s, BeginUpload(s, v, owner, key, request), u)
  {
    hide Inv, KeyGone;
    if HasKey(s, owner, key) { RowAnswer(s, v, owner, key); }
    hide ByKey, HasKey;
  }

  lemma RecheckAnswer(s: State, v: UploadId, u: UploadId)
    requires Inv(s) && Succeeds(s, RecheckUpload(s, v), u)
    ensures v == u && SaysTheRow(s, RecheckUpload(s, v), u)
  {
    hide Inv, KeyGone;
    if v in s.uploads && s.uploads[v].Stored? {
      var id := s.uploads[v].value.id;
      if HasKey(s, id.owner, id.key) { RowAnswer(s, v, id.owner, id.key); }
    }
    hide ByKey, HasKey;
  }

  lemma InsertAnswer(s: State, v: UploadId, u: UploadId)
    requires Inv(s) && Succeeds(s, InsertUpload(s, v), u)
    ensures v == u && SaysTheRow(s, InsertUpload(s, v), u)
  {
    if v in s.uploads && s.uploads[v].Rechecked? {
      var value := s.uploads[v].value;
      assert value.status.Available? by { assert UploadSound(s, s.uploads[v]); }
      hide Inv;
      if HasKey(s, value.id.owner, value.id.key) { RowAnswer(s, v, value.id.owner, value.id.key); }
    }
    hide ByKey, Inv;
  }

  lemma AnsweredForEver(s: State, a: Action, u: UploadId)
    requires u in s.uploads && s.uploads[u].Answered?
    ensures u in Next(s, a).uploads && Next(s, a).uploads[u] == s.uploads[u]
  {
    hide BeginUpload, WriteBytes, RecheckUpload, InsertUpload, LockForDelete, CheckReferences, MarkDeleted, LockForPost,
         CommitPost, Unlock;
    match a
    case Begin(v, owner, key, request) => BeginLeaves(s, v, owner, key, request, u);
    case Write(v, ok) => WriteLeaves(s, v, ok, u);
    case Recheck(v) => RecheckLeaves(s, v, u);
    case Insert(v) => InsertLeaves(s, v, u);
    case TakeDeleteLock(t) => TxAnswer(s, t);
    case LookForReferences(t) => TxAnswer(s, t);
    case FinishDelete(t) => TxAnswer(s, t);
    case TakePostLock(t) => TxAnswer(s, t);
    case FinishPost(t) => TxAnswer(s, t);
    case RollBack(t) => TxAnswer(s, t);
    case _ =>
  }

  lemma BeginLeaves(s: State, v: UploadId, owner: OwnerId, key: Key, request: Request, u: UploadId)
    requires u in s.uploads && s.uploads[u].Answered?
    ensures var s' := BeginUpload(s, v, owner, key, request); u in s'.uploads && s'.uploads[u] == s.uploads[u]
  {
    hide HasKey, ByKey, Visible;
  }

  lemma WriteLeaves(s: State, v: UploadId, ok: bool, u: UploadId)
    requires u in s.uploads && s.uploads[u].Answered?
    ensures var s' := WriteBytes(s, v, ok); u in s'.uploads && s'.uploads[u] == s.uploads[u]
  {
  }

  lemma RecheckLeaves(s: State, v: UploadId, u: UploadId)
    requires u in s.uploads && s.uploads[u].Answered?
    ensures var s' := RecheckUpload(s, v); u in s'.uploads && s'.uploads[u] == s.uploads[u]
  {
    hide HasKey, ByKey, Visible;
  }

  lemma InsertLeaves(s: State, v: UploadId, u: UploadId)
    requires u in s.uploads && s.uploads[u].Answered?
    ensures var s' := InsertUpload(s, v); u in s'.uploads && s'.uploads[u] == s.uploads[u]
  {
    if v in s.uploads && s.uploads[v].Rechecked? {
      assert v != u;
      InsertAnswers(s, v);
      hide InsertUpload;
    }
  }

  lemma InsertAnswers(s: State, v: UploadId)
    requires v in s.uploads && s.uploads[v].Rechecked?
    ensures var after := InsertUpload(s, v).uploads; v in after && after == s.uploads[v := after[v]]
  {
    hide Answers;
    var value := s.uploads[v].value;
    var owner, key := value.id.owner, value.id.key;
    if value.id !in s.rows && !HasKey(s, owner, key) {
      AnswersStay(s.(rows := s.rows[value.id := value]), v, owner, key, Uploaded(value, false));
    } else if !HasKey(s, owner, key) {
      AnswersStay(s, v, owner, key, Raised);
    } else {
      var row := s.rows[ByKey(s, owner, key)];
      var conflict := row.id.session != value.id.session || row.request != value.request;
      AnswersStay(s, v, owner, key, if conflict then Conflict else Uploaded(row, true));
    }
  }

  /** A deleted attachment uses up its key: over every further run, each upload that is answered later for this owner
      and key with success is answered with the deleted attachment. */
  lemma {:induction false} DeletedKeyIsUsedUp(s: State, owner: OwnerId, key: Key, actions: seq<Action>, u: UploadId)
    requires Inv(s) && KeyGone(s, owner, key)
    ensures var later := Play(s, actions);
            && Inv(later) && KeyGone(later, owner, key)
            && (Succeeds(s, later, u) && later.uploads[u].owner == owner && later.uploads[u].key == key ==>
                  later.uploads[u].answer.attachment.status.Deleted?)
  {
    hide Inv, Next, KeyGone;
    if actions != [] {
      var n := |actions| - 1;
      var middle := Play(s, actions[..n]);
      DeletedKeyIsUsedUp(s, owner, key, actions[..n], u);
      NextKeeps(middle, actions[n]);
      NextStays(middle, actions[n]);
      GoneStays(middle, Next(middle, actions[n]), owner, key);
      if u in middle.uploads && middle.uploads[u].Answered? {
        AnsweredForEver(middle, actions[n], u);
      } else if Succeeds(middle, Next(middle, actions[n]), u) {
        AnswerUsableIff(middle, actions[n], u);
      }
    }
  }

  lemma GoneStays(s: State, s': State, owner: OwnerId, key: Key)
    requires Stays(s, s') && KeyGone(s, owner, key)
    ensures KeyGone(s', owner, key)
  {
  }

  lemma DeletionRuns(s: State, id: Id, t: TxId)
    requires Inv(s) && id in s.rows && s.rows[id].status.Available? && !Referenced(s, id) && id !in s.locks && t !in s.txs
    ensures Next(Next(Next(Next(s, StartDelete(t, id)), TakeDeleteLock(t)), LookForReferences(t)), FinishDelete(t))
            == s.(rows := s.rows[id := s.rows[id].(status := Deleted)])
  {
    assert forall x :: x in s.locks ==> s.locks[x] != t;
    hide Inv, LockForDelete, CheckReferences, MarkDeleted, Referenced;
    LockRuns(s, id, t);
    CheckRuns(s, id, t);
    MarkRuns(s, id, t);
    hide Next, Deleting;
    var d1 := s.(txs := s.txs[t := DeleteWaiting(id)]);
    NextDeletes(s, t, id);
    NextDeletes(d1, t, id);
    NextDeletes(Deleting(s, id, t, DeleteLocked(id)), t, id);
    NextDeletes(Deleting(s, id, t, DeleteChecked(id)), t, id);
  }

  lemma NextDeletes(s: State, t: TxId, id: Id)
    ensures t !in s.txs ==> Next(s, StartDelete(t, id)) == s.(txs := s.txs[t := DeleteWaiting(id)])
    ensures Next(s, TakeDeleteLock(t)) == LockForDelete(s, t)
    ensures Next(s, LookForReferences(t)) == CheckReferences(s, t)
    ensures Next(s, FinishDelete(t)) == MarkDeleted(s, t)
  {
    hide LockForDelete, CheckReferences, MarkDeleted;
  }

  /** The deletion holding its row's lock, before and after it has looked for references. */
  function Deleting(s: State, id: Id, t: TxId, tx: Tx): State {
    s.(locks := s.locks[id := t], txs := s.txs[t := tx])
  }

  lemma LockRuns(s: State, id: Id, t: TxId)
    requires id in s.rows && s.rows[id].status.Available? && id !in s.locks && t !in s.txs
    ensures LockForDelete(s.(txs := s.txs[t := DeleteWaiting(id)]), t) == Deleting(s, id, t, DeleteLocked(id))
  {
    assert s.txs[t := DeleteWaiting(id)][t := DeleteLocked(id)] == s.txs[t := DeleteLocked(id)];
  }

  lemma CheckRuns(s: State, id: Id, t: TxId)
    requires !Referenced(s, id) && t !in s.txs
    ensures CheckReferences(Deleting(s, id, t, DeleteLocked(id)), t) == Deleting(s, id, t, DeleteChecked(id))
  {
    assert s.txs[t := DeleteLocked(id)][t := DeleteChecked(id)] == s.txs[t := DeleteChecked(id)];
  }

  lemma MarkRuns(s: State, id: Id, t: TxId)
    requires id in s.rows && s.rows[id].status.Available?
    requires t !in s.txs && id !in s.locks && forall x :: x in s.locks ==> s.locks[x] != t
    ensures MarkDeleted(Deleting(s, id, t, DeleteChecked(id)), t) == s.(rows := s.rows[id := s.rows[id].(status := Deleted)])
  {
    var locks := s.locks[id := t];
    assert s.txs[t := DeleteChecked(id)] - {t} == s.txs;
    assert (map x | x in locks && locks[x] != t :: locks[x]) == s.locks;
  }

  lemma BeginReplays(s: State, u: UploadId, id: Id)
    requires u !in s.uploads && Visible(s, id.session, id.owner) && id in s.rows && s.rows[id].id == id
    requires HasKey(s, id.owner, id.key) && ByKey(s, id.owner, id.key) == id && s.rows[id].request.session == id.session
    ensures Next(s, Begin(u, id.owner, id.key, s.rows[id].request))
            == Answers(s, u, id.owner, id.key, Uploaded(s.rows[id], true))
  {
  }

  // ---- progress ----------------------------------------------------------------------------------------------------

  /** The row a transaction waits for. */
  function Wanted(s: State, t: TxId): Option<Id>
    requires t in s.txs
  {
    match s.txs[t]
    case DeleteWaiting(id) => Some(id)
    case PostLocking(_, _, _, ids, next, _) => if next < |ids| then Some(ids[next]) else None
    case _ => None
  }

  predicate Waits(s: State, t: TxId)
    requires t in s.txs
  {
    Wanted(s, t).Some? && Blocked(s, t, Wanted(s, t).value)
  }

  /** Every post asks for its rows in the order of the identifiers. */
  ghost predicate InOrder(s: State, rank: Id -> int) {
    forall t :: t in s.txs && s.txs[t].PostLocking? ==>
      forall i, j :: 0 <= i < j < |s.txs[t].ids| ==> rank(s.txs[t].ids[i]) < rank(s.txs[t].ids[j])
  }

  /** A lock belongs to a row its transaction has already asked for. */
  ghost predicate LocksAsked(s: State) {
    forall id :: id in s.locks ==> s.locks[id] in s.txs && Asked(s.txs[s.locks[id]], id)
  }

  predicate Asked(tx: Tx, id: Id) {
    match tx
    case DeleteWaiting(_) => false
    case DeleteLocked(x) => x == id
    case DeleteChecked(x) => x == id
    case PostLocking(_, _, _, ids, next, _) => exists i :: 0 <= i < next && i < |ids| && ids[i] == id
  }

  lemma UnlockAsked(s: State, t: TxId)
    requires LocksAsked(s)
    ensures LocksAsked(Unlock(s, t))
  {
    hide Asked;
  }

  lemma LockStepsAsked(s: State, t: TxId)
    requires LocksAsked(s)
    ensures LocksAsked(LockForDelete(s, t)) && LocksAsked(CheckReferences(s, t))
    ensures LocksAsked(MarkDeleted(s, t)) && LocksAsked(CommitPost(s, t))
  {
    hide Referenced, Unlock;
    UnlockAsked(s, t);
    MarkAsked(s, t);
    CommitAsked(s, t);
    hide MarkDeleted, CommitPost;
  }

  lemma MarkAsked(s: State, t: TxId)
    requires LocksAsked(s)
    ensures LocksAsked(MarkDeleted(s, t))
  {
    hide Asked;
  }

  lemma CommitAsked(s: State, t: TxId)
    requires LocksAsked(s)
    ensures LocksAsked(CommitPost(s, t))
  {
    hide Asked;
  }

  lemma AskedStays(tx: Tx, tx': Tx)
    requires tx.PostLocking? && tx'.PostLocking? && tx'.ids == tx.ids && tx.next <= tx'.next
    ensures forall id :: Asked(tx, id) ==> Asked(tx', id)
  {
  }

  lemma LockForPostAsked(s: State, t: TxId)
    requires LocksAsked(s)
    ensures LocksAsked(LockForPost(s, t))
  {
    hide Usable, Blocked, Asked, LocksAsked;
    var s' := LockForPost(s, t);
    if t in s.txs && s.txs[t].PostLocking? && s.txs[t].next < |s.txs[t].ids| && s' != s {
      AskedStays(s.txs[t], s'.txs[t]);
      var id := s.txs[t].ids[s.txs[t].next];
      AskedGrows(s.txs[t], s'.txs[t], id);
      assert s'.txs == s.txs[t := s'.txs[t]] && (s'.locks == s.locks || s'.locks == s.locks[id := t]);
      hide LockForPost;
      TakenAsked(s, s', t, id);
    }
  }

  lemma TakenAsked(s: State, s': State, t: TxId, id: Id)
    requires LocksAsked(s) && t in s.txs && t in s'.txs && s'.txs == s.txs[t := s'.txs[t]]
    requires s'.locks == s.locks || s'.locks == s.locks[id := t]
    requires Asked(s'.txs[t], id) && forall x :: Asked(s.txs[t], x) ==> Asked(s'.txs[t], x)
    ensures LocksAsked(s')
  {
    hide Asked;
  }

  lemma LocksAskedNext(s: State, a: Action)
    requires LocksAsked(s)
    ensures LocksAsked(Next(s, a))
  {
    hide BeginUpload, WriteBytes, RecheckUpload, InsertUpload, LockForDelete, CheckReferences, MarkDeleted, LockForPost,
         CommitPost, Unlock, Asked;
    match a
    case Begin(u, owner, key, request) => BeginStays(s, u, owner, key, request);
    case Write(u, ok) => WriteStays(s, u, ok);
    case Recheck(u) => RecheckStays(s, u);
    case Insert(u) => InsertStays(s, u);
    case TakeDeleteLock(t) => LockStepsAsked(s, t);
    case LookForReferences(t) => LockStepsAsked(s, t);
    case FinishDelete(t) => LockStepsAsked(s, t);
    case TakePostLock(t) => LockForPostAsked(s, t);
    case FinishPost(t) => LockStepsAsked(s, t);
    case RollBack(t) => UnlockAsked(s, t);
    case _ =>
  }

  lemma AskedGrows(tx: Tx, tx': Tx, id: Id)
    requires tx.PostLocking? && tx'.PostLocking? && tx'.ids == tx.ids && tx.next <= tx'.next <= tx.next + 1
    ensures Asked(tx, id) ==> Asked(tx', id)
    ensures tx.next < |tx.ids| && tx.ids[tx.next] == id && tx'.next == tx.next + 1 ==> Asked(tx', id)
  {
    if tx.next < |tx.ids| && tx.ids[tx.next] == id && tx'.next == tx.next + 1 {
      assert tx'.ids[tx.next] == id;
    }
  }

  /** Every post of the run asks for its rows in the order of the identifiers, as the locking query does. */
  predicate PostsInOrder(actions: seq<Action>, rank: Id -> int) {
    forall a :: a in actions && a.StartPost? ==> forall i, j :: 0 <= i < j < |a.ids| ==> rank(a.ids[i]) < rank(a.ids[j])
  }

  /** Transactions never wait for each other in a circle: of any that are under way at any point of any run, one
      can go on. */
  lemma SomeoneCanGoOn(actions: seq<Action>, rank: Id -> int)
    requires PostsInOrder(actions, rank)
    ensures var s := Play(EMPTY, actions); s.txs.Keys != {} ==> exists t :: t in s.txs && !Waits(s, t)
  {
    LocksAlwaysAsked(actions);
    AlwaysInOrder(actions, rank);
    hide Play, LocksAsked, InOrder;
    var s := Play(EMPTY, actions);
    if s.txs.Keys != {} && forall t :: t in s.txs ==> Waits(s, t) {
      var t := LastWaiting(s, rank, s.txs.Keys);
      HolderKnown(s, t);
      HolderWantsMore(s, rank, t);
    }
  }

  lemma HolderKnown(s: State, t: TxId)
    requires LocksAsked(s) && t in s.txs && Waits(s, t)
    ensures s.locks[Wanted(s, t).value] in s.txs
  {
  }

  lemma {:induction false} AlwaysInOrder(actions: seq<Action>, rank: Id -> int)
    requires PostsInOrder(actions, rank)
    ensures InOrder(Play(EMPTY, actions), rank)
  {
    hide Next, InOrder;
    if actions == [] {
      assert InOrder(EMPTY, rank) by { EmptyInOrder(rank); }
    } else {
      var n := |actions| - 1;
      AlwaysInOrder(actions[..n], rank);
      assert actions[n] in actions;
      NextInOrder(Play(EMPTY, actions[..n]), actions[n], rank);
    }
  }

  lemma EmptyInOrder(rank: Id -> int)
    ensures InOrder(EMPTY, rank)
  {
  }

  /** A transaction of the later state is new, or one of the earlier state with the same rows to ask for. */
  predicate KeepsIds(s: State, s': State) {
    forall t :: t in s'.txs && s'.txs[t].PostLocking? ==> t in s.txs && s.txs[t].PostLocking? && s'.txs[t].ids == s.txs[t].ids
  }

  lemma UnlockKeepsIds(s: State, t: TxId)
    ensures KeepsIds(s, Unlock(s, t)) && KeepsIds(s, s)
  {
  }

  lemma StepsKeepIds(s: State, t: TxId)
    ensures KeepsIds(s, LockForDelete(s, t)) && KeepsIds(s, CheckReferences(s, t)) && KeepsIds(s, MarkDeleted(s, t))
    ensures KeepsIds(s, LockForPost(s, t)) && KeepsIds(s, CommitPost(s, t)) && KeepsIds(s, Unlock(s, t))
  {
    hide *;
    UnlockKeepsIds(s, t);
    LockKeepsIds(s, t);
    PostKeepsIds(s, t);
    UnlockingKeepsIds(s, t);
  }

  lemma LockKeepsIds(s: State, t: TxId)
    ensures KeepsIds(s, LockForDelete(s, t)) && KeepsIds(s, CheckReferences(s, t))
  {
    hide Referenced, Unlock;
    UnlockKeepsIds(s, t);
  }

  lemma PostKeepsIds(s: State, t: TxId)
    ensures KeepsIds(s, LockForPost(s, t))
  {
    hide Usable;
  }

  lemma UnlockingKeepsIds(s: State, t: TxId)
    ensures KeepsIds(s, MarkDeleted(s, t)) && KeepsIds(s, CommitPost(s, t))
  {
  }

  lemma OrderStays(s: State, s': State, rank: Id -> int)
    requires InOrder(s, rank) && KeepsIds(s, s')
    ensures InOrder(s', rank)
  {
  }

  lemma NextInOrder(s: State, a: Action, rank: Id -> int)
    requires InOrder(s, rank) && PostsInOrder([a], rank)
    ensures InOrder(Next(s, a), rank)
  {
    if a.StartPost? {
      assert a in [a];
    } else {
      hide InOrder;
      NextKeepsIds(s, a);
      OrderStays(s, Next(s, a), rank);
    }
  }

  lemma NextKeepsIds(s: State, a: Action)
    requires !a.StartPost?
    ensures KeepsIds(s, Next(s, a))
  {
    hide BeginUpload, WriteBytes, RecheckUpload, InsertUpload, LockForDelete, CheckReferences, MarkDeleted, LockForPost,
         CommitPost, Unlock, Stays;
    match a
    case Begin(u, owner, key, request) => BeginStays(s, u, owner, key, request);
    case Write(u, ok) => WriteStays(s, u, ok);
    case Recheck(u) => RecheckStays(s, u);
    case Insert(u) => InsertStays(s, u);
    case TakeDeleteLock(t) => StepsKeepIds(s, t);
    case LookForReferences(t) => StepsKeepIds(s, t);
    case FinishDelete(t) => StepsKeepIds(s, t);
    case TakePostLock(t) => StepsKeepIds(s, t);
    case FinishPost(t) => StepsKeepIds(s, t);
    case RollBack(t) => StepsKeepIds(s, t);
    case _ =>
  }

  /** Whoever holds the row that another waits for, and waits too, wants a row of a higher rank. */
  lemma HolderWantsMore(s: State, rank: Id -> int, t: TxId)
    requires LocksAsked(s) && InOrder(s, rank) && t in s.txs && Waits(s, t)
    requires s.locks[Wanted(s, t).value] in s.txs && Waits(s, s.locks[Wanted(s, t).value])
    ensures rank(Wanted(s, t).value) < rank(Wanted(s, s.locks[Wanted(s, t).value]).value)
  {
    var id := Wanted(s, t).value;
    var holder := s.txs[s.locks[id]];
    assert Asked(holder, id);
    var i :| 0 <= i < holder.next && i < |holder.ids| && holder.ids[i] == id;
    assert rank(holder.ids[i]) < rank(holder.ids[holder.next]);
  }

  /** Among waiting transactions, one that wants a row of the highest rank. */
  lemma LastWaiting(s: State, rank: Id -> int, ts: set<TxId>) returns (last: TxId)
    requires ts != {} && ts <= s.txs.Keys && forall t :: t in ts ==> Waits(s, t)
    ensures last in ts && Waits(s, last)
    ensures forall t :: t in ts ==> Waits(s, t) && rank(Wanted(s, t).value) <= rank(Wanted(s, last).value)
    decreases |ts|
  {
    var first :| first in ts;
    last := first;
    if ts - {first} != {} {
      var other := LastWaiting(s, rank, ts - {first});
      if rank(Wanted(s, other).value) > rank(Wanted(s, first).value) { last := other; }
      assert forall t :: t in ts && t != first ==> t in ts - {first};
    } else {
      assert ts == {first};
    }
  }

  lemma {:induction false} LocksAlwaysAsked(actions: seq<Action>)
    ensures LocksAsked(Play(EMPTY, actions))
  {
    hide Next;
    if actions != [] {
      LocksAlwaysAsked(actions[..|actions| - 1]);
      LocksAskedNext(Play(EMPTY, actions[..|actions| - 1]), actions[|actions| - 1]);
    }
  }
}
