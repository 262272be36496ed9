/** The attachment service, one method for each transaction or storage call. */
module AttachmentService {
  import opened Wrappers
  import opened Attachments

  class AgentAttachmentService {
    var state: State

    constructor ()
      ensures state == EMPTY
    {
      state := EMPTY;
    }

    /** The row with this owner and key, if there is one. */
    method GetByIdempotencyKey(owner: OwnerId, key: Key) returns (found: Option<Attachment>)
      requires RowsSound(state)
      ensures found.Some? <==> HasKey(state, owner, key)
      ensures found.Some? ==> found.value == state.rows[ByKey(state, owner, key)]
    {
      if id :| id in state.rows && id.owner == owner && id.key == key {
        assert id == ByKey(state, owner, key);
        return Some(state.rows[id]);
      }
      return None;
    }

    method Finish(u: UploadId, owner: OwnerId, key: Key, answer: Answer)
      modifies this
      ensures state == Answers(old(state), u, owner, key, answer)
    {
      state := state.(uploads := state.uploads[u := Answered(owner, key, answer)]);
    }

    /** Up to the storage call. */
    method StartUpload(u: UploadId, owner: OwnerId, key: Key, request: Request)
      requires Inv(state) && u !in state.uploads
      modifies this
      ensures state == BeginUpload(old(state), u, owner, key, request)
    {
      hide HasKey, ByKey;
      if request.session !in state.sessions || state.sessions[request.session] != owner {
        Finish(u, owner, key, SessionMissing);
        return;
      }
      var existing := GetByIdempotencyKey(owner, key);
      if existing.Some? {
        var row := existing.value;
        if row.id.session != request.session || row.request != request {
          Finish(u, owner, key, Conflict);
        } else {
          Finish(u, owner, key, Uploaded(row, true));
        }
        return;
      }
      var value := Attachment(Id(owner, request.session, key), request, Available);
      state := state.(uploads := state.uploads[u := Writing(value)]);
    }

    /** The storage call. */
    method StoreContent(u: UploadId, ok: bool)
      requires u in state.uploads && state.uploads[u].Writing?
      modifies this
      ensures state == WriteBytes(old(state), u, ok)
    {
      var value := state.uploads[u].value;
      if !ok {
        Finish(u, value.id.owner, value.id.key, StorageFailed);
      } else {
        state := state.(storage := state.storage[value.Path() := value.request.content]);
        state := state.(uploads := state.uploads[u := Stored(value)]);
      }
    }

    /** The second transaction up to its insert: session and key are looked up again. Others may commit before
        the insert. */
    method RecheckKey(u: UploadId)
      requires Inv(state) && u in state.uploads && state.uploads[u].Stored?
      modifies this
      ensures state == RecheckUpload(old(state), u)
    {
      hide HasKey, ByKey, Inv;
      SoundRows(state);
      var value := state.uploads[u].value;
      var owner, key := value.id.owner, value.id.key;
      if value.id.session !in state.sessions || state.sessions[value.id.session] != owner {
        Finish(u, owner, key, SessionMissing);
        return;
      }
      var existing := GetByIdempotencyKey(owner, key);
      if existing.Some? {
        Finish(u, owner, key, if existing.value.request != value.request then Conflict else Uploaded(existing.value, true));
      } else {
        state := state.(uploads := state.uploads[u := Rechecked(value)]);
      }
    }

    /** The insert that does nothing on a conflict and then reads the row with the key, and the answer. */
    method InsertAndAnswer(u: UploadId)
      requires Inv(state) && u in state.uploads && state.uploads[u].Rechecked?
      modifies this
      ensures state == InsertUpload(old(state), u)
      ensures Inv(state)
    {
      hide ByKey, Inv;
      SoundRows(state);
      InsertKeeps(state, u);
      var value := state.uploads[u].value;
      var owner, key := value.id.owner, value.id.key;
      var found := GetByIdempotencyKey(owner, key);
      hide HasKey;
      if value.id !in state.rows && found.None? {
        state := state.(rows := state.rows[value.id := value]);
        Finish(u, owner, key, Uploaded(value, false));
      } else if found.None? {
        // The identifier is made from owner, session and key, so it cannot be taken by another key.
        assert false;
      } else if found.value.id.session != value.id.session || found.value.request != value.request {
        Finish(u, owner, key, Conflict);
      } else {
        Finish(u, owner, key, Uploaded(found.value, true));
      }
    }

    /** The whole deletion, once the row lock is free; says whether the attachment was deleted. */
    method Delete(id: Id) returns (deleted: bool)
      requires Inv(state) && id !in state.locks
      modifies this
      ensures deleted <==> id in old(state).rows && old(state).rows[id].status.Available? && !Referenced(old(state), id)
      ensures state == if deleted then old(state).(rows := old(state).rows[id := old(state).rows[id].(status := Deleted)])
                       else old(state)
      ensures Inv(state)
    {
      if id !in state.rows || !state.rows[id].status.Available? {
        return false;
      }
      if exists r :: r in state.references && r.1 == id {
        return false;
      }
      MarkKeeps(state, id);
      hide Inv;
      state := state.(rows := state.rows[id := state.rows[id].(status := Deleted)]);
      return true;
    }
  }

  lemma SoundRows(s: State)
    requires Inv(s)
    ensures RowsSound(s)
  {
    hide RowsSound;
  }
}
