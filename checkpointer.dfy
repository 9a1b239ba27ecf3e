/** Conversation memory: one stored document per thread, holding the pickled state and the
    conversation history. */
module Checkpointer {
  import opened Common
  import opened WorkflowState

  /** A stored document: either field may be missing in what the database holds. */
  datatype StoredDoc = StoredDoc(state: Option<RagState>, conversationHistory: Option<seq<Item>>)

  type Collection = map<string, StoredDoc>

  /** The upsert of save_state: the thread's document gets the state and its history. */
  function Saved(docs: Collection, threadId: string, state: RagState): Collection {
    docs[threadId := StoredDoc(Some(state), Some(state.conversationHistory))]
  }

  /** load_state on a reachable database: the stored state, or nothing for a missing document or
      a document without a state. */
  function Loaded(docs: Collection, threadId: string): Option<RagState> {
    if threadId in docs then docs[threadId].state else None
  }

  /** get_conversation_history on a reachable database: the stored history, or []. */
  function History(docs: Collection, threadId: string): seq<Item> {
    if threadId in docs && docs[threadId].conversationHistory.Some? then docs[threadId].conversationHistory.value
    else []
  }

  /** delete_many on the thread. */
  function Deleted(docs: Collection, threadId: string): Collection {
    docs - {threadId}
  }

  function DeletedCount(docs: Collection, threadId: string): nat {
    if threadId in docs then 1 else 0
  }

  /** Save then load on the same thread returns the state saved, and its history. */
  lemma LoadAfterSave(docs: Collection, threadId: string, state: RagState)
    ensures Loaded(Saved(docs, threadId, state), threadId) == Some(state)
    ensures History(Saved(docs, threadId, state), threadId) == state.conversationHistory
  {
  }

  /** A second save to the thread replaces the first. */
  lemma LastWriteWins(docs: Collection, threadId: string, first: RagState, second: RagState)
    ensures Saved(Saved(docs, threadId, first), threadId, second) == Saved(docs, threadId, second)
  {
  }

  /** Saving or deleting one thread leaves every other thread as it was. */
  lemma ThreadsIsolated(docs: Collection, threadId: string, other: string, state: RagState)
    requires threadId != other
    ensures Loaded(Saved(docs, threadId, state), other) == Loaded(docs, other)
    ensures History(Saved(docs, threadId, state), other) == History(docs, other)
    ensures Loaded(Deleted(docs, threadId), other) == Loaded(docs, other)
    ensures History(Deleted(docs, threadId), other) == History(docs, other)
  {
  }

  /** After a delete the thread has no state and no history; the count is 0 exactly for an
      unknown thread. */
  lemma DeleteForgets(docs: Collection, threadId: string)
    ensures Loaded(Deleted(docs, threadId), threadId) == None
    ensures History(Deleted(docs, threadId), threadId) == []
    ensures DeletedCount(docs, threadId) == 0 <==> threadId !in docs
    ensures |Deleted(docs, threadId)| + DeletedCount(docs, threadId) == |docs|
  {
    if threadId in docs {
      assert Deleted(docs, threadId).Keys == docs.Keys - {threadId};
    } else {
      assert Deleted(docs, threadId) == docs;
    }
  }

  /** The database behind the checkpointer. `reachable` stands for whether the database
      operation goes through; a failing one raises inside the driver. */
  class Store {
    var docs: Collection

    constructor (existing: Collection)
      ensures docs == existing
    {
      docs := existing;
    }

    /** save_state: True after the upsert, False and nothing stored when the database fails. */
    method SaveState(threadId: string, state: RagState, reachable: bool) returns (ok: bool)
      modifies this
      ensures ok == reachable
      ensures docs == if reachable then Saved(old(docs), threadId, state) else old(docs)
    {
      if !reachable {
        return false;
      }
      docs := docs[threadId := StoredDoc(Some(state), Some(state.conversationHistory))];
      return true;
    }

    /** load_state: None when the database fails. */
    method LoadState(threadId: string, reachable: bool) returns (state: Option<RagState>)
      ensures state == if reachable then Loaded(docs, threadId) else None
    {
      if !reachable {
        return None;
      }
      if threadId in docs && docs[threadId].state.Some? {
        return docs[threadId].state;
      }
      return None;
    }

    /** get_conversation_history: [] when the database fails. */
    method GetConversationHistory(threadId: string, reachable: bool) returns (history: seq<Item>)
      ensures history == if reachable then History(docs, threadId) else []
    {
      if !reachable {
        return [];
      }
      if threadId in docs && docs[threadId].conversationHistory.Some? {
        return docs[threadId].conversationHistory.value;
      }
      return [];
    }

    /** delete_thread: the number of documents removed; a database failure propagates. */
    method DeleteThread(threadId: string, reachable: bool) returns (r: Result<nat>)
      modifies this
      ensures reachable ==> r == Success(DeletedCount(old(docs), threadId)) && docs == Deleted(old(docs), threadId)
      ensures !reachable ==> r == Failure(StoreError) && docs == old(docs)
    {
      if !reachable {
        return Failure(StoreError);
      }
      var count := if threadId in docs then 1 else 0;
      docs := docs - {threadId};
      return Success(count);
    }
  }
}
