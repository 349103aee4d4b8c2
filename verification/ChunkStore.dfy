/**
  The in-memory chunk store of rag/storage/chunk_store.py with the write validation of
  rag/storage/chunk_validation.py: two dictionaries that must agree.
 */
module ChunkStore {
  import opened Prelude
  import opened Types
  import opened VectorSearch

  datatype Store = Store(chunks: map<Id, StoredChunk>, byDocument: map<Id, set<Id>>)

  datatype StoreError = WriteFailure | InvalidBatch | Interrupted

  // ----- Specification

  /** Every chunk is listed under its own document and nowhere else. */
  ghost predicate Consistent(s: Store) {
    && (forall c :: c in s.chunks ==> s.chunks[c].chunkId == c && c in IdsOf(s, s.chunks[c].documentId))
    && (forall d, c :: d in s.byDocument && c in s.byDocument[d] ==> c in s.chunks && s.chunks[c].documentId == d)
  }

  function IdsOf(s: Store, documentId: Id): set<Id> {
    if documentId in s.byDocument then s.byDocument[documentId] else {}
  }

  /** The chunks of one document. */
  function ChunksOf(s: Store, documentId: Id): map<Id, StoredChunk> {
    map c | c in s.chunks && s.chunks[c].documentId == documentId :: s.chunks[c]
  }

  predicate ValidChunk(chunk: StoredChunk) {
    && chunk.embedding.Some? && chunk.modelId.Some? && chunk.dimension.Some?
    && |chunk.embedding.value.shape| == 1 && chunk.embedding.value.shape[0] == chunk.dimension.value
    && chunk.embedding.value.float32
  }

  predicate ValidBatch(documentId: Id, batch: seq<StoredChunk>) {
    && (forall i :: 0 <= i < |batch| ==> batch[i].documentId == documentId && ValidChunk(batch[i]))
    && (forall i :: 0 <= i < |batch| ==>
                      batch[i].companyId == batch[0].companyId && batch[i].departmentId == batch[0].departmentId)
  }

  /** The batch as a dictionary: a later chunk of the same id wins. */
  function BatchMap(batch: seq<StoredChunk>): (r: map<Id, StoredChunk>)
    ensures forall c :: c in r ==> r[c] in batch && r[c].chunkId == c
    ensures forall i :: 0 <= i < |batch| ==> batch[i].chunkId in r
  {
    if batch == [] then map[]
    else
      var last := batch[|batch| - 1];
      BatchMap(batch[..|batch| - 1])[last.chunkId := last]
  }

  lemma BatchMapNext(base: map<Id, StoredChunk>, batch: seq<StoredChunk>, i: nat)
    requires i < |batch|
    ensures base + BatchMap(batch[..i + 1]) == (base + BatchMap(batch[..i]))[batch[i].chunkId := batch[i]]
    ensures BatchMap(batch[..i + 1]).Keys == BatchMap(batch[..i]).Keys + {batch[i].chunkId}
  {
    assert batch[..i + 1][..i] == batch[..i];
    var m := BatchMap(batch[..i]);
    assert BatchMap(batch[..i + 1]) == m[batch[i].chunkId := batch[i]];
    hide BatchMap;
  }

  lemma NothingWritten(base: map<Id, StoredChunk>, batch: seq<StoredChunk>)
    ensures base == base + BatchMap(batch[..0]) && BatchMap(batch[..0]).Keys == {}
  {
  }

  function Replace(s: Store, documentId: Id, batch: seq<StoredChunk>): Store {
    var new_ := BatchMap(batch);
    Store((s.chunks + new_) - (IdsOf(s, documentId) - new_.Keys), s.byDocument[documentId := new_.Keys])
  }

  function SetStatus(s: Store, documentId: Id, status: string): Store {
    var ids := IdsOf(s, documentId);
    s.(chunks := map c | c in s.chunks :: if c in ids then s.chunks[c].(status := Some(status)) else s.chunks[c])
  }

  function DeleteDocument(s: Store, documentId: Id): Store {
    Store(s.chunks - IdsOf(s, documentId), s.byDocument - {documentId})
  }

  // ----- The class

  class InMemoryChunkStore {
    var chunks: map<Id, StoredChunk>
    var byDocument: map<Id, set<Id>>
    var failOnWrite: bool

    ghost function View(): Store
      reads this
    {
      Store(chunks, byDocument)
    }

    constructor ()
      ensures View() == Store(map[], map[]) && !failOnWrite
    {
      chunks, byDocument, failOnWrite := map[], map[], false;
    }

    method SetDocumentStatus(documentId: Id, status: string) returns (count: nat)
      modifies this`chunks
      ensures View() == SetStatus(old(View()), documentId, status)
      ensures count == |IdsOf(old(View()), documentId)|
    {
      var ids := if documentId in byDocument then byDocument[documentId] else {};
      var todo := ids;
      while todo != {}
        invariant todo <= ids
        invariant chunks == map c | c in old(chunks) ::
                    if c in ids - todo then old(chunks)[c].(status := Some(status)) else old(chunks)[c]
        decreases todo
      {
        var c :| c in todo;
        if c in chunks {
          chunks := chunks[c := chunks[c].(status := Some(status))];
        }
        todo := todo - {c};
      }
      count := |ids|;
    }

    /** Writes the chunks in order, up to the one before which an exception interrupts, if any. */
    method WriteChunks(batch: seq<StoredChunk>, fault: Option<nat>) returns (newIds: set<Id>, interrupted: bool)
      modifies this`chunks
      ensures interrupted <==> fault.Some? && fault.value < |batch|
      ensures !interrupted ==> chunks == old(chunks) + BatchMap(batch) && newIds == BatchMap(batch).Keys
    {
      interrupted := fault.Some? && fault.value < |batch|;
      var end := if interrupted then fault.value else |batch|;
      newIds := {};
      ghost var base := chunks;
      NothingWritten(base, batch);
      hide *;
      for i := 0 to end
        invariant chunks == base + BatchMap(batch[..i])
        invariant newIds == BatchMap(batch[..i]).Keys
      {
        BatchMapNext(base, batch, i);
        chunks := chunks[batch[i].chunkId := batch[i]];
        newIds := newIds + {batch[i].chunkId};
      }
      assert batch[..|batch|] == batch;
    }

    /**
      `fault` is the number of chunks written before some exception interrupts the writes, if
      one does; the snapshots then restore both dictionaries.
     */
    method ReplaceDocumentChunks(documentId: Id, batch: seq<StoredChunk>, fault: Option<nat> := None)
      returns (r: Result<(), StoreError>)
      modifies this`chunks, this`byDocument
      ensures r.Ok? <==> !failOnWrite && ValidBatch(documentId, batch) && !(fault.Some? && fault.value < |batch|)
      ensures r == Err(InvalidBatch) <==>
                && !failOnWrite
                && exists i :: 0 <= i < |batch|
                               && (|| batch[i].documentId != documentId || batch[i].companyId != batch[0].companyId
                                   || batch[i].departmentId != batch[0].departmentId
                                   || batch[i].embedding.None? || batch[i].modelId.None? || batch[i].dimension.None?
                                   || batch[i].embedding.value.shape != [batch[i].dimension.value]
                                   || !batch[i].embedding.value.float32)
      ensures r == Err(WriteFailure) <==> failOnWrite
      ensures View() == if r.Ok? then Replace(old(View()), documentId, batch) else old(View())
    {
      if failOnWrite {
        return Err(WriteFailure);
      }
      if !ValidBatch(documentId, batch) {
        return Err(InvalidBatch);
      }
      var oldIds := if documentId in byDocument then byDocument[documentId] else {};
      var snapshotChunks, snapshotDocuments := chunks, byDocument;
      var newIds, interrupted := WriteChunks(batch, fault);
      if interrupted {
        chunks, byDocument := snapshotChunks, snapshotDocuments;
        return Err(Interrupted);
      }
      byDocument := byDocument[documentId := newIds];
      var stale := oldIds - newIds;
      chunks := chunks - stale;
      return Ok(());
    }

    method DeleteByDocumentId(documentId: Id) returns (count: nat)
      modifies this`chunks, this`byDocument
      ensures View() == DeleteDocument(old(View()), documentId)
      ensures count == |IdsOf(old(View()), documentId)|
    {
      var ids := if documentId in byDocument then byDocument[documentId] else {};
      byDocument := byDocument - {documentId};
      chunks := chunks - ids;
      count := |ids|;
    }

    method CountByDocumentId(documentId: Id) returns (count: nat)
      ensures count == |IdsOf(View(), documentId)|
    {
      count := if documentId in byDocument then |byDocument[documentId]| else 0;
    }
  }

  // ----- What the operations keep and change

  /** No chunk id of the batch is in use by another document. */
  ghost predicate OwnIds(s: Store, documentId: Id, batch: seq<StoredChunk>) {
    forall i :: 0 <= i < |batch| && batch[i].chunkId in s.chunks ==> s.chunks[batch[i].chunkId].documentId == documentId
  }

  /**
    Replacing a document keeps the two dictionaries in agreement exactly when the batch takes
    no chunk id from another document.
   */
  lemma ReplaceIsConsistent(s: Store, documentId: Id, batch: seq<StoredChunk>)
    requires Consistent(s) && ValidBatch(documentId, batch)
    ensures Consistent(Replace(s, documentId, batch)) <==> OwnIds(s, documentId, batch)
  {
    var t := Replace(s, documentId, batch);
    var new_ := BatchMap(batch);
    if OwnIds(s, documentId, batch) {
      ReplaceWithOwnIds(s, documentId, batch);
    } else {
      var i :| 0 <= i < |batch| && batch[i].chunkId in s.chunks && s.chunks[batch[i].chunkId].documentId != documentId;
      var c := batch[i].chunkId;
      var other := s.chunks[c].documentId;
      assert c in new_ && t.chunks[c] == new_[c] && new_[c].documentId == documentId;
      assert c in t.byDocument[other];
    }
  }

  lemma ReplaceWithOwnIds(s: Store, documentId: Id, batch: seq<StoredChunk>)
    requires Consistent(s) && ValidBatch(documentId, batch) && OwnIds(s, documentId, batch)
    ensures var t := Replace(s, documentId, batch);
            && Consistent(t) && ChunksOf(t, documentId) == BatchMap(batch)
            && IdsOf(t, documentId) == BatchMap(batch).Keys
            && forall e :: e != documentId ==> ChunksOf(t, e) == ChunksOf(s, e) && IdsOf(t, e) == IdsOf(s, e)
  {
    hide BatchMap, ValidBatch, OwnIds, Consistent, ChunksOf;
    var t := Replace(s, documentId, batch);
    ReplaceKeepsConsistent(s, documentId, batch);
    forall e
      ensures ChunksOf(t, e) == if e == documentId then BatchMap(batch) else ChunksOf(s, e)
    {
      ReplaceChunksOf(s, documentId, batch, e);
    }
  }

  lemma ReplaceKeepsConsistent(s: Store, documentId: Id, batch: seq<StoredChunk>)
    requires Consistent(s) && ValidBatch(documentId, batch) && OwnIds(s, documentId, batch)
    ensures Consistent(Replace(s, documentId, batch))
  {
    hide BatchMap, ValidBatch, OwnIds;
    ReplaceChunks(s, documentId, batch);
    var t, new_ := Replace(s, documentId, batch), BatchMap(batch);
    assert t.byDocument == s.byDocument[documentId := new_.Keys];
    hide Replace;
  }

  lemma ReplaceChunksOf(s: Store, documentId: Id, batch: seq<StoredChunk>, e: Id)
    requires Consistent(s) && ValidBatch(documentId, batch) && OwnIds(s, documentId, batch)
    ensures ChunksOf(Replace(s, documentId, batch), e) == if e == documentId then BatchMap(batch) else ChunksOf(s, e)
  {
    hide BatchMap, ValidBatch, OwnIds;
    ReplaceChunks(s, documentId, batch);
    hide Replace, Consistent;
  }

  /** After a replacement the chunks are the batch and those of the other documents. */
  lemma ReplaceChunks(s: Store, documentId: Id, batch: seq<StoredChunk>)
    requires Consistent(s) && ValidBatch(documentId, batch) && OwnIds(s, documentId, batch)
    ensures var t, new_ := Replace(s, documentId, batch), BatchMap(batch);
            && (forall c :: c in new_ ==> new_[c].documentId == documentId && new_[c].chunkId == c)
            && (forall c :: c in new_ && c in s.chunks ==> s.chunks[c].documentId == documentId)
            && (forall c :: c in t.chunks <==> c in new_ || (c in s.chunks && s.chunks[c].documentId != documentId))
            && (forall c :: c in t.chunks ==> t.chunks[c] == if c in new_ then new_[c] else s.chunks[c])
  {
    var new_ := BatchMap(batch);
    forall c | c in new_
      ensures new_[c].documentId == documentId
      ensures c in s.chunks ==> s.chunks[c].documentId == documentId
    {
      var i :| 0 <= i < |batch| && batch[i] == new_[c];
    }
    hide BatchMap, OwnIds, ValidBatch;
    forall c | c in s.chunks
      ensures c in IdsOf(s, documentId) <==> s.chunks[c].documentId == documentId
    {
    }
  }

  /** Setting a status changes the status of the chunks of that document, and nothing else. */
  lemma SetStatusEffect(s: Store, documentId: Id, status: string)
    requires Consistent(s)
    ensures var t := SetStatus(s, documentId, status);
            && Consistent(t) && t.chunks.Keys == s.chunks.Keys && t.byDocument == s.byDocument
            && (forall c :: c in s.chunks ==>
                              t.chunks[c] == if s.chunks[c].documentId == documentId
                                             then s.chunks[c].(status := Some(status))
                                             else s.chunks[c])
            && forall e :: e != documentId ==> ChunksOf(t, e) == ChunksOf(s, e)
  {
    var t := SetStatus(s, documentId, status);
    assert forall c :: c in s.chunks ==> (c in IdsOf(s, documentId) <==> s.chunks[c].documentId == documentId);
  }

  /** Deleting a document removes exactly its chunks. */
  lemma DeleteEffect(s: Store, documentId: Id)
    requires Consistent(s)
    ensures var t := DeleteDocument(s, documentId);
            && Consistent(t) && ChunksOf(t, documentId) == map[]
            && forall e :: e != documentId ==> ChunksOf(t, e) == ChunksOf(s, e)
  {
    var t := DeleteDocument(s, documentId);
    assert forall c :: c in s.chunks ==> (c in IdsOf(s, documentId) <==> s.chunks[c].documentId == documentId);
  }
}
