/**
  The ingestion pipeline and service (rag/ingestion/pipeline.py, rag/ingestion/service.py) as
  code that calls the two stores in order.  Each method does exactly one of the runs whose
  every step the lifecycle model covers.  What the chunker and the embedding service produce
  is a parameter: None when either raises or nothing is produced.
 */
module Ingestion {
  import opened Prelude
  import opened Types
  import opened VectorSearch
  import opened ChunkStore
  import opened Lifecycle
  import opened Operations
  import opened DocumentStore

  datatype IngestError = PipelineFailed | DocumentExists | DocumentNotFound

  lemma FreshIsStored(store: Store, d: Id, version: int, batch: seq<StoredChunk>)
    requires Consistent(store) && FreshBatch(store, d, version, batch)
    ensures ValidBatch(d, batch) && |IdsOf(Replace(store, d, batch), d)| == |batch|
  {
    ReplacedOf(store, d, version, batch);
    hide Replace, IdsOf, Uniform, NoneIndexed, AllVersion;
  }

  class IngestionPipeline {
    const documents: InMemoryDocumentStore
    const chunks: InMemoryChunkStore

    constructor (documents: InMemoryDocumentStore, chunks: InMemoryChunkStore)
      ensures this.documents == documents && this.chunks == chunks
    {
      this.documents, this.chunks := documents, chunks;
    }

    /** Both stores, next to the operations in flight on other documents. */
    ghost function View(pcs: map<Id, Pc>): State
      reads documents, chunks
    {
      State(documents.records, chunks.View(), pcs)
    }

    /** Whether the built chunks get stored. */
    ghost predicate Stores(build: Option<seq<StoredChunk>>, fault: Option<nat>)
      reads chunks
    {
      build.Some? && !chunks.failOnWrite && !(fault.Some? && fault.value < |build.value|)
    }

    /** `_build_and_persist` from the point where the chunks are built; false when it raises. */
    method Persist(d: Id, build: Option<seq<StoredChunk>>, fault: Option<nat>, ghost v: int) returns (ok: bool)
      requires Consistent(chunks.View())
      requires build.Some? ==> FreshBatch(chunks.View(), d, v, build.value)
      modifies chunks`chunks, chunks`byDocument
      ensures ok == Stores(build, fault) == old(Stores(build, fault))
      ensures chunks.View() == if ok then Replace(old(chunks.View()), d, build.value) else old(chunks.View())
    {
      hide Replace, FreshBatch, IdsOf, ValidBatch, Consistent;
      if build.None? {
        return false;
      }
      FreshIsStored(chunks.View(), d, v, build.value);
      var stored := chunks.ReplaceDocumentChunks(d, build.value, fault);
      if stored.Err? {
        return false;
      }
      var count := chunks.CountByDocumentId(d);
      return count == |build.value|;
    }

    method ProcessCreate(d: Id, build: Option<seq<StoredChunk>>, fault: Option<nat>, ghost pcs: map<Id, Pc>)
      returns (r: Result<Record, IngestError>)
      requires Consistent(chunks.View()) && d !in pcs
      requires build.Some? ==> FreshBatch(chunks.View(), d, 1, build.value)
      modifies documents, chunks`chunks, chunks`byDocument
      ensures var s := old(View(pcs));
              && (r == Err(DocumentExists) <==> !Enabled(Free, s, BeginCreate(d)))
              && (r == Err(DocumentExists) ==> View(pcs) == s)
              && (r.Ok? ==>
                    && d in documents.records && r.value == documents.records[d]
                    && old(Stores(build, fault)) && Runs(Free, s, SuccessfulCreate(d, build.value))
                    && View(pcs) == Exec(s, SuccessfulCreate(d, build.value)))
              && (r == Err(PipelineFailed) ==>
                    && !old(Stores(build, fault)) && Runs(Free, s, FailedCreate(d))
                    && View(pcs) == Exec(s, FailedCreate(d)))
              && r != Err(DocumentNotFound)
    {
      hide Runs, Exec, FreshBatch, Replace, SetStatus, ChunkStore.DeleteDocument, Consistent;
      var created := documents.CreateProcessing(d);
      if created.Err? {
        return Err(DocumentExists);
      }
      var ok := Persist(d, build, fault, 1);
      ghost var s := old(View(pcs));
      if !ok {
        documents.MarkFailed(d);
        var _ := chunks.DeleteByDocumentId(d);
        FailedCreateResult(s, d);
        return Err(PipelineFailed);
      }
      documents.MarkIndexed(d, |build.value|);
      var _ := chunks.SetDocumentStatus(d, INDEXED);
      SuccessfulCreateResult(s, d, build.value);
      return Ok(documents.records[d]);
    }

    method ProcessUpdate(d: Id, build: Option<seq<StoredChunk>>, fault: Option<nat>, ghost pcs: map<Id, Pc>)
      returns (r: Result<Record, IngestError>)
      requires Consistent(chunks.View()) && Idle(View(pcs), d)
      requires build.Some? ==> FreshBatch(SetStatus(chunks.View(), d, PROCESSING), d,
                                          documents.records[d].version + 1, build.value)
      modifies documents, chunks`chunks, chunks`byDocument
      ensures var s := old(View(pcs));
              && (r.Ok? ==>
                    && d in documents.records && r.value == documents.records[d]
                    && old(Stores(build, fault)) && Runs(Free, s, SuccessfulUpdate(d, build.value))
                    && View(pcs) == Exec(s, SuccessfulUpdate(d, build.value)))
              && (r.Err? ==>
                    && r.error == PipelineFailed && !old(Stores(build, fault))
                    && Runs(Free, s, FailedUpdate(d)) && View(pcs) == Exec(s, FailedUpdate(d)))
    {
      hide Runs, Exec, FreshBatch, Replace, SetStatus, Consistent;
      var prior := documents.records[d];
      ghost var s := View(pcs);
      SetStatusEffect(s.store, d, PROCESSING);
      var _ := chunks.SetDocumentStatus(d, PROCESSING);
      documents.BeginReindex(d);
      var newVersion := prior.version + 1;
      var ok := Persist(d, build, fault, newVersion);
      if !ok {
        documents.MarkIndexed(d, prior.chunkCount, Some(prior.version));
        var _ := chunks.SetDocumentStatus(d, INDEXED);
        FailedUpdateResult(s, d);
        return Err(PipelineFailed);
      }
      documents.MarkIndexed(d, |build.value|, Some(newVersion));
      var _ := chunks.SetDocumentStatus(d, INDEXED);
      SuccessfulUpdateResult(s, d, build.value);
      return Ok(documents.records[d]);
    }

    /** `update_document` of the service, once the caller is authorized. */
    method UpdateDocument(d: Id, build: Option<seq<StoredChunk>>, fault: Option<nat>, ghost pcs: map<Id, Pc>)
      returns (r: Result<Record, IngestError>)
      requires Consistent(chunks.View()) && d !in pcs
      requires build.Some? && d in documents.records ==>
                 FreshBatch(SetStatus(chunks.View(), d, PROCESSING), d, documents.records[d].version + 1, build.value)
      modifies documents, chunks`chunks, chunks`byDocument
      ensures var s := old(View(pcs));
              && (r == Err(DocumentNotFound) <==> !Idle(s, d))
              && (r == Err(DocumentNotFound) ==> View(pcs) == s)
              && (r.Ok? ==>
                    && d in documents.records && r.value == documents.records[d]
                    && build.Some? && Runs(Free, s, SuccessfulUpdate(d, build.value))
                    && View(pcs) == Exec(s, SuccessfulUpdate(d, build.value)))
              && (r == Err(PipelineFailed) ==> Runs(Free, s, FailedUpdate(d)) && View(pcs) == Exec(s, FailedUpdate(d)))
    {
      if d !in documents.records || documents.records[d].status == Deleted {
        return Err(DocumentNotFound);
      }
      r := ProcessUpdate(d, build, fault, pcs);
    }

    /** `delete_document` of the service, once the caller is authorized. */
    method DeleteDocument(d: Id, ghost pcs: map<Id, Pc>) returns (r: Result<(), IngestError>)
      requires d !in pcs
      modifies documents, chunks`chunks, chunks`byDocument
      ensures var s := old(View(pcs));
              && (r == Err(DocumentNotFound) <==> !Idle(s, d))
              && (r.Err? ==> r == Err(DocumentNotFound) && View(pcs) == s)
              && (r.Ok? ==> Runs(Free, s, Deletion(d)) && View(pcs) == Exec(s, Deletion(d)))
    {
      if d !in documents.records || documents.records[d].status == Deleted {
        return Err(DocumentNotFound);
      }
      ghost var s := View(pcs);
      var _ := chunks.DeleteByDocumentId(d);
      documents.MarkDeleted(d);
      DeletionResult(s, d);
      return Ok(());
    }
  }
}
