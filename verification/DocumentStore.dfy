/** The in-memory document store of rag/ingestion/store/document_store.py. */
module DocumentStore {
  import opened Prelude
  import opened Types
  import opened Lifecycle

  datatype DocumentError = AlreadyExists

  class InMemoryDocumentStore {
    var records: map<Id, Record>

    constructor ()
      ensures records == map[]
    {
      records := map[];
    }

    method CreateProcessing(d: Id) returns (r: Result<Record, DocumentError>)
      modifies this
      ensures r.Err? <==> d in old(records) && old(records)[d].status != Deleted
      ensures r.Ok? ==> r.value == Record(Processing, 1, 0) && records == old(records)[d := r.value]
      ensures r.Err? ==> records == old(records)
    {
      if d in records && records[d].status != Deleted {
        return Err(AlreadyExists);
      }
      records := records[d := Record(Processing, 1, 0)];
      return Ok(records[d]);
    }

    /** Without a version the recorded one stays. */
    method MarkIndexed(d: Id, chunkCount: nat, version: Option<int> := None)
      requires d in records
      modifies this
      ensures var recorded := if version.Some? then version.value else old(records)[d].version;
              records == old(records)[d := Record(Indexed, recorded, chunkCount)]
    {
      var r := records[d].(status := Indexed, chunkCount := chunkCount);
      if version.Some? {
        r := r.(version := version.value);
      }
      records := records[d := r];
    }

    method MarkFailed(d: Id)
      requires d in records
      modifies this
      ensures records == old(records)[d := old(records)[d].(status := Failed, chunkCount := 0)]
    {
      records := records[d := records[d].(status := Failed, chunkCount := 0)];
    }

    method MarkDeleted(d: Id)
      requires d in records
      modifies this
      ensures records == old(records)[d := old(records)[d].(status := Deleted, chunkCount := 0)]
    {
      records := records[d := records[d].(status := Deleted, chunkCount := 0)];
    }

    method BeginReindex(d: Id)
      requires d in records
      modifies this
      ensures records == old(records)[d := old(records)[d].(status := Processing)]
    {
      records := records[d := records[d].(status := Processing)];
    }
  }
}
