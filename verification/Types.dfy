/** Values passed between the stages; a UUID is represented by its text. */
module Types {
  type Id = string

  /** `RetrievedChunk`, a candidate for the context. */
  datatype Chunk = Chunk(chunkId: Id, documentId: Id, companyId: Id, departmentId: Id,
                         content: string, score: real, index: int, version: int)

  function ChunkIds(chunks: seq<Chunk>): (r: seq<Id>)
    ensures |r| == |chunks| && forall i :: 0 <= i < |r| ==> r[i] == chunks[i].chunkId
  {
    seq(|chunks|, i requires 0 <= i < |chunks| => chunks[i].chunkId)
  }

  /** Rerank scores by chunk id. */
  type Scores = map<Id, real>

  /** The rerank score where there is one, else the retrieval score. */
  function EffectiveScore(chunk: Chunk, scores: Scores): real {
    if chunk.chunkId in scores then scores[chunk.chunkId] else chunk.score
  }

  ghost predicate DistinctIds(chunks: seq<Chunk>) {
    forall i, j :: 0 <= i < j < |chunks| ==> chunks[i].chunkId != chunks[j].chunkId
  }
}

/** The errors of rag/pipeline/errors.py. */
module PipelineErrors {
  datatype Error = PipelineValidation | RerankContractViolation | UnauthorizedChunk
}
