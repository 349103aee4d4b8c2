/** Reranking of the best candidates (rag/pipeline/reranker.py). */
module Reranker {
  import opened Types
  import opened Ordering
  import opened Selector

  datatype RerankResult = RerankResult(candidates: seq<Chunk>, scores: Scores)

  /** Any reranker is some function of the query and the window it is given. */
  type Backend = (string, seq<Chunk>) -> RerankResult

  /** `validate_rerank_contract`: the same ids come back, and only they are scored. */
  predicate KeepsContract(inputs: seq<Chunk>, output: RerankResult) {
    && |inputs| == |output.candidates|
    && multiset(ChunkIds(inputs)) == multiset(ChunkIds(output.candidates))
    && forall id :: id in output.scores ==> id in ChunkIds(inputs)
  }

  function SelectRerankWindow(candidates: seq<Chunk>, maxCandidates: int): (seq<Chunk>, seq<Chunk>) {
    var ordered := Sort(candidates, RetrievalKey());
    if maxCandidates <= 0 || |ordered| <= maxCandidates then (ordered, [])
    else (ordered[..maxCandidates], ordered[maxCandidates..])
  }

  function NoOpReranker(): Backend {
    (query: string, candidates: seq<Chunk>) => RerankResult(candidates, map[])
  }

  /** The weights of the lexical reranker, and its two text measures. */
  datatype Lexical = Lexical(retrievalWeight: real, lexicalWeight: real, phraseWeight: real,
                             overlap: (string, string) -> real, phrase: (string, string) -> real)
  {
    function Score(query: string, chunk: Chunk): real {
      retrievalWeight * chunk.score + lexicalWeight * overlap(query, chunk.content)
      + phraseWeight * phrase(query, chunk.content)
    }

    /** The dictionary filled over the candidates; the last chunk of an id decides. */
    function ScoresOf(query: string, candidates: seq<Chunk>): Scores {
      if candidates == [] then map[]
      else
        var last := candidates[|candidates| - 1];
        ScoresOf(query, candidates[..|candidates| - 1])[last.chunkId := Score(query, last)]
    }

    function Rerank(query: string, candidates: seq<Chunk>): RerankResult {
      var scores := ScoresOf(query, candidates);
      RerankResult(Sort(candidates, FinalKey(scores)), scores)
    }
  }

  method LexicalRerank(lexical: Lexical, query: string, candidates: seq<Chunk>) returns (r: RerankResult)
    ensures r == lexical.Rerank(query, candidates)
  {
    var scores: Scores := map[];
    for i := 0 to |candidates|
      invariant scores == lexical.ScoresOf(query, candidates[..i])
    {
      assert candidates[..i + 1][..i] == candidates[..i];
      scores := scores[candidates[i].chunkId := lexical.Score(query, candidates[i])];
    }
    assert candidates[..|candidates|] == candidates;
    return RerankResult(Sort(candidates, FinalKey(scores)), scores);
  }

  /** Rerank scores of the window only. */
  function MergeRerankScores(primary: Scores, remainder: seq<Chunk>): Scores {
    primary - (set i | 0 <= i < |remainder| :: remainder[i].chunkId)
  }

  method MergeScores(primary: Scores, remainder: seq<Chunk>) returns (merged: Scores)
    ensures merged == MergeRerankScores(primary, remainder)
  {
    merged := primary;
    for i := 0 to |remainder|
      invariant merged == MergeRerankScores(primary, remainder[..i])
    {
      merged := merged - {remainder[i].chunkId};
    }
    assert remainder[..|remainder|] == remainder;
  }

  lemma SortKeepsIds(candidates: seq<Chunk>, key: Chunk -> Key)
    ensures multiset(ChunkIds(Sort(candidates, key))) == multiset(ChunkIds(candidates))
  {
    SortSorts(candidates, key);
    SameIds(Sort(candidates, key), candidates);
  }

  lemma SameIds(a: seq<Chunk>, b: seq<Chunk>)
    requires multiset(a) == multiset(b)
    ensures multiset(ChunkIds(a)) == multiset(ChunkIds(b))
  {
    var f := (c: Chunk) => c.chunkId;
    assert ChunkIds(a) == Map(a, f) && ChunkIds(b) == Map(b, f);
    MapPermutes(a, b, f);
  }

  /** Both built-in rerankers satisfy the contract on every input. */
  lemma BuiltInsKeepContract(lexical: Lexical, query: string, candidates: seq<Chunk>)
    ensures KeepsContract(candidates, NoOpReranker()(query, candidates))
    ensures KeepsContract(candidates, lexical.Rerank(query, candidates))
    ensures NoOpReranker()(query, candidates).candidates == candidates
    ensures multiset(lexical.Rerank(query, candidates).candidates) == multiset(candidates)
  {
    var scores := lexical.ScoresOf(query, candidates);
    SortKeepsIds(candidates, FinalKey(scores));
    SortSorts(candidates, FinalKey(scores));
    OnlyInputsAreScored(lexical, query, candidates);
  }

  lemma {:induction false} OnlyInputsAreScored(lexical: Lexical, query: string, candidates: seq<Chunk>)
    ensures forall id :: id in lexical.ScoresOf(query, candidates) <==> id in ChunkIds(candidates)
  {
    if candidates != [] {
      var n := |candidates| - 1;
      OnlyInputsAreScored(lexical, query, candidates[..n]);
      assert ChunkIds(candidates) == ChunkIds(candidates[..n]) + [candidates[n].chunkId];
    }
  }

  lemma RetrievalKeySeparates(candidates: seq<Chunk>)
    requires DistinctIds(candidates)
    ensures Separates(RetrievalKey(), candidates)
  {
  }

  /** With distinct ids, the window and the remainder do not depend on the order of arrival. */
  lemma WindowIsCanonical(a: seq<Chunk>, b: seq<Chunk>, maxCandidates: int)
    requires multiset(a) == multiset(b) && DistinctIds(a)
    ensures SelectRerankWindow(a, maxCandidates) == SelectRerankWindow(b, maxCandidates)
  {
    RetrievalKeySeparates(a);
    SortIsCanonical(a, b, RetrievalKey());
  }

  /**
    The window holds the best candidates: by score, the greater first, then by document, index
    and chunk id.  It is as large as allowed, and the remainder follows in the same order.
   */
  lemma WindowHoldsTheBest(candidates: seq<Chunk>, maxCandidates: int)
    ensures var (window, remainder) := SelectRerankWindow(candidates, maxCandidates);
            var all := window + remainder;
            && multiset(all) == multiset(candidates)
            && |window| == (if 0 < maxCandidates < |candidates| then maxCandidates else |candidates|)
            && forall i, j :: 0 <= i < j < |all| ==>
                 var x, y := all[i], all[j];
                 || x.score > y.score
                 || (&& x.score == y.score
                     && (|| (x.documentId != y.documentId && StrLe(x.documentId, y.documentId))
                         || (&& x.documentId == y.documentId
                             && (x.index < y.index || (x.index == y.index && StrLe(x.chunkId, y.chunkId))))))
  {
    var ordered := Sort(candidates, RetrievalKey());
    SortSorts(candidates, RetrievalKey());
    var (window, remainder) := SelectRerankWindow(candidates, maxCandidates);
    assert window + remainder == ordered;
    hide Sort;
  }

  /** The remainder's scores are dropped, the others kept. */
  lemma MergedScores(primary: Scores, remainder: seq<Chunk>, id: Id)
    ensures var merged := MergeRerankScores(primary, remainder);
            && (id in merged <==> id in primary && forall i :: 0 <= i < |remainder| ==> remainder[i].chunkId != id)
            && (id in merged ==> merged[id] == primary[id])
  {
  }

  /**
    The lexical reranker scores each id by the weighted sum of the retrieval score and its two
    text measures, for the last candidate with that id.
   */
  lemma LexicalScoresAreSums(lexical: Lexical, query: string, candidates: seq<Chunk>, i: nat)
    requires i < |candidates|
    requires forall j :: i < j < |candidates| ==> candidates[j].chunkId != candidates[i].chunkId
    ensures var c, scores := candidates[i], lexical.Rerank(query, candidates).scores;
            && c.chunkId in scores
            && scores[c.chunkId] == lexical.retrievalWeight * c.score
                                    + lexical.lexicalWeight * lexical.overlap(query, c.content)
                                    + lexical.phraseWeight * lexical.phrase(query, c.content)
  {
    LastScoreCounts(lexical, query, candidates, i);
    hide Lexical.ScoresOf, Sort, FinalKey;
  }

  /** It orders by these scores, the greater first, then by retrieval score. */
  lemma LexicalOrder(lexical: Lexical, query: string, candidates: seq<Chunk>, i: nat, j: nat)
    requires i < j < |candidates|
    ensures var r := lexical.Rerank(query, candidates);
            && multiset(r.candidates) == multiset(candidates) && |r.candidates| == |candidates|
            && var x, y := r.candidates[i], r.candidates[j];
            && x.chunkId in r.scores && y.chunkId in r.scores
            && (|| r.scores[x.chunkId] > r.scores[y.chunkId]
                || (r.scores[x.chunkId] == r.scores[y.chunkId] && x.score >= y.score))
  {
    var scores := lexical.ScoresOf(query, candidates);
    OnlyInputsAreScored(lexical, query, candidates);
    SortKeepsIds(candidates, FinalKey(scores));
    SortSorts(candidates, FinalKey(scores));
    var ordered := Sort(candidates, FinalKey(scores));
    hide Sort, Lexical.ScoresOf;
    assert ordered[i].chunkId in multiset(ChunkIds(ordered)) && ordered[j].chunkId in multiset(ChunkIds(ordered)) by {
      assert ChunkIds(ordered)[i] == ordered[i].chunkId && ChunkIds(ordered)[j] == ordered[j].chunkId;
    }
    assert KeyLe(FinalKey(scores)(ordered[i]), FinalKey(scores)(ordered[j]));
  }

  lemma {:induction false} LastScoreCounts(lexical: Lexical, query: string, candidates: seq<Chunk>, i: nat)
    requires i < |candidates|
    requires forall j :: i < j < |candidates| ==> candidates[j].chunkId != candidates[i].chunkId
    ensures var c, scores := candidates[i], lexical.ScoresOf(query, candidates);
            c.chunkId in scores && scores[c.chunkId] == lexical.Score(query, c)
  {
    var n := |candidates| - 1;
    hide Lexical.Score;
    if i < n {
      assert candidates[..n][i] == candidates[i];
      LastScoreCounts(lexical, query, candidates[..n], i);
    }
  }
}
