/**
  Top-K selection under a token budget (rag/pipeline/selector.py), the context builder that
  follows it (rag/pipeline/context_builder.py) and the records that describe its blocks
  (rag/pipeline/provenance.py).
 */
module Selector {
  import opened Prelude
  import opened Strings
  import opened Types
  import opened PipelineErrors
  import opened Ordering
  import opened Context

  type Counter = string -> nat

  /** `CharEstimateTokenCounter.count`: the length divided by the divisor, rounded up. */
  function CharEstimate(charsPerToken: nat): Counter
    requires charsPerToken > 0
  {
    (text: string) => (|text| + charsPerToken - 1) / charsPerToken
  }

  /** `final_sort_key`: the rerank score stands in for the retrieval score where there is one. */
  function FinalKey(scores: Scores): Chunk -> Key {
    (chunk: Chunk) =>
      Key(EffectiveScore(chunk, scores), chunk.score, chunk.documentId, chunk.index, chunk.chunkId)
  }

  /** `retrieval_sort_key`; repeating the score as both score components orders alike. */
  function RetrievalKey(): Chunk -> Key {
    (chunk: Chunk) => Key(chunk.score, chunk.score, chunk.documentId, chunk.index, chunk.chunkId)
  }

  datatype Selection = Selection(selected: seq<Chunk>, droppedForTopK: seq<Id>, droppedForTokenBudget: seq<Id>)

  // ----- Specification

  /** The context of the first `n` chunks of `head` fits the budget. */
  predicate Fits(head: seq<Chunk>, n: nat, count: Counter, budget: int)
    requires n <= |head|
  {
    count(ContextText(head[..n])) <= budget
  }

  /** How many chunks are taken, `n` having been taken already. */
  function Taken(head: seq<Chunk>, n: nat, count: Counter, budget: int): (r: nat)
    requires n <= |head|
    ensures n <= r <= |head|
    decreases |head| - n
  {
    if n < |head| && Fits(head, n + 1, count, budget) then Taken(head, n + 1, count, budget) else n
  }

  /** All that is taken fits, and nothing more would. */
  lemma {:induction false} TakenFits(head: seq<Chunk>, n: nat, count: Counter, budget: int)
    requires n <= |head|
    ensures var r := Taken(head, n, count, budget);
            && (forall k :: n < k <= r ==> Fits(head, k, count, budget))
            && (r < |head| ==> !Fits(head, r + 1, count, budget))
    decreases |head| - n
  {
    hide Fits;
    if n < |head| && Fits(head, n + 1, count, budget) {
      TakenFits(head, n + 1, count, budget);
    }
  }

  function Select(candidates: seq<Chunk>, topK: int, budget: int, count: Counter, scores: Scores)
    : Result<Selection, Error>
  {
    if topK <= 0 || budget <= 0 then Err(PipelineValidation)
    else
      var ordered := Sort(candidates, FinalKey(scores));
      var head := Prefix(ordered, topK);
      var n := Taken(head, 0, count, budget);
      Ok(Selection(head[..n], ChunkIds(ordered[|head|..]), ChunkIds(head[n..])))
  }

  lemma BlocksSnoc(head: seq<Chunk>, k: nat)
    requires k < |head|
    ensures Blocks(head[..k + 1]) == Blocks(head[..k]) + [RenderSourceBlock(head[k], CitationId(k))]
    ensures head[..k + 1] == head[..k] + [head[k]]
  {
    hide RenderSourceBlock, CitationId;
  }

  lemma TakenNext(head: seq<Chunk>, n: nat, count: Counter, budget: int)
    requires n < |head|
    ensures Taken(head, n, count, budget)
         == if count(AssembleText(Blocks(head[..n + 1]))) <= budget then Taken(head, n + 1, count, budget) else n
  {
    hide Blocks, AssembleText;
  }

  lemma TakenAll(head: seq<Chunk>, count: Counter, budget: int)
    ensures Taken(head, |head|, count, budget) == |head|
  {
  }

  // ----- The algorithm

  method SelectChunks(candidates: seq<Chunk>, topK: int, budget: int, count: Counter, scores: Scores)
    returns (r: Result<Selection, Error>)
    ensures r == Select(candidates, topK, budget, count, scores)
  {
    if topK <= 0 || budget <= 0 {
      return Err(PipelineValidation);
    }
    var ordered := Sort(candidates, FinalKey(scores));
    var head := Prefix(ordered, topK);
    var droppedForTopK := ChunkIds(ordered[|head|..]);
    var selected: seq<Chunk>, blocks: seq<string>, droppedForBudget: seq<Id> := [], [], [];
    assert Blocks(head[..0]) == [];
    hide Blocks, RenderSourceBlock, AssembleText, Sort, Prefix, Taken;
    TakenAll(head, count, budget);
    var position := 0;
    while position < |head|
      invariant position <= |head|
      invariant selected == head[..position] && blocks == Blocks(head[..position])
      invariant Taken(head, 0, count, budget) == Taken(head, position, count, budget)
    {
      var chunk := head[position];
      var block := RenderSourceBlock(chunk, CitationId(|selected|));
      var candidateText := AssembleText(blocks + [block]);
      BlocksSnoc(head, position);
      TakenNext(head, position, count, budget);
      if count(candidateText) > budget {
        droppedForBudget := ChunkIds(head[position..]);
        break;
      }
      selected, blocks := selected + [chunk], blocks + [block];
      position := position + 1;
    }
    return Ok(Selection(selected, droppedForTopK, droppedForBudget));
  }

  // ----- The context builder

  const DELIMITED_V1 := "delimited_v1"

  datatype AssembledContext = AssembledContext(text: string, tokenCount: nat, format: string, blockCount: nat)

  function Build(selected: seq<Chunk>, count: Counter, budget: int, format: string): Result<AssembledContext, Error> {
    if format != DELIMITED_V1 || budget <= 0 then Err(PipelineValidation)
    else
      var text := ContextText(selected);
      if count(text) > budget then Err(PipelineValidation)
      else Ok(AssembledContext(text, count(text), DELIMITED_V1, |selected|))
  }

  // ----- Provenance

  datatype ProvenanceRecord = ProvenanceRecord(citationId: string, documentId: Id, chunkId: Id, index: int,
                                               retrievalScore: real, rerankScore: Option<real>, position: nat)

  function BuildProvenance(selected: seq<Chunk>, scores: Scores): seq<ProvenanceRecord> {
    seq(|selected|, i requires 0 <= i < |selected| =>
      var c := selected[i];
      ProvenanceRecord(CitationId(i), c.documentId, c.chunkId, c.index, c.score,
                       if c.chunkId in scores then Some(scores[c.chunkId]) else None, i))
  }

  // ----- Main results

  lemma MulMonotone(d: nat, x: int, y: int)
    ensures x >= y ==> d * x >= d * y
  {
  }

  lemma DivMonotone(a: nat, b: nat, d: nat)
    requires a <= b && d > 0
    ensures a / d <= b / d
  {
    MulMonotone(d, a / d, b / d + 1);
  }

  lemma CharEstimateIsMonotone(charsPerToken: nat, a: string, b: string)
    requires charsPerToken > 0 && |a| <= |b|
    ensures CharEstimate(charsPerToken)(a) <= CharEstimate(charsPerToken)(b)
  {
    DivMonotone(|a| + charsPerToken - 1, |b| + charsPerToken - 1, charsPerToken);
  }

  lemma ContextGrows(head: seq<Chunk>, k: nat, n: nat)
    requires k <= n <= |head|
    ensures |ContextText(head[..k])| <= |ContextText(head[..n])|
    decreases n - k
  {
    if k < n {
      BlocksSnoc(head, k);
      FlattenSnoc(Blocks(head[..k]), RenderSourceBlock(head[k], CitationId(k)));
      ContextGrows(head, k + 1, n);
    }
  }

  /**
    With the default counter, the selection is the longest prefix of the `topK` best chunks
    whose context fits the budget: a prefix fits exactly when it is not longer.
   */
  lemma SelectionIsLongestPrefix(candidates: seq<Chunk>, topK: int, budget: int, charsPerToken: nat, scores: Scores)
    requires charsPerToken > 0 && topK > 0 && budget > 0
    ensures var count := CharEstimate(charsPerToken);
            var ordered := Sort(candidates, FinalKey(scores));
            var head := Prefix(ordered, topK);
            var r := Select(candidates, topK, budget, count, scores);
            && r.Ok? && |r.value.selected| <= |head| && r.value.selected == head[..|r.value.selected|]
            && |head| == (if |candidates| <= topK then |candidates| else topK)
            && SortedBy(ordered, FinalKey(scores)) && multiset(ordered) == multiset(candidates)
            && forall n :: 0 <= n <= |head| ==> (Fits(head, n, count, budget) <==> n <= |r.value.selected|)
  {
    SortSorts(candidates, FinalKey(scores));
    var count := CharEstimate(charsPerToken);
    var head := Prefix(Sort(candidates, FinalKey(scores)), topK);
    var taken := Taken(head, 0, count, budget);
    hide Sort, FinalKey, Fits, Taken, CharEstimate, SortedBy;
    forall n | 0 <= n <= |head|
      ensures Fits(head, n, count, budget) <==> n <= taken
    {
      FitsUpToTaken(head, n, budget, charsPerToken);
    }
  }

  lemma FitsUpToTaken(head: seq<Chunk>, n: nat, budget: int, charsPerToken: nat)
    requires charsPerToken > 0 && budget > 0 && n <= |head|
    ensures Fits(head, n, CharEstimate(charsPerToken), budget)
            <==> n <= Taken(head, 0, CharEstimate(charsPerToken), budget)
  {
    hide Taken, ContextText;
    var count := CharEstimate(charsPerToken);
    var taken := Taken(head, 0, count, budget);
    TakenFits(head, 0, count, budget);
    if n == 0 {
      EmptyContextFits(charsPerToken, head, budget);
    } else if n > taken {
      ContextGrows(head, taken + 1, n);
      CharEstimateIsMonotone(charsPerToken, ContextText(head[..taken + 1]), ContextText(head[..n]));
    }
  }

  lemma EmptyContextFits(charsPerToken: nat, head: seq<Chunk>, budget: int)
    requires charsPerToken > 0 && budget > 0
    ensures Fits(head, 0, CharEstimate(charsPerToken), budget)
  {
    assert Blocks(head[..0]) == [];
    assert (0 + charsPerToken - 1) / charsPerToken == 0;
  }

  /**
    The builder accepts whatever the selector returns for the same counter and budget, if the
    counter charges nothing beyond the budget for the empty text, as the default one does.
   */
  lemma BuilderAcceptsSelection(candidates: seq<Chunk>, topK: int, budget: int, count: Counter, scores: Scores)
    requires topK > 0 && budget > 0
    ensures var r := Select(candidates, topK, budget, count, scores);
            r.Ok? && (Build(r.value.selected, count, budget, DELIMITED_V1).Ok?
                      <==> (r.value.selected != [] || count("") <= budget))
  {
    var head := Prefix(Sort(candidates, FinalKey(scores)), topK);
    var n := Taken(head, 0, count, budget);
    TakenFits(head, 0, count, budget);
    if n > 0 {
      assert Fits(head, n, count, budget);
    } else {
      assert Blocks(head[..0]) == [];
    }
  }

  lemma DefaultCounterIgnoresEmptyText(charsPerToken: nat)
    requires charsPerToken > 0
    ensures CharEstimate(charsPerToken)("") == 0
  {
    EmptyContextFits(charsPerToken, [], 1);
  }

  /**
    Block i of the context, provenance record i and the citation src-(i+1) name the same chunk:
    reading the context back gives the documents, chunks and positions of the provenance
    records, whose citations are the ones printed.
   */
  lemma ProvenanceMatchesContext(selected: seq<Chunk>, scores: Scores)
    requires forall c :: c in selected ==> IsUuid(c.documentId) && IsUuid(c.chunkId)
    ensures var parsed, records := ParseContext(ContextText(selected)), BuildProvenance(selected, scores);
            && parsed.Some? && |parsed.value| == |records| == |selected|
            && forall i :: 0 <= i < |selected| ==>
                             && records[i].citationId == CitationId(i) && records[i].position == i
                             && (records[i].documentId, records[i].chunkId, records[i].index)
                             == (parsed.value[i].documentId, parsed.value[i].chunkId, parsed.value[i].index)
                             && parsed.value[i].content == selected[i].content
                             && Blocks(selected)[i] == RenderSourceBlock(selected[i], records[i].citationId)
  {
    ContextReadsBack(selected);
  }

  /** The default estimate is the least number of tokens of that many characters that cover the text. */
  lemma CharEstimateRoundsUp(charsPerToken: nat, text: string, tokens: nat)
    requires charsPerToken > 0
    ensures CharEstimate(charsPerToken)(text) <= tokens <==> |text| <= tokens * charsPerToken
  {
    var q := (|text| + charsPerToken - 1) / charsPerToken;
    assert charsPerToken * q <= |text| + charsPerToken - 1 < charsPerToken * q + charsPerToken;
    if q <= tokens {
      MulMonotone(charsPerToken, tokens, q);
    } else {
      MulMonotone(charsPerToken, q, tokens + 1);
      assert charsPerToken * (tokens + 1) == tokens * charsPerToken + charsPerToken;
    }
  }

  /**
    In order: by the score the reranker gave, or the retrieval score where it gave none, the
    greater first; then by retrieval score, document, index and chunk id.
   */
  predicate BestFirst(ordered: seq<Chunk>, scores: Scores) {
    forall i, j :: 0 <= i < j < |ordered| ==>
      var x, y := ordered[i], ordered[j];
      var a := if x.chunkId in scores then scores[x.chunkId] else x.score;
      var b := if y.chunkId in scores then scores[y.chunkId] else y.score;
      || a > b || (a == b && x.score > y.score)
      || (&& a == b && x.score == y.score
          && (|| (x.documentId != y.documentId && StrLe(x.documentId, y.documentId))
              || (&& x.documentId == y.documentId
                  && (x.index < y.index || (x.index == y.index && StrLe(x.chunkId, y.chunkId))))))
  }

  /**
    The first ones are selected, one by one, as long as their context fits; what follows of the
    first `topK` is dropped for the budget, the rest for its rank.
   */
  predicate SelectedFrom(ordered: seq<Chunk>, topK: int, budget: int, count: Counter, r: Selection) {
    var m, n := if topK < |ordered| then topK else |ordered|, |r.selected|;
    && n <= m
    && r.selected == ordered[..n]
    && |r.droppedForTokenBudget| == m - n
    && (forall i :: n <= i < m ==> r.droppedForTokenBudget[i - n] == ordered[i].chunkId)
    && |r.droppedForTopK| == |ordered| - m
    && (forall i :: m <= i < |ordered| ==> r.droppedForTopK[i - m] == ordered[i].chunkId)
    && (forall k :: 0 < k <= n ==> count(ContextText(ordered[..k])) <= budget)
    && (n < m ==> count(ContextText(ordered[..n + 1])) > budget)
  }

  /** The selection is taken from the candidates, best first. */
  lemma SelectionIsTheBest(candidates: seq<Chunk>, topK: int, budget: int, count: Counter, scores: Scores)
    requires topK > 0 && budget > 0
    ensures var r := Select(candidates, topK, budget, count, scores);
            && r.Ok?
            && exists ordered: seq<Chunk> {:trigger BestFirst(ordered, scores)} ::
                 && multiset(ordered) == multiset(candidates) && BestFirst(ordered, scores)
                 && SelectedFrom(ordered, topK, budget, count, r.value)
  {
    var ordered := Sort(candidates, FinalKey(scores));
    SortSorts(candidates, FinalKey(scores));
    FinalOrder(ordered, scores);
    hide Sort, FinalKey, SortedBy, BestFirst, SelectedFrom;
    HeadIsSelected(ordered, topK, budget, count);
  }

  lemma HeadIsSelected(ordered: seq<Chunk>, topK: int, budget: int, count: Counter)
    requires topK > 0 && budget > 0
    ensures var head := Prefix(ordered, topK);
            var n := Taken(head, 0, count, budget);
            SelectedFrom(ordered, topK, budget, count,
                         Selection(head[..n], ChunkIds(ordered[|head|..]), ChunkIds(head[n..])))
  {
    var head := Prefix(ordered, topK);
    var n := Taken(head, 0, count, budget);
    var m := if topK < |ordered| then topK else |ordered|;
    assert head == ordered[..m];
    TakenFits(head, 0, count, budget);
    hide Taken, ContextText, Prefix, ChunkIds, Fits;
    FirstAreSelected(ordered, m, n, topK, budget, count);
  }

  lemma FirstAreSelected(ordered: seq<Chunk>, m: nat, n: nat, topK: int, budget: int, count: Counter)
    requires topK > 0 && m == (if topK < |ordered| then topK else |ordered|) && n <= m
    requires forall k :: 0 < k <= n ==> Fits(ordered[..m], k, count, budget)
    requires n < m ==> !Fits(ordered[..m], n + 1, count, budget)
    ensures SelectedFrom(ordered, topK, budget, count,
                         Selection(ordered[..m][..n], ChunkIds(ordered[m..]), ChunkIds(ordered[..m][n..])))
  {
    hide ContextText, ChunkIds;
    var head := ordered[..m];
    forall k | 0 <= k <= m
      ensures head[..k] == ordered[..k]
    {
    }
    forall k | 0 < k <= n
      ensures count(ContextText(ordered[..k])) <= budget
    {
      assert Fits(head, k, count, budget);
    }
    forall i | n <= i < m
      ensures ChunkIds(head[n..])[i - n] == ordered[i].chunkId
    {
      assert head[n..][i - n] == ordered[i];
    }
    forall i | m <= i < |ordered|
      ensures ChunkIds(ordered[m..])[i - m] == ordered[i].chunkId
    {
      assert ordered[m..][i - m] == ordered[i];
    }
  }

  lemma FinalOrder(ordered: seq<Chunk>, scores: Scores)
    requires SortedBy(ordered, FinalKey(scores))
    ensures BestFirst(ordered, scores)
  {
    forall i, j | 0 <= i < j < |ordered|
      ensures KeyLe(FinalKey(scores)(ordered[i]), FinalKey(scores)(ordered[j]))
    {
    }
  }
}
