/**
  Scoped search over stored chunks (rag/storage/vector_search.py, rag/retrieval/ranking.py).
  The similarity of two vectors is a parameter.
 */
module VectorSearch {
  import opened Prelude
  import opened Types
  import opened Ordering

  datatype Vector = Vector(shape: seq<nat>, float32: bool, values: seq<real>)

  type Similarity = (Vector, Vector) -> real

  const INDEXED := "indexed"

  /** `StoredChunk`, reduced to what storage, search and the document lifecycle look at. */
  datatype StoredChunk = StoredChunk(chunkId: Id, documentId: Id, companyId: Id, departmentId: Id,
                                     version: int, index: int, content: string, embedding: Option<Vector>,
                                     modelId: Option<string>, dimension: Option<int>, status: Option<string>)

  /** `documentIds` is None for "every indexed document in scope". */
  datatype Scope = Scope(companyId: Id, departmentIds: set<Id>, documentIds: Option<set<Id>>)

  datatype Query = Query(vector: Vector, modelId: string, dimension: int)

  datatype Scored = Scored(chunk: StoredChunk, score: real)

  datatype Error = DimensionMismatch | ModelMismatch

  // ----- Specification

  /** The chunks a search may look at: in scope, searchable and embedded. */
  predicate InPool(chunk: StoredChunk, scope: Scope) {
    && chunk.companyId == scope.companyId && chunk.departmentId in scope.departmentIds
    && (if scope.documentIds.Some? then chunk.documentId in scope.documentIds.value else chunk.status == Some(INDEXED))
    && chunk.embedding.Some? && chunk.modelId.Some?
  }

  function Pool(scope: Scope): StoredChunk -> bool {
    (chunk: StoredChunk) => InPool(chunk, scope)
  }

  /** A query that can be compared with the chunk. */
  predicate Matches(chunk: StoredChunk, query: Query) {
    && chunk.modelId == Some(query.modelId) && chunk.dimension == Some(query.dimension)
    && chunk.embedding.Some? && chunk.embedding.value.shape == query.vector.shape
  }

  function Score(query: Query, sim: Similarity, chunk: StoredChunk): Scored {
    Scored(chunk, if chunk.embedding.Some? then sim(query.vector, chunk.embedding.value) else 0.0)
  }

  function Scores(query: Query, sim: Similarity, chunks: seq<StoredChunk>): (r: seq<Scored>)
    ensures |r| == |chunks| && forall i :: 0 <= i < |r| ==> r[i] == Score(query, sim, chunks[i])
  {
    seq(|chunks|, i requires 0 <= i < |chunks| => Score(query, sim, chunks[i]))
  }

  function RankKey(): Scored -> Key {
    (item: Scored) => Key(item.score, item.score, "", 0, item.chunk.chunkId)
  }

  function Rank(scored: seq<Scored>, topK: int): seq<Scored> {
    Prefix(Sort(scored, RankKey()), topK)
  }

  // ----- The algorithm

  /** The result of a search that does not raise, and the size of its pool. */
  function Found(chunks: seq<StoredChunk>, query: Query, scope: Scope, topK: int, sim: Similarity): (seq<Scored>, nat) {
    var pool := Filter(chunks, Pool(scope));
    (Rank(Scores(query, sim, pool), topK), |pool|)
  }

  method Search(chunks: seq<StoredChunk>, query: Query, scope: Scope, topK: int, sim: Similarity)
    returns (r: Result<(seq<Scored>, nat), Error>)
    ensures r.Ok? <==>
              && query.vector.shape == [query.dimension]
              && forall c :: c in chunks && InPool(c, scope) ==>
                               && c.modelId == Some(query.modelId) && c.dimension == Some(query.dimension)
                               && c.embedding.value.shape == query.vector.shape
    ensures query.vector.shape != [query.dimension] ==> r == Err(DimensionMismatch)
    ensures query.vector.shape == [query.dimension] && r.Err? ==>
              exists i :: 0 <= i < |chunks| && InPool(chunks[i], scope) && !Matches(chunks[i], query)
                          && (r.error == ModelMismatch <==> chunks[i].modelId != Some(query.modelId))
                          && forall j :: 0 <= j < i && InPool(chunks[j], scope) ==> Matches(chunks[j], query)
    ensures r.Ok? ==> r.value == Found(chunks, query, scope, topK, sim)
  {
    if |query.vector.shape| != 1 || query.vector.shape[0] != query.dimension {
      return Err(DimensionMismatch);
    }
    var scored: seq<Scored> := [];
    for i := 0 to |chunks|
      invariant forall c :: c in chunks[..i] && InPool(c, scope) ==> Matches(c, query)
      invariant scored == Scores(query, sim, Filter(chunks[..i], Pool(scope)))
    {
      var chunk := chunks[i];
      PoolGrows(chunks, i, scope);
      if chunk.companyId != scope.companyId { continue; }
      if chunk.departmentId !in scope.departmentIds { continue; }
      if scope.documentIds.Some? && chunk.documentId !in scope.documentIds.value { continue; }
      if scope.documentIds.None? && chunk.status != Some(INDEXED) { continue; }
      if chunk.embedding.None? || chunk.modelId.None? { continue; }
      if chunk.modelId.value != query.modelId {
        return Err(ModelMismatch);
      }
      if chunk.dimension != Some(query.dimension) {
        return Err(DimensionMismatch);
      }
      if chunk.embedding.value.shape != query.vector.shape {
        return Err(DimensionMismatch);
      }
      scored := scored + [Score(query, sim, chunk)];
    }
    assert chunks[..|chunks|] == chunks;
    return Ok((Rank(scored, topK), |scored|));
  }

  lemma PoolGrows(chunks: seq<StoredChunk>, i: nat, scope: Scope)
    requires i < |chunks|
    ensures Filter(chunks[..i + 1], Pool(scope))
            == Filter(chunks[..i], Pool(scope)) + if InPool(chunks[i], scope) then [chunks[i]] else []
    ensures forall c :: c in chunks[..i + 1] <==> c in chunks[..i] || c == chunks[i]
  {
    FilterSnoc(chunks[..i], chunks[i], Pool(scope));
    assert chunks[..i + 1] == chunks[..i] + [chunks[i]];
  }

  // ----- Main results

  predicate DistinctChunkIds(chunks: seq<StoredChunk>) {
    forall i, j :: 0 <= i < j < |chunks| ==> chunks[i].chunkId != chunks[j].chunkId
  }

  lemma ScoresPermute(query: Query, sim: Similarity, a: seq<StoredChunk>, b: seq<StoredChunk>)
    requires multiset(a) == multiset(b)
    ensures multiset(Scores(query, sim, a)) == multiset(Scores(query, sim, b))
  {
    hide Score;
    var f := (c: StoredChunk) => Score(query, sim, c);
    assert Scores(query, sim, a) == Map(a, f) && Scores(query, sim, b) == Map(b, f);
    MapPermutes(a, b, f);
  }

  /**
    Only the pool matters: two stores whose pools hold the same chunks, in whatever order and
    among whatever other chunks, give the same result, or both an error.
   */
  lemma OnlyThePoolMatters(a: seq<StoredChunk>, b: seq<StoredChunk>, query: Query, scope: Scope, topK: int,
                           sim: Similarity)
    requires var p, q := Filter(a, Pool(scope)), Filter(b, Pool(scope));
             multiset(p) == multiset(q) && DistinctChunkIds(p)
    ensures (forall c :: c in a && InPool(c, scope) ==> Matches(c, query))
       <==> (forall c :: c in b && InPool(c, scope) ==> Matches(c, query))
    ensures var p, q := Filter(a, Pool(scope)), Filter(b, Pool(scope));
            |p| == |q| && Rank(Scores(query, sim, p), topK) == Rank(Scores(query, sim, q), topK)
  {
    var p, q := Filter(a, Pool(scope)), Filter(b, Pool(scope));
    forall c
      ensures c in a && InPool(c, scope) <==> c in b && InPool(c, scope)
    {
      assert c in p <==> c in multiset(p);
      assert c in q <==> c in multiset(q);
    }
    assert |multiset(p)| == |multiset(q)|;
    ScoresPermute(query, sim, p, q);
    SortIsCanonical(Scores(query, sim, p), Scores(query, sim, q), RankKey());
  }

  /**
    The result is the head of the pool sorted by score, best first, ties by id: nothing left
    out ranks before anything returned.
   */
  lemma ResultIsTheBestOfThePool(pool: seq<StoredChunk>, query: Query, topK: nat, sim: Similarity)
    ensures var scored := Scores(query, sim, pool);
            var result := Rank(scored, topK);
            && |result| == (if topK <= |pool| then topK else |pool|)
            && SortedBy(result, RankKey())
            && exists rest: seq<Scored> {:trigger multiset(rest)} ::
                 && multiset(result) + multiset(rest) == multiset(scored)
                 && forall x, y :: x in result && y in rest ==> KeyLe(RankKey()(x), RankKey()(y))
  {
    var scored := Scores(query, sim, pool);
    SortSorts(scored, RankKey());
    var all := Sort(scored, RankKey());
    var n := if topK <= |pool| then topK else |pool|;
    assert Rank(scored, topK) == all[..n];
    hide *;
    HeadRanksFirst(all, n);
    CutInTwo(all, n);
  }

  lemma CutInTwo<T>(s: seq<T>, n: nat)
    requires n <= |s|
    ensures multiset(s[..n]) + multiset(s[n..]) == multiset(s)
  {
    assert s == s[..n] + s[n..];
  }

  lemma HeadRanksFirst(all: seq<Scored>, n: nat)
    requires n <= |all| && SortedBy(all, RankKey())
    ensures SortedBy(all[..n], RankKey())
    ensures forall x, y :: x in all[..n] && y in all[n..] ==> KeyLe(RankKey()(x), RankKey()(y))
  {
    hide KeyLe, RankKey;
    forall x, y | x in all[..n] && y in all[n..]
      ensures KeyLe(RankKey()(x), RankKey()(y))
    {
      var i :| 0 <= i < n && all[i] == x;
      var j :| n <= j < |all| && all[j] == y;
    }
  }

  /**
    An explicit list of documents replaces the status check instead of adding to it: the pool
    under a list is within the pool without one exactly when every listed chunk is indexed.
   */
  lemma ListNarrowsOnlyIndexedChunks(chunks: seq<StoredChunk>, scope: Scope, ids: set<Id>)
    requires scope.documentIds == None
    ensures (forall c :: c in Filter(chunks, Pool(scope.(documentIds := Some(ids)))) ==>
             c in Filter(chunks, Pool(scope)))
       <==> (forall c :: c in chunks && c.documentId in ids && c.companyId == scope.companyId
                         && c.departmentId in scope.departmentIds && c.embedding.Some? && c.modelId.Some? ==>
                           c.status == Some(INDEXED))
  {
    var listed := scope.(documentIds := Some(ids));
    forall c | c in chunks
      ensures c in Filter(chunks, Pool(listed)) <==> InPool(c, listed)
      ensures c in Filter(chunks, Pool(scope)) <==> InPool(c, scope)
    {
    }
  }

  /**
    What a search may find: the embedded chunks of the company and the allowed departments, of
    the listed documents or, when there is no list, those that are indexed.
   */
  lemma SearchPool(chunks: seq<StoredChunk>, query: Query, scope: Scope, topK: int, sim: Similarity)
    ensures forall c: StoredChunk ::
              InPool(c, scope) <==>
                && c.companyId == scope.companyId && c.departmentId in scope.departmentIds
                && (scope.documentIds.Some? ==> c.documentId in scope.documentIds.value)
                && (scope.documentIds.None? ==> c.status == Some("indexed"))
                && c.embedding.Some? && c.modelId.Some?
    ensures var (result, poolSize) := Found(chunks, query, scope, topK, sim);
            && poolSize == |set i | 0 <= i < |chunks| && InPool(chunks[i], scope)|
            && |result| == (if topK >= poolSize then poolSize else if topK >= 0 then topK
                            else if poolSize + topK > 0 then poolSize + topK else 0)
  {
    hide Found, Pool, Rank, Scores;
    PoolSize(chunks, scope);
    FoundIsRanked(chunks, query, scope, topK, sim);
    RankSize(Scores(query, sim, Filter(chunks, Pool(scope))), topK);
  }

  lemma PoolSize(chunks: seq<StoredChunk>, scope: Scope)
    ensures |Filter(chunks, Pool(scope))| == |set i | 0 <= i < |chunks| && InPool(chunks[i], scope)|
  {
    FilterSize(chunks, Pool(scope));
    hide InPool;
    assert Places(chunks, Pool(scope)) == set i | 0 <= i < |chunks| && InPool(chunks[i], scope);
  }

  lemma RankSize(scored: seq<Scored>, topK: int)
    ensures |Rank(scored, topK)|
         == if topK >= |scored| then |scored| else if topK >= 0 then topK
            else if |scored| + topK > 0 then |scored| + topK else 0
  {
    SortSorts(scored, RankKey());
    hide Sort;
  }

  /**
    What it finds: each chunk is scored by its similarity to the query.  The greater score comes
    first, then the smaller id, and no chunk left out comes before one that is returned.
   */
  lemma SearchFindsTheMostSimilar(chunks: seq<StoredChunk>, query: Query, scope: Scope, topK: int, sim: Similarity)
    ensures var result := Found(chunks, query, scope, topK, sim).0;
            && (forall x :: x in result ==>
                              && x.chunk in chunks && InPool(x.chunk, scope)
                              && x.score == sim(query.vector, x.chunk.embedding.value))
            && (forall i, j :: 0 <= i < j < |result| ==>
                                 var x, y := result[i], result[j];
                                 || x.score > y.score
                                 || (x.score == y.score && StrLe(x.chunk.chunkId, y.chunk.chunkId)))
            && forall x, c ::
                 x in result && c in chunks && InPool(c, scope) && (forall y :: y in result ==> y.chunk != c) ==>
                   var score := sim(query.vector, c.embedding.value);
                   x.score > score || (x.score == score && StrLe(x.chunk.chunkId, c.chunkId))
  {
    PoolMembers(chunks, scope);
    hide *;
    var pool := Filter(chunks, Pool(scope));
    var scored := Scores(query, sim, pool);
    var ordered := Sort(scored, RankKey());
    SortSorts(scored, RankKey());
    ScoredFromPool(pool, ordered, query, sim);
    OrderedByScore(ordered);
    FoundIsRanked(chunks, query, scope, topK, sim);
    RankIsHead(scored, topK);
    LeftOutComesLater(pool, ordered, |Rank(scored, topK)|, query, sim);
  }

  lemma PoolMembers(chunks: seq<StoredChunk>, scope: Scope)
    ensures forall c :: c in Filter(chunks, Pool(scope)) <==> c in chunks && InPool(c, scope)
    ensures forall c: StoredChunk :: InPool(c, scope) ==> c.embedding.Some?
  {
    hide Filter;
  }

  lemma FoundIsRanked(chunks: seq<StoredChunk>, query: Query, scope: Scope, topK: int, sim: Similarity)
    ensures Found(chunks, query, scope, topK, sim)
         == (Rank(Scores(query, sim, Filter(chunks, Pool(scope))), topK), |Filter(chunks, Pool(scope))|)
  {
  }

  lemma RankIsHead(scored: seq<Scored>, topK: int)
    ensures var n := |Rank(scored, topK)|;
            n <= |Sort(scored, RankKey())| && Rank(scored, topK) == Sort(scored, RankKey())[..n]
  {
    hide Sort;
  }

  lemma LeftOutComesLater(pool: seq<StoredChunk>, ordered: seq<Scored>, n: nat, query: Query, sim: Similarity)
    requires n <= |ordered| && forall c :: c in pool ==> c.embedding.Some?
    requires forall x :: x in ordered ==> x.chunk in pool && x.score == sim(query.vector, x.chunk.embedding.value)
    requires forall c :: c in pool ==> exists j :: 0 <= j < |ordered| && ordered[j].chunk == c
    requires forall i, j :: 0 <= i < j < |ordered| ==>
               var x, y := ordered[i], ordered[j];
               x.score > y.score || (x.score == y.score && StrLe(x.chunk.chunkId, y.chunk.chunkId))
    ensures var result := ordered[..n];
            forall x, c :: x in result && c in pool && (forall y :: y in result ==> y.chunk != c) ==>
                             var score := sim(query.vector, c.embedding.value);
                             x.score > score || (x.score == score && StrLe(x.chunk.chunkId, c.chunkId))
  {
    var result := ordered[..n];
    forall x, c | x in result && c in pool && (forall y :: y in result ==> y.chunk != c)
      ensures var score := sim(query.vector, c.embedding.value);
              x.score > score || (x.score == score && StrLe(x.chunk.chunkId, c.chunkId))
    {
      var i :| 0 <= i < n && ordered[i] == x;
      var j :| 0 <= j < |ordered| && ordered[j].chunk == c;
      assert forall k :: 0 <= k < n ==> ordered[k] in result;
      assert ordered[j] in ordered;
    }
  }

  lemma ScoredFromPool(pool: seq<StoredChunk>, ordered: seq<Scored>, query: Query, sim: Similarity)
    requires multiset(ordered) == multiset(Scores(query, sim, pool)) && forall c :: c in pool ==> c.embedding.Some?
    ensures |ordered| == |pool|
    ensures forall x :: x in ordered ==> x.chunk in pool && x.score == sim(query.vector, x.chunk.embedding.value)
    ensures forall c :: c in pool ==> exists j :: 0 <= j < |ordered| && ordered[j].chunk == c
  {
    var scored := Scores(query, sim, pool);
    assert |multiset(ordered)| == |multiset(scored)|;
    forall x | x in ordered
      ensures x.chunk in pool && x.score == sim(query.vector, x.chunk.embedding.value)
    {
      assert x in multiset(scored);
      var i :| 0 <= i < |scored| && scored[i] == x;
    }
    forall c | c in pool
      ensures exists j :: 0 <= j < |ordered| && ordered[j].chunk == c
    {
      var i :| 0 <= i < |pool| && pool[i] == c;
      assert scored[i] in multiset(ordered);
    }
  }

  lemma OrderedByScore(ordered: seq<Scored>)
    requires SortedBy(ordered, RankKey())
    ensures forall i, j :: 0 <= i < j < |ordered| ==>
              var x, y := ordered[i], ordered[j];
              x.score > y.score || (x.score == y.score && StrLe(x.chunk.chunkId, y.chunk.chunkId))
  {
    forall i, j | 0 <= i < j < |ordered|
      ensures KeyLe(RankKey()(ordered[i]), RankKey()(ordered[j]))
    {
    }
  }
}
