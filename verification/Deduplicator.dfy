/**
  The deduplicator of rag/pipeline/deduplicator.py: one survivor per chunk id, then one per
  content hash, the best scored one and the earliest among equals.
 */
module Deduplicator {
  import opened Types
  import opened Ordering

  datatype Deduplicated = Deduplicated(chunks: seq<Chunk>, removedDuplicateIds: seq<Id>,
                                       removedNearDuplicateIds: seq<Id>)

  /** Identity of a chunk for one of the two phases. */
  type Class = Chunk -> string

  function ById(): Class { (chunk: Chunk) => chunk.chunkId }

  function ByHash(hash: string -> string): Class { (chunk: Chunk) => hash(chunk.content) }

  // ----- Specification: who survives, and why

  predicate InRange(positions: seq<nat>, n: nat) {
    forall i :: 0 <= i < |positions| ==> positions[i] < n
  }

  predicate Ascending(positions: seq<nat>) {
    forall i, j :: 0 <= i < j < |positions| ==> positions[i] < positions[j]
  }

  /** Among `positions`, `p` is the best of its class: no higher score, no equal score earlier. */
  predicate IsBest(candidates: seq<Chunk>, positions: seq<nat>, cls: Class, scores: Scores, p: nat) {
    && p < |candidates|
    && forall q :: q in positions && q < |candidates| && cls(candidates[q]) == cls(candidates[p]) ==>
                     var s, t := EffectiveScore(candidates[p], scores), EffectiveScore(candidates[q], scores);
                     t < s || (t == s && p <= q)
  }

  function Survivors(candidates: seq<Chunk>, positions: seq<nat>, cls: Class, scores: Scores): (r: seq<nat>)
    ensures forall p :: p in r <==> p in positions && IsBest(candidates, positions, cls, scores, p)
    ensures InRange(r, |candidates|)
  {
    var r := Filter(positions, (p: nat) => IsBest(candidates, positions, cls, scores, p));
    assert forall i :: 0 <= i < |r| ==> r[i] in r;
    r
  }

  function Select<T>(items: seq<T>, positions: seq<nat>): (r: seq<T>)
    requires InRange(positions, |items|)
    ensures |r| == |positions| && forall i :: 0 <= i < |r| ==> r[i] == items[positions[i]]
  {
    if positions == [] then []
    else
      [items[positions[0]]] + Select(items, positions[1..])
  }

  function Without(positions: seq<nat>, kept: seq<nat>): (r: seq<nat>)
    ensures forall p :: p in r <==> p in positions && p !in kept
    ensures forall n :: InRange(positions, n) ==> InRange(r, n)
  {
    var r := Filter(positions, (p: nat) => p !in kept);
    assert forall i :: 0 <= i < |r| ==> r[i] in r;
    r
  }

  function All(n: nat): (r: seq<nat>)
    ensures |r| == n && forall i :: 0 <= i < n ==> r[i] == i
  {
    seq(n, i => i)
  }

  /** What one phase keeps of `positions`. */
  function Kept(candidates: seq<Chunk>, positions: seq<nat>, enabled: bool, cls: Class, scores: Scores): (r: seq<nat>)
    requires InRange(positions, |candidates|)
    ensures InRange(r, |candidates|)
  {
    if enabled then Survivors(candidates, positions, cls, scores) else positions
  }

  function IdSurvivors(candidates: seq<Chunk>, byChunkId: bool, scores: Scores): (r: seq<nat>)
    ensures InRange(r, |candidates|)
  {
    Kept(candidates, All(|candidates|), byChunkId, ById(), scores)
  }

  function FinalSurvivors(candidates: seq<Chunk>, byChunkId: bool, byContentHash: bool, scores: Scores,
                          hash: string -> string): (r: seq<nat>)
    ensures InRange(r, |candidates|)
  {
    Kept(candidates, IdSurvivors(candidates, byChunkId, scores), byContentHash, ByHash(hash), scores)
  }

  function Deduplicate(candidates: seq<Chunk>, byChunkId: bool, byContentHash: bool, scores: Scores,
                       hash: string -> string): Deduplicated
  {
    var all, allIds := All(|candidates|), ChunkIds(candidates);
    var ids := IdSurvivors(candidates, byChunkId, scores);
    var final := FinalSurvivors(candidates, byChunkId, byContentHash, scores, hash);
    Deduplicated(Select(candidates, final), Select(allIds, Without(all, ids)), Select(allIds, Without(ids, final)))
  }

  // ----- The algorithm

  /** The dictionary filled by either phase: for each class, the position of its incumbent. */
  method KeepBest(candidates: seq<Chunk>, positions: seq<nat>, cls: Class, scores: Scores)
    returns (keep: map<string, nat>)
    requires InRange(positions, |candidates|) && Ascending(positions)
    ensures forall p :: p in keep.Values <==> p in Survivors(candidates, positions, cls, scores)
  {
    keep := map[];
    for i := 0 to |positions|
      invariant Holds(candidates, positions[..i], cls, scores, keep)
    {
      var position := positions[i];
      var key := cls(candidates[position]);
      HoldsNext(candidates, positions, i, cls, scores, keep);
      if key !in keep
         || EffectiveScore(candidates[position], scores) > EffectiveScore(candidates[keep[key]], scores) {
        keep := keep[key := position];
      }
    }
    assert positions[..|positions|] == positions;
    HoldsSurvivors(candidates, positions, cls, scores, keep);
  }

  /** `keep` maps every class met among `positions` to its best position. */
  ghost predicate Holds(candidates: seq<Chunk>, positions: seq<nat>, cls: Class, scores: Scores, keep: map<string, nat>)
    requires InRange(positions, |candidates|)
  {
    && (forall k :: k in keep ==>
                      && keep[k] in positions && cls(candidates[keep[k]]) == k
                      && IsBest(candidates, positions, cls, scores, keep[k]))
    && forall p :: p in positions ==> cls(candidates[p]) in keep
  }

  lemma BestExtends(candidates: seq<Chunk>, positions: seq<nat>, p: nat, cls: Class, scores: Scores, q: nat)
    requires InRange(positions, |candidates|) && p < |candidates| && IsBest(candidates, positions, cls, scores, q)
    requires q in positions && forall x :: x in positions ==> x < p
    ensures var better := EffectiveScore(candidates[p], scores) > EffectiveScore(candidates[q], scores);
            var same := cls(candidates[p]) == cls(candidates[q]);
            && (!(same && better) ==> IsBest(candidates, positions + [p], cls, scores, q))
            && (same && better ==> IsBest(candidates, positions + [p], cls, scores, p))
  {
  }

  lemma HoldsNext(candidates: seq<Chunk>, positions: seq<nat>, i: nat, cls: Class, scores: Scores,
                  keep: map<string, nat>)
    requires InRange(positions, |candidates|) && Ascending(positions) && i < |positions|
    requires Holds(candidates, positions[..i], cls, scores, keep)
    ensures var p := positions[i];
            var key := cls(candidates[p]);
            var replaced := key !in keep
                            || EffectiveScore(candidates[p], scores) > EffectiveScore(candidates[keep[key]], scores);
            Holds(candidates, positions[..i + 1], cls, scores, if replaced then keep[key := p] else keep)
  {
    var p := positions[i];
    var before := positions[..i];
    assert positions[..i + 1] == before + [p];
    forall k | k in keep
      ensures var q := keep[k];
              var better := EffectiveScore(candidates[p], scores) > EffectiveScore(candidates[q], scores);
              var same := cls(candidates[p]) == cls(candidates[q]);
              && (!(same && better) ==> IsBest(candidates, before + [p], cls, scores, q))
              && (same && better ==> IsBest(candidates, before + [p], cls, scores, p))
    {
      BestExtends(candidates, before, p, cls, scores, keep[k]);
    }
  }

  lemma HoldsSurvivors(candidates: seq<Chunk>, positions: seq<nat>, cls: Class, scores: Scores, keep: map<string, nat>)
    requires InRange(positions, |candidates|) && Holds(candidates, positions, cls, scores, keep)
    ensures forall p :: p in keep.Values <==> p in Survivors(candidates, positions, cls, scores)
  {
    forall p | p in Survivors(candidates, positions, cls, scores)
      ensures p in keep.Values
    {
      var q := keep[cls(candidates[p])];
      assert q == p;
    }
  }

  /** `sorted` of a set of positions below `n`. */
  function SortedPositions(positions: set<nat>, n: nat): (r: seq<nat>)
    ensures forall p :: p in r <==> p in positions && p < n
    ensures Ascending(r)
  {
    if n == 0 then []
    else
      var below := SortedPositions(positions, n - 1);
      assert forall i :: 0 <= i < |below| ==> below[i] in below;
      if n - 1 in positions then below + [n - 1] else below
  }

  /** One phase: the surviving positions, and the ids of the others. */
  method Phase(candidates: seq<Chunk>, positions: seq<nat>, enabled: bool, cls: Class, scores: Scores)
    returns (kept: seq<nat>, removedIds: seq<Id>)
    requires InRange(positions, |candidates|) && Ascending(positions)
    ensures kept == Kept(candidates, positions, enabled, cls, scores) && Ascending(kept)
    ensures InRange(Without(positions, kept), |candidates|)
    ensures removedIds == Select(ChunkIds(candidates), Without(positions, kept))
  {
    var allIds := ChunkIds(candidates);
    kept := positions;
    if enabled {
      var keep := KeepBest(candidates, positions, cls, scores);
      kept := SortedPositions(keep.Values, |candidates|);
      SurvivorsAscend(candidates, positions, cls, scores);
      AscendingIsUnique(kept, Survivors(candidates, positions, cls, scores));
    }
    NothingYet(kept, allIds);
    hide Without, Select, Kept;
    removedIds := [];
    for i := 0 to |positions|
      invariant InRange(Without(positions[..i], kept), |candidates|)
      invariant removedIds == Select(allIds, Without(positions[..i], kept))
    {
      WithoutSnoc(positions[..i], positions[i], kept, allIds);
      assert positions[..i] + [positions[i]] == positions[..i + 1];
      if positions[i] !in kept {
        removedIds := removedIds + [candidates[positions[i]].chunkId];
      }
    }
    assert positions[..|positions|] == positions;
  }

  method DeduplicateChunks(candidates: seq<Chunk>, byChunkId: bool, byContentHash: bool, scores: Scores,
                           hash: string -> string) returns (r: Deduplicated)
    ensures r == Deduplicate(candidates, byChunkId, byContentHash, scores, hash)
  {
    var idSurvivors, duplicateIds := Phase(candidates, All(|candidates|), byChunkId, ById(), scores);
    var finalPositions, nearDuplicateIds := Phase(candidates, idSurvivors, byContentHash, ByHash(hash), scores);
    r := Deduplicated(Select(candidates, finalPositions), duplicateIds, nearDuplicateIds);
  }

  // ----- Positions

  lemma {:induction false} FilterAscends(positions: seq<nat>, p: nat -> bool)
    requires Ascending(positions)
    ensures Ascending(Filter(positions, p))
  {
    if positions != [] {
      FilterAscends(positions[1..], p);
      var rest := Filter(positions[1..], p);
      forall j | 0 <= j < |rest|
        ensures positions[0] < rest[j]
      {
        assert rest[j] in positions[1..];
      }
    }
  }

  lemma SurvivorsAscend(candidates: seq<Chunk>, positions: seq<nat>, cls: Class, scores: Scores)
    requires Ascending(positions)
    ensures Ascending(Survivors(candidates, positions, cls, scores))
  {
    FilterAscends(positions, (p: nat) => IsBest(candidates, positions, cls, scores, p));
  }

  lemma {:induction false} AscendingIsUnique(a: seq<nat>, b: seq<nat>)
    requires Ascending(a) && Ascending(b) && forall p :: p in a <==> p in b
    ensures a == b
  {
    assert (a != [] ==> a[0] in b) && (b != [] ==> b[0] in a);
    if a != [] {
      TailsAgree(a, b);
      AscendingIsUnique(a[1..], b[1..]);
    }
  }

  lemma TailsAgree(a: seq<nat>, b: seq<nat>)
    requires Ascending(a) && Ascending(b) && a != [] && b != [] && forall p :: p in a <==> p in b
    ensures a[0] == b[0] && forall p :: p in a[1..] <==> p in b[1..]
  {
    assert a[0] in b && b[0] in a;
    assert forall p :: p in a[1..] <==> p in a && p != a[0];
    assert forall p :: p in b[1..] <==> p in b && p != b[0];
  }

  lemma {:induction false} SelectConcat<T>(items: seq<T>, a: seq<nat>, b: seq<nat>)
    requires InRange(a, |items|) && InRange(b, |items|)
    ensures Select(items, a + b) == Select(items, a) + Select(items, b)
  {
    if a == [] {
      assert a + b == b;
    } else {
      assert (a + b)[1..] == a[1..] + b;
      SelectConcat(items, a[1..], b);
    }
  }

  lemma WithoutSnoc(positions: seq<nat>, p: nat, kept: seq<nat>, items: seq<Id>)
    requires InRange(Without(positions, kept), |items|) && p < |items|
    ensures InRange(Without(positions + [p], kept), |items|)
    ensures Select(items, Without(positions + [p], kept))
         == Select(items, Without(positions, kept)) + if p in kept then [] else [items[p]]
  {
    hide Filter;
    var tail := if p in kept then [] else [p];
    assert Select(items, tail) == if p in kept then [] else [items[p]];
    hide Select;
    FilterSnoc(positions, p, (q: nat) => q !in kept);
    assert Without(positions + [p], kept) == Without(positions, kept) + tail;
    SelectConcat(items, Without(positions, kept), tail);
  }

  lemma NothingYet(kept: seq<nat>, items: seq<Id>)
    ensures Without([], kept) == [] && Select(items, []) == []
  {
  }

  lemma NothingWithout(positions: seq<nat>)
    ensures Without(positions, positions) == []
  {
    FilterIsNone(positions, (p: nat) => p !in positions);
  }

  /** Taking positions apart takes the items apart. */
  lemma {:induction false} SelectSplits<T>(items: seq<T>, positions: seq<nat>, p: nat -> bool, q: nat -> bool)
    requires InRange(positions, |items|) && forall x :: q(x) == !p(x)
    ensures InRange(Filter(positions, p), |items|) && InRange(Filter(positions, q), |items|)
    ensures multiset(Select(items, positions))
         == multiset(Select(items, Filter(positions, p))) + multiset(Select(items, Filter(positions, q)))
  {
    FilterInRange(positions, p, |items|);
    FilterInRange(positions, q, |items|);
    if positions != [] {
      var h, rest := positions[0], positions[1..];
      assert h < |items| && InRange(rest, |items|);
      FilterCons(positions, p);
      FilterCons(positions, q);
      hide *;
      SelectSplits(items, rest, p, q);
      assert [h] + rest == positions;
      SelectAfter(items, h, rest, Filter(rest, p), Filter(rest, q));
    }
  }

  lemma FilterInRange(positions: seq<nat>, p: nat -> bool, n: nat)
    requires InRange(positions, n)
    ensures InRange(Filter(positions, p), n)
  {
    var r := Filter(positions, p);
    assert forall i :: 0 <= i < |r| ==> r[i] in r;
  }

  lemma SelectCons<T>(items: seq<T>, h: nat, rest: seq<nat>)
    requires h < |items| && InRange(rest, |items|)
    ensures InRange([h] + rest, |items|)
    ensures multiset(Select(items, [h] + rest)) == multiset{items[h]} + multiset(Select(items, rest))
  {
    assert ([h] + rest)[1..] == rest;
  }

  lemma SelectAfter<T>(items: seq<T>, h: nat, rest: seq<nat>, a: seq<nat>, b: seq<nat>)
    requires h < |items| && InRange(rest, |items|) && InRange(a, |items|) && InRange(b, |items|)
    requires multiset(Select(items, rest)) == multiset(Select(items, a)) + multiset(Select(items, b))
    ensures InRange([h] + rest, |items|) && InRange([h] + a, |items|) && InRange([h] + b, |items|)
    ensures var all := multiset(Select(items, [h] + rest));
            && all == multiset(Select(items, [h] + a)) + multiset(Select(items, b))
            && all == multiset(Select(items, a)) + multiset(Select(items, [h] + b))
  {
    hide *;
    SelectCons(items, h, rest);
    SelectCons(items, h, a);
    SelectCons(items, h, b);
    AddFirst(multiset{items[h]}, multiset(Select(items, a)), multiset(Select(items, b)));
  }

  lemma AddFirst<T>(h: multiset<T>, a: multiset<T>, b: multiset<T>)
    ensures h + (a + b) == (h + a) + b == a + (h + b)
  {
  }

  // ----- Main results

  /** The best of a class exists. */
  lemma {:induction false} ClassHasBest(candidates: seq<Chunk>, positions: seq<nat>, cls: Class, scores: Scores, p: nat)
    returns (q: nat)
    requires InRange(positions, |candidates|) && Ascending(positions) && p in positions
    ensures q in Survivors(candidates, positions, cls, scores) && cls(candidates[q]) == cls(candidates[p])
  {
    var last := positions[|positions| - 1];
    var init := positions[..|positions| - 1];
    assert positions == init + [last];
    InitIsBelow(positions, |candidates|);
    hide Survivors, InRange, Ascending;
    if r: nat :| r in init && cls(candidates[r]) == cls(candidates[p]) {
      q := ClassHasBest(candidates, init, cls, scores, r);
      BestExtends(candidates, init, last, cls, scores, q);
      hide IsBest;
      if cls(candidates[last]) == cls(candidates[q])
         && EffectiveScore(candidates[last], scores) > EffectiveScore(candidates[q], scores) {
        q := last;
      }
    } else {
      q := last;
    }
  }

  lemma InitIsBelow(positions: seq<nat>, n: nat)
    requires InRange(positions, n) && Ascending(positions) && positions != []
    ensures var last, init := positions[|positions| - 1], positions[..|positions| - 1];
            last < n && InRange(init, n) && Ascending(init) && forall x :: x in init ==> x < last
  {
  }

  /** `a` and `b` name the same class in some enabled phase. */
  predicate SameClass(a: Chunk, b: Chunk, byChunkId: bool, byContentHash: bool, hash: string -> string) {
    (byChunkId && a.chunkId == b.chunkId) || (byContentHash && hash(a.content) == hash(b.content))
  }

  /** One phase: order kept, no class shared, the best kept, and a survivor for each loser. */
  lemma PhaseKeepsBest(candidates: seq<Chunk>, positions: seq<nat>, enabled: bool, cls: Class, scores: Scores)
    requires InRange(positions, |candidates|) && Ascending(positions)
    ensures var r := Kept(candidates, positions, enabled, cls, scores);
            && Ascending(r)
            && (forall p :: p in r ==> p in positions && (enabled ==> IsBest(candidates, positions, cls, scores, p)))
            && (enabled ==> forall p, q :: p in r && q in r && p != q ==> cls(candidates[p]) != cls(candidates[q]))
            && forall p :: p in positions && p !in r ==> exists q :: q in r && cls(candidates[q]) == cls(candidates[p])
  {
    if enabled {
      SurvivorsAscend(candidates, positions, cls, scores);
      SurvivorsDiffer(candidates, positions, cls, scores);
      LosersHaveSurvivors(candidates, positions, cls, scores);
      hide Ascending, Survivors, IsBest;
    }
  }

  lemma SurvivorsDiffer(candidates: seq<Chunk>, positions: seq<nat>, cls: Class, scores: Scores)
    ensures var s := Survivors(candidates, positions, cls, scores);
            forall p, q :: p in s && q in s && p != q ==> cls(candidates[p]) != cls(candidates[q])
  {
    var s := Survivors(candidates, positions, cls, scores);
    forall p, q | p in s && q in s && p != q
      ensures cls(candidates[p]) != cls(candidates[q])
    {
      assert IsBest(candidates, positions, cls, scores, p) && IsBest(candidates, positions, cls, scores, q);
    }
  }

  lemma LosersHaveSurvivors(candidates: seq<Chunk>, positions: seq<nat>, cls: Class, scores: Scores)
    requires InRange(positions, |candidates|) && Ascending(positions)
    ensures var s := Survivors(candidates, positions, cls, scores);
            forall p :: p in positions ==> exists q :: q in s && cls(candidates[q]) == cls(candidates[p])
  {
    hide Ascending, Survivors, IsBest;
    forall p | p in positions
      ensures exists q :: q in Survivors(candidates, positions, cls, scores) && cls(candidates[q]) == cls(candidates[p])
    {
      var q := ClassHasBest(candidates, positions, cls, scores, p);
    }
  }

  /**
    The survivors keep their order, no two of them share an id (when deduplicating by id) or a
    hash (when deduplicating by hash), each is the best of its id class, and among those the
    best of its hash class; whoever is missing lost to a survivor of its class.
   */
  lemma SurvivorsAreTheBest(candidates: seq<Chunk>, byChunkId: bool, byContentHash: bool, scores: Scores,
                            hash: string -> string)
    ensures var all := All(|candidates|);
            var ids := IdSurvivors(candidates, byChunkId, scores);
            var final := FinalSurvivors(candidates, byChunkId, byContentHash, scores, hash);
            && Ascending(final) && Ascending(ids)
            && Deduplicate(candidates, byChunkId, byContentHash, scores, hash).chunks == Select(candidates, final)
            && (forall p, q :: p in final && q in final && p != q ==>
                                 !SameClass(candidates[p], candidates[q], byChunkId, byContentHash, hash))
            && (forall p :: p in final ==>
                              && (byChunkId ==> IsBest(candidates, all, ById(), scores, p))
                              && (byContentHash ==> IsBest(candidates, ids, ByHash(hash), scores, p)))
            && (forall p :: p in all && p !in ids ==>
                              exists q :: q in ids && candidates[q].chunkId == candidates[p].chunkId)
            && (forall p :: p in ids && p !in final ==>
                              exists q :: q in final && hash(candidates[q].content) == hash(candidates[p].content))
  {
    var all := All(|candidates|);
    var ids := IdSurvivors(candidates, byChunkId, scores);
    var final := FinalSurvivors(candidates, byChunkId, byContentHash, scores, hash);
    PhaseKeepsBest(candidates, all, byChunkId, ById(), scores);
    PhaseKeepsBest(candidates, ids, byContentHash, ByHash(hash), scores);
    hide IsBest, Survivors, InRange, Ascending, Select;
    forall p, q | p in final && q in final && p != q
      ensures !SameClass(candidates[p], candidates[q], byChunkId, byContentHash, hash)
    {
      assert p in ids && q in ids;
    }
  }

  lemma SelectAll<T>(items: seq<T>)
    ensures InRange(All(|items|), |items|) && Select(items, All(|items|)) == items
  {
  }

  lemma SelectIds(candidates: seq<Chunk>, positions: seq<nat>)
    requires InRange(positions, |candidates|)
    ensures Select(ChunkIds(candidates), positions) == ChunkIds(Select(candidates, positions))
  {
    var a, b := Select(ChunkIds(candidates), positions), ChunkIds(Select(candidates, positions));
    assert forall i :: 0 <= i < |a| ==> positions[i] in positions && a[i] == b[i];
  }

  lemma KeptAndWithout(items: seq<Id>, positions: seq<nat>, kept: seq<nat>)
    requires InRange(positions, |items|) && InRange(kept, |items|)
    requires kept == Filter(positions, (p: nat) => p in kept)
    ensures InRange(Without(positions, kept), |items|)
    ensures multiset(Select(items, positions))
            == multiset(Select(items, kept)) + multiset(Select(items, Without(positions, kept)))
  {
    SelectSplits(items, positions, (p: nat) => p in kept, (p: nat) => p !in kept);
  }

  lemma SurvivorsAreKept(candidates: seq<Chunk>, positions: seq<nat>, cls: Class, scores: Scores)
    ensures var s := Survivors(candidates, positions, cls, scores); s == Filter(positions, (p: nat) => p in s)
  {
    var s := Survivors(candidates, positions, cls, scores);
    FilterAgrees(positions, (p: nat) => IsBest(candidates, positions, cls, scores, p), (p: nat) => p in s);
  }

  lemma AllAreKept(positions: seq<nat>)
    ensures positions == Filter(positions, (p: nat) => p in positions)
  {
    FilterAgrees(positions, (p: nat) => p in positions, (p: nat) => true);
    FilterIsAll(positions, (p: nat) => true);
  }

  /** Every candidate is kept or reported as removed, exactly once. */
  lemma EveryCandidateIsReported(candidates: seq<Chunk>, byChunkId: bool, byContentHash: bool, scores: Scores,
                                 hash: string -> string)
    ensures var r := Deduplicate(candidates, byChunkId, byContentHash, scores, hash);
            multiset(ChunkIds(candidates))
            == multiset(ChunkIds(r.chunks)) + multiset(r.removedDuplicateIds) + multiset(r.removedNearDuplicateIds)
  {
    var all, allIds := All(|candidates|), ChunkIds(candidates);
    var ids := IdSurvivors(candidates, byChunkId, scores);
    var final := FinalSurvivors(candidates, byChunkId, byContentHash, scores, hash);
    PhaseSplits(candidates, all, byChunkId, ById(), scores);
    PhaseSplits(candidates, ids, byContentHash, ByHash(hash), scores);
    SelectAll(allIds);
    SelectIds(candidates, final);
  }

  lemma PhaseSplits(candidates: seq<Chunk>, positions: seq<nat>, enabled: bool, cls: Class, scores: Scores)
    requires InRange(positions, |candidates|)
    ensures var kept := Kept(candidates, positions, enabled, cls, scores);
            var items := ChunkIds(candidates);
            && InRange(Without(positions, kept), |items|)
            && multiset(Select(items, positions))
            == multiset(Select(items, kept)) + multiset(Select(items, Without(positions, kept)))
  {
    if enabled {
      SurvivorsAreKept(candidates, positions, cls, scores);
    } else {
      AllAreKept(positions);
    }
    KeptAndWithout(ChunkIds(candidates), positions, Kept(candidates, positions, enabled, cls, scores));
  }

  /**
    What is removed in which phase: of each id all but one occurrence as duplicates, when
    deduplicating by id, and only when deduplicating by hash anything as near duplicates.
   */
  lemma RemovedByPhase(candidates: seq<Chunk>, byChunkId: bool, byContentHash: bool, scores: Scores,
                       hash: string -> string, id: Id)
    ensures var r := Deduplicate(candidates, byChunkId, byContentHash, scores, hash);
            var ids := multiset(ChunkIds(candidates));
            && multiset(r.removedDuplicateIds)[id] == (if byChunkId && id in ids then ids[id] - 1 else 0)
            && (!byContentHash ==> r.removedNearDuplicateIds == [])
  {
    var all, items := All(|candidates|), ChunkIds(candidates);
    var kept := IdSurvivors(candidates, byChunkId, scores);
    SelectAll(items);
    PhaseSplits(candidates, all, byChunkId, ById(), scores);
    if byChunkId {
      PhaseKeepsBest(candidates, all, true, ById(), scores);
      OncePerId(candidates, all, kept, id);
    } else {
      NothingWithout(all);
    }
    if !byContentHash {
      NothingWithout(kept);
    }
    hide Survivors, All, Without, Select;
  }

  lemma OncePerId(candidates: seq<Chunk>, all: seq<nat>, kept: seq<nat>, id: Id)
    requires all == All(|candidates|) && InRange(kept, |candidates|) && Ascending(kept)
    requires forall p, q :: p in kept && q in kept && p != q ==> candidates[p].chunkId != candidates[q].chunkId
    requires forall p :: p in all && p !in kept ==>
                           exists q :: q in kept && candidates[q].chunkId == candidates[p].chunkId
    ensures multiset(Select(ChunkIds(candidates), kept))[id] == if id in ChunkIds(candidates) then 1 else 0
  {
    var items := ChunkIds(candidates);
    var ids := Select(items, kept);
    forall i, j | 0 <= i < j < |ids|
      ensures ids[i] != ids[j]
    {
      assert kept[i] in kept && kept[j] in kept;
    }
    CountOfDistinct(ids, id);
    if id in items {
      var p :| 0 <= p < |items| && items[p] == id;
      assert all[p] == p;
      var q: nat :| q in kept && candidates[q].chunkId == id;
      SelectedIff(items, kept, id);
    } else {
      SelectedIff(items, kept, id);
    }
  }

  lemma {:induction false} CountOfDistinct(ids: seq<Id>, id: Id)
    requires forall i, j :: 0 <= i < j < |ids| ==> ids[i] != ids[j]
    ensures multiset(ids)[id] == if id in ids then 1 else 0
  {
    if ids != [] {
      assert ids == [ids[0]] + ids[1..];
      CountOfDistinct(ids[1..], id);
    }
  }

  /** Deduplicating again, with the same scores, removes nothing. */
  lemma SecondPassRemovesNothing(candidates: seq<Chunk>, byChunkId: bool, byContentHash: bool, scores: Scores,
                                 hash: string -> string)
    ensures var kept := Deduplicate(candidates, byChunkId, byContentHash, scores, hash).chunks;
            Deduplicate(kept, byChunkId, byContentHash, scores, hash) == Deduplicated(kept, [], [])
  {
    SurvivorsAreTheBest(candidates, byChunkId, byContentHash, scores, hash);
    var final := FinalSurvivors(candidates, byChunkId, byContentHash, scores, hash);
    var kept := Select(candidates, final);
    var all := All(|kept|);
    forall i, j | 0 <= i < |kept| && 0 <= j < |kept| && i != j
      ensures !SameClass(kept[i], kept[j], byChunkId, byContentHash, hash)
    {
      assert final[i] in final && final[j] in final;
    }
    if byChunkId {
      AllSurvive(kept, ById(), scores);
    }
    if byContentHash {
      AllSurvive(kept, ByHash(hash), scores);
    }
    SelectAll(kept);
    NothingWithout(all);
  }

  lemma AllSurvive(kept: seq<Chunk>, cls: Class, scores: Scores)
    requires forall i, j :: 0 <= i < |kept| && 0 <= j < |kept| && i != j ==> cls(kept[i]) != cls(kept[j])
    ensures Survivors(kept, All(|kept|), cls, scores) == All(|kept|)
  {
    var all := All(|kept|);
    FilterAgrees(all, (p: nat) => IsBest(kept, all, cls, scores, p), (p: nat) => true);
    FilterIsAll(all, (p: nat) => true);
  }

  // ----- Main result: when the order of arrival decides who survives

  /** Two candidates share the top score of their hash class. */
  predicate TiedAtTop(candidates: seq<Chunk>, scores: Scores, hash: string -> string, x: Chunk, y: Chunk) {
    && x in candidates && y in candidates && x != y && hash(x.content) == hash(y.content)
    && EffectiveScore(x, scores) == EffectiveScore(y, scores)
    && forall z :: z in candidates && hash(z.content) == hash(x.content) ==>
                     EffectiveScore(z, scores) <= EffectiveScore(x, scores)
  }

  ghost predicate NoTopTies(candidates: seq<Chunk>, scores: Scores, hash: string -> string) {
    forall x, y :: !TiedAtTop(candidates, scores, hash, x, y)
  }

  /** `c` scores better than every other candidate of its hash class. */
  ghost predicate Wins(candidates: seq<Chunk>, scores: Scores, hash: string -> string, c: Chunk) {
    && c in candidates
    && forall d :: d in candidates && d != c && hash(d.content) == hash(c.content) ==>
                     EffectiveScore(d, scores) < EffectiveScore(c, scores)
  }

  /** The chunks left when deduplicating by id and by hash. */
  function KeptChunks(candidates: seq<Chunk>, scores: Scores, hash: string -> string): seq<Chunk> {
    Deduplicate(candidates, true, true, scores, hash).chunks
  }

  lemma KeptByHash(candidates: seq<Chunk>, scores: Scores, hash: string -> string)
    requires DistinctIds(candidates)
    ensures KeptChunks(candidates, scores, hash)
            == Select(candidates, Survivors(candidates, All(|candidates|), ByHash(hash), scores))
  {
    AllSurvive(candidates, ById(), scores);
    hide Survivors, Select, All;
  }

  lemma SelectedIff<T>(items: seq<T>, positions: seq<nat>, c: T)
    requires InRange(positions, |items|)
    ensures c in Select(items, positions) <==> exists p :: p in positions && p < |items| && items[p] == c
  {
    var kept := Select(items, positions);
    hide Select;
    if c in kept {
      var i :| 0 <= i < |kept| && kept[i] == c;
      assert positions[i] in positions;
    }
    if p :| p in positions && p < |items| && items[p] == c {
      var i :| 0 <= i < |positions| && positions[i] == p;
      assert kept[i] == c;
    }
  }

  lemma AllHas(n: nat, p: nat)
    ensures p in All(n) <==> p < n
  {
    if p < n {
      assert All(n)[p] == p;
    }
  }

  lemma KeptIffBest(candidates: seq<Chunk>, scores: Scores, hash: string -> string, c: Chunk)
    requires DistinctIds(candidates)
    ensures c in KeptChunks(candidates, scores, hash)
       <==> exists p :: && 0 <= p < |candidates| && candidates[p] == c
                        && IsBest(candidates, All(|candidates|), ByHash(hash), scores, p)
  {
    var n := |candidates|;
    var positions := Survivors(candidates, All(n), ByHash(hash), scores);
    KeptByHash(candidates, scores, hash);
    SelectedIff(candidates, positions, c);
    hide *;
    if p :| p in positions && p < n && candidates[p] == c {
      assert IsBest(candidates, All(n), ByHash(hash), scores, p);
    }
    if p :| 0 <= p < n && candidates[p] == c && IsBest(candidates, All(n), ByHash(hash), scores, p) {
      AllHas(n, p);
      assert p in positions;
    }
  }

  /** Without ties at the top, the survivors are those who score best, wherever they stand. */
  lemma WinnersAreKept(candidates: seq<Chunk>, scores: Scores, hash: string -> string, c: Chunk)
    requires DistinctIds(candidates) && NoTopTies(candidates, scores, hash)
    ensures c in KeptChunks(candidates, scores, hash) <==> Wins(candidates, scores, hash, c)
  {
    var all := All(|candidates|);
    assert Wins(candidates, scores, hash, c) ==> c in candidates;
    hide *;
    KeptIffBest(candidates, scores, hash, c);
    if p :| 0 <= p < |candidates| && candidates[p] == c && IsBest(candidates, all, ByHash(hash), scores, p) {
      BestWins(candidates, scores, hash, p);
    }
    if Wins(candidates, scores, hash, c) {
      var p :| 0 <= p < |candidates| && candidates[p] == c;
      WinnerIsBest(candidates, scores, hash, p);
    }
  }

  lemma WinnerIsBest(candidates: seq<Chunk>, scores: Scores, hash: string -> string, p: nat)
    requires DistinctIds(candidates) && p < |candidates| && Wins(candidates, scores, hash, candidates[p])
    ensures IsBest(candidates, All(|candidates|), ByHash(hash), scores, p)
  {
    hide EffectiveScore;
  }

  lemma BestWins(candidates: seq<Chunk>, scores: Scores, hash: string -> string, p: nat)
    requires NoTopTies(candidates, scores, hash)
    requires p < |candidates| && IsBest(candidates, All(|candidates|), ByHash(hash), scores, p)
    ensures Wins(candidates, scores, hash, candidates[p])
  {
    var c := candidates[p];
    forall d | d in candidates && hash(d.content) == hash(c.content)
      ensures EffectiveScore(d, scores) <= EffectiveScore(c, scores)
    {
      var q :| 0 <= q < |candidates| && candidates[q] == d;
      assert All(|candidates|)[q] == q;
    }
    hide IsBest, EffectiveScore;
    forall d | d in candidates && d != c && hash(d.content) == hash(c.content)
      ensures EffectiveScore(d, scores) < EffectiveScore(c, scores)
    {
      assert !TiedAtTop(candidates, scores, hash, c, d);
    }
  }

  lemma {:induction false} DistinctCount(s: seq<Chunk>, c: Chunk)
    requires DistinctIds(s)
    ensures multiset(s)[c] == if c in s then 1 else 0
  {
    if s != [] {
      assert s == [s[0]] + s[1..];
      DistinctCount(s[1..], c);
    }
  }

  lemma SameMembers(a: seq<Chunk>, b: seq<Chunk>)
    requires multiset(a) == multiset(b)
    ensures |a| == |b| && forall c :: c in a <==> c in b
  {
    assert |multiset(a)| == |multiset(b)|;
    forall c
      ensures c in a <==> c in b
    {
      assert c in multiset(a) <==> c in multiset(b);
    }
  }

  lemma RearrangedIsDistinct(a: seq<Chunk>, b: seq<Chunk>)
    requires multiset(a) == multiset(b) && DistinctIds(a)
    ensures DistinctIds(b)
  {
    forall i, j | 0 <= i < j < |b|
      ensures b[i].chunkId != b[j].chunkId
    {
      var x, y := b[i], b[j];
      assert x in multiset(b) && y in multiset(b);
      if x == y {
        TwiceCounts(b, i, j);
        DistinctCount(a, x);
      }
    }
  }

  lemma TwiceCounts(b: seq<Chunk>, i: nat, j: nat)
    requires i < j < |b| && b[i] == b[j]
    ensures multiset(b)[b[i]] >= 2
  {
    assert b == b[..j] + b[j..];
    assert b[..j][i] in multiset(b[..j]) && b[j..][0] in multiset(b[j..]);
  }

  lemma KeptIsDistinct(candidates: seq<Chunk>, scores: Scores, hash: string -> string)
    requires DistinctIds(candidates)
    ensures DistinctIds(KeptChunks(candidates, scores, hash))
  {
    KeptByHash(candidates, scores, hash);
    var all := All(|candidates|);
    var positions := Survivors(candidates, all, ByHash(hash), scores);
    SurvivorsAscend(candidates, all, ByHash(hash), scores);
    hide KeptChunks, Survivors, All, Select;
  }

  /** The chunks left are the same, as a collection, for the two arrangements. */
  ghost predicate KeepAlike(a: seq<Chunk>, b: seq<Chunk>, scores: Scores, hash: string -> string) {
    multiset(KeptChunks(a, scores, hash)) == multiset(KeptChunks(b, scores, hash))
  }

  lemma UntiedKeepAlike(a: seq<Chunk>, b: seq<Chunk>, scores: Scores, hash: string -> string)
    requires DistinctIds(a) && multiset(a) == multiset(b) && NoTopTies(a, scores, hash)
    ensures KeepAlike(a, b, scores, hash) && DistinctIds(KeptChunks(a, scores, hash))
  {
    RearrangedIsDistinct(a, b);
    SameMembers(a, b);
    KeptIsDistinct(a, scores, hash);
    KeptIsDistinct(b, scores, hash);
    assert NoTopTies(b, scores, hash) by {
      forall x, y
        ensures !TiedAtTop(b, scores, hash, x, y)
      {
        assert !TiedAtTop(a, scores, hash, x, y);
      }
    }
    hide KeptChunks, NoTopTies, DistinctIds;
    forall c
      ensures multiset(KeptChunks(a, scores, hash))[c] == multiset(KeptChunks(b, scores, hash))[c]
    {
      WinnersAreKept(a, scores, hash, c);
      WinnersAreKept(b, scores, hash, c);
      DistinctCount(KeptChunks(a, scores, hash), c);
      DistinctCount(KeptChunks(b, scores, hash), c);
    }
  }

  lemma MoveToFront(a: seq<Chunk>, x: Chunk) returns (b: seq<Chunk>)
    requires x in a
    ensures b != [] && b[0] == x && multiset(b) == multiset(a)
  {
    var i :| 0 <= i < |a| && a[i] == x;
    b := [x] + (a[..i] + a[i + 1..]);
    assert a == a[..i] + ([x] + a[i + 1..]);
  }

  /** Of two tied at the top, the one that comes first stays and the other goes. */
  lemma FirstStays(b: seq<Chunk>, scores: Scores, hash: string -> string, x: Chunk, y: Chunk)
    requires DistinctIds(b) && b != [] && b[0] == x && TiedAtTop(b, scores, hash, x, y)
    ensures x in KeptChunks(b, scores, hash) && y !in KeptChunks(b, scores, hash)
  {
    var all := All(|b|);
    KeptIffBest(b, scores, hash, x);
    KeptIffBest(b, scores, hash, y);
    hide KeptChunks;
    assert IsBest(b, all, ByHash(hash), scores, 0);
    forall p | 0 <= p < |b| && b[p] == y
      ensures !IsBest(b, all, ByHash(hash), scores, p)
    {
      assert all[0] == 0;
      assert 0 in all;
    }
  }

  /**
    Every arrangement of the candidates leaves the same chunks, if and only if no hash class
    attains its top score twice.
   */
  lemma ArrivalDecidesIff(a: seq<Chunk>, scores: Scores, hash: string -> string)
    requires DistinctIds(a)
    ensures (forall b {:trigger multiset(b)} :: multiset(b) == multiset(a) ==> KeepAlike(a, b, scores, hash))
       <==> NoTopTies(a, scores, hash)
  {
    hide KeptChunks, KeepAlike, DistinctIds, TiedAtTop;
    if NoTopTies(a, scores, hash) {
      forall b {:trigger multiset(b)} | multiset(b) == multiset(a)
        ensures KeepAlike(a, b, scores, hash)
      {
        UntiedKeepAlike(a, b, scores, hash);
      }
    } else {
      var x, y :| TiedAtTop(a, scores, hash, x, y);
      TieDiffers(a, scores, hash, x, y);
    }
  }

  lemma TieDiffers(a: seq<Chunk>, scores: Scores, hash: string -> string, x: Chunk, y: Chunk)
    requires DistinctIds(a) && TiedAtTop(a, scores, hash, x, y)
    ensures exists b {:trigger multiset(b)} :: multiset(b) == multiset(a) && !KeepAlike(a, b, scores, hash)
  {
    var b := MoveToFront(a, x);
    var c := MoveToFront(a, y);
    SameMembers(a, b);
    SameMembers(a, c);
    RearrangedIsDistinct(a, b);
    RearrangedIsDistinct(a, c);
    hide KeptChunks, DistinctIds;
    FirstStays(b, scores, hash, x, y);
    FirstStays(c, scores, hash, y, x);
    assert x in multiset(KeptChunks(b, scores, hash)) && x !in multiset(KeptChunks(c, scores, hash));
    assert !KeepAlike(a, b, scores, hash) || !KeepAlike(a, c, scores, hash);
  }
}
