/**
  The post-retrieval pipeline of rag/pipeline/pipeline.py: authorization, reranking,
  deduplication, selection and context assembly in a row, and what holds across the stages.
 */
module PostRetrieval {
  import opened Prelude
  import opened Strings
  import opened Types
  import opened PipelineErrors
  import opened Ordering
  import opened Context
  import opened Selector
  import opened Reranker
  import Deduplicator

  // ----- Authorization (rag/pipeline/validation.py)

  datatype Authorization = Authorization(companyId: Id, departmentIds: set<Id>) {
    predicate Allows(chunk: Chunk) {
      chunk.companyId == companyId && chunk.departmentId in departmentIds
    }
  }

  function Allowed(authz: Authorization): Chunk -> bool {
    (chunk: Chunk) => authz.Allows(chunk)
  }

  function Refused(authz: Authorization): Chunk -> bool {
    (chunk: Chunk) => !authz.Allows(chunk)
  }

  function Validate(candidates: seq<Chunk>, authz: Authorization, strict: bool): Result<(seq<Chunk>, seq<Id>), Error> {
    var blocked := Filter(candidates, Refused(authz));
    if blocked != [] && strict then Err(UnauthorizedChunk)
    else Ok((Filter(candidates, Allowed(authz)), ChunkIds(blocked)))
  }

  lemma NothingFiltered(authz: Authorization)
    ensures Filter([], Allowed(authz)) == [] && Filter([], Refused(authz)) == [] && ChunkIds([]) == []
  {
  }

  lemma ChunkIdsSnoc(a: seq<Chunk>, c: Chunk)
    ensures ChunkIds(a + [c]) == ChunkIds(a) + [c.chunkId] && ChunkIds(a + []) == ChunkIds(a)
  {
    assert a + [] == a;
  }

  method ValidateCandidates(candidates: seq<Chunk>, authz: Authorization, strict: bool)
    returns (r: Result<(seq<Chunk>, seq<Id>), Error>)
    ensures r == Validate(candidates, authz, strict)
  {
    var authorized: seq<Chunk>, blocked: seq<Id> := [], [];
    hide Filter, ChunkIds;
    NothingFiltered(authz);
    for i := 0 to |candidates|
      invariant authorized == Filter(candidates[..i], Allowed(authz))
      invariant blocked == ChunkIds(Filter(candidates[..i], Refused(authz)))
    {
      FilterSnoc(candidates[..i], candidates[i], Allowed(authz));
      FilterSnoc(candidates[..i], candidates[i], Refused(authz));
      ChunkIdsSnoc(Filter(candidates[..i], Refused(authz)), candidates[i]);
      assert candidates[..i + 1] == candidates[..i] + [candidates[i]];
      if authz.Allows(candidates[i]) {
        authorized := authorized + [candidates[i]];
      } else {
        blocked := blocked + [candidates[i].chunkId];
      }
    }
    assert candidates[..|candidates|] == candidates;
    assert |blocked| == |Filter(candidates, Refused(authz))|;
    if blocked != [] && strict {
      return Err(UnauthorizedChunk);
    }
    return Ok((authorized, blocked));
  }

  /**
    A candidate is kept if it belongs to the company and one of the allowed departments, and
    its id is reported as blocked otherwise, both in order; in strict mode one blocked
    candidate is enough to refuse the request.
   */
  lemma ValidationIsByCompanyAndDepartment(candidates: seq<Chunk>, authz: Authorization, strict: bool)
    ensures var r := Validate(candidates, authz, strict);
            var allowed := (c: Chunk) => c.companyId == authz.companyId && c.departmentId in authz.departmentIds;
            && (r == Err(UnauthorizedChunk) <==> strict && exists c :: c in candidates && !allowed(c))
            && (r.Ok? <==> r != Err(UnauthorizedChunk))
            && (r.Ok? ==>
                  && r.value.0 == Filter(candidates, allowed)
                  && r.value.1 == ChunkIds(Filter(candidates, (c: Chunk) => !allowed(c))))
  {
    var allowed := (c: Chunk) => c.companyId == authz.companyId && c.departmentId in authz.departmentIds;
    FilterAgrees(candidates, Allowed(authz), allowed);
    FilterAgrees(candidates, Refused(authz), (c: Chunk) => !allowed(c));
    var blocked := Filter(candidates, Refused(authz));
    hide Filter, ChunkIds;
    if blocked != [] {
      assert blocked[0] in blocked;
    }
  }

  // ----- Options

  const MAX_TOP_K := 50
  const MAX_CONTEXT_TOKENS := 32768

  datatype Options = Options(rerank: bool, topK: int, maxContextTokens: int, dedupeByContentHash: bool,
                             minRerankScore: Option<real>, contextFormat: string)
  {
    predicate Valid() {
      && 0 < topK <= MAX_TOP_K && 0 < maxContextTokens <= MAX_CONTEXT_TOKENS
      && contextFormat == DELIMITED_V1
    }
  }

  /** What the pipeline object is configured with; the text measures are parameters. */
  datatype Config = Config(maxCandidates: int, strict: bool, reranker: Backend, count: Counter, hash: string -> string)

  // ----- The stages

  datatype Reranked = Reranked(ordered: seq<Chunk>, scores: Scores, windowSize: nat, belowMinimum: seq<Chunk>)

  /** `_rerank`; `belowMinimum` are the chunks its last filter leaves out. */
  function Rerank(query: string, candidates: seq<Chunk>, opts: Options, config: Config): Result<Reranked, Error> {
    if !opts.rerank || candidates == [] then Ok(Reranked(candidates, map[], 0, []))
    else
      var (window, remainder) := SelectRerankWindow(candidates, config.maxCandidates);
      var result := config.reranker(query, window);
      if !KeepsContract(window, result) then Err(RerankContractViolation)
      else
        var scores := MergeRerankScores(result.scores, remainder);
        var ordered := result.candidates + remainder;
        match opts.minRerankScore
        case None => Ok(Reranked(ordered, scores, |window|, []))
        case Some(min) =>
          Ok(Reranked(Filter(ordered, (c: Chunk) => EffectiveScore(c, scores) >= min), scores, |window|,
                      Filter(ordered, (c: Chunk) => !(EffectiveScore(c, scores) >= min))))
  }

  datatype Metadata = Metadata(deduplicatedCount: nat, topKSelected: nat, droppedDuplicateCount: nat,
                               droppedTokenBudgetCount: nat, blockedChunkCount: nat, rerankedCandidateCount: nat)

  datatype RagResult = RagResult(selected: seq<Chunk>, provenance: seq<ProvenanceRecord>,
                                 context: AssembledContext, metadata: Metadata)

  /** What the stages produced on the way to a result. */
  datatype Stages = Stages(authorized: seq<Chunk>, blocked: seq<Id>, reranked: Reranked,
                           deduped: Deduplicator.Deduplicated, selection: Selection)

  function RunStages(query: string, authz: Authorization, candidates: seq<Chunk>, opts: Options, config: Config)
    : Result<Stages, Error>
  {
    match Validate(candidates, authz, config.strict)
    case Err(e) => Err(e)
    case Ok((authorized, blocked)) =>
      match Rerank(query, authorized, opts, config)
      case Err(e) => Err(e)
      case Ok(reranked) =>
        var deduped := Deduplicator.Deduplicate(reranked.ordered, true, opts.dedupeByContentHash, reranked.scores,
                                                config.hash);
        match Select(deduped.chunks, opts.topK, opts.maxContextTokens, config.count, reranked.scores)
        case Err(e) => Err(e)
        case Ok(selection) => Ok(Stages(authorized, blocked, reranked, deduped, selection))
  }

  function Summary(stages: Stages): Metadata {
    Metadata(|stages.deduped.chunks|, |stages.selection.selected|,
             |stages.deduped.removedDuplicateIds| + |stages.deduped.removedNearDuplicateIds|,
             |stages.selection.droppedForTokenBudget|, |stages.blocked|, stages.reranked.windowSize)
  }

  /** Assembles the result from what the stages produced. */
  function Finish(stages: Result<Stages, Error>, opts: Options, config: Config): Result<RagResult, Error> {
    match stages
    case Err(e) => Err(e)
    case Ok(s) =>
      match Build(s.selection.selected, config.count, opts.maxContextTokens, opts.contextFormat)
      case Err(e) => Err(e)
      case Ok(context) =>
        Ok(RagResult(s.selection.selected, BuildProvenance(s.selection.selected, s.reranked.scores), context,
                     Summary(s)))
  }

  function Process(query: string, authz: Authorization, candidates: seq<Chunk>, opts: Options, config: Config)
    : Result<RagResult, Error>
  {
    if !opts.Valid() then Err(PipelineValidation)
    else Finish(RunStages(query, authz, candidates, opts, config), opts, config)
  }

  method RerankCandidates(query: string, candidates: seq<Chunk>, opts: Options, config: Config)
    returns (r: Result<Reranked, Error>)
    ensures r == Rerank(query, candidates, opts, config)
  {
    if !opts.rerank || candidates == [] {
      return Ok(Reranked(candidates, map[], 0, []));
    }
    var (window, remainder) := SelectRerankWindow(candidates, config.maxCandidates);
    var result := config.reranker(query, window);
    if !KeepsContract(window, result) {
      return Err(RerankContractViolation);
    }
    var scores := MergeScores(result.scores, remainder);
    var ordered := result.candidates + remainder;
    match opts.minRerankScore
    case None => return Ok(Reranked(ordered, scores, |window|, []));
    case Some(min) =>
      return Ok(Reranked(Filter(ordered, (c: Chunk) => EffectiveScore(c, scores) >= min), scores, |window|,
                         Filter(ordered, (c: Chunk) => !(EffectiveScore(c, scores) >= min))));
  }

  method ProcessCandidates(query: string, authz: Authorization, candidates: seq<Chunk>, opts: Options, config: Config)
    returns (r: Result<RagResult, Error>)
    ensures r == Process(query, authz, candidates, opts, config)
  {
    if !opts.Valid() {
      return Err(PipelineValidation);
    }
    var validated := ValidateCandidates(candidates, authz, config.strict);
    if validated.Err? {
      return Err(validated.error);
    }
    var (authorized, blocked) := validated.value;
    var reranked := RerankCandidates(query, authorized, opts, config);
    if reranked.Err? {
      return Err(reranked.error);
    }
    var scores := reranked.value.scores;
    var deduped := Deduplicator.DeduplicateChunks(reranked.value.ordered, true, opts.dedupeByContentHash, scores,
                                                  config.hash);
    var selection := SelectChunks(deduped.chunks, opts.topK, opts.maxContextTokens, config.count, scores);
    var selected := selection.value.selected;
    var context := Build(selected, config.count, opts.maxContextTokens, opts.contextFormat);
    if context.Err? {
      return Err(context.error);
    }
    return Ok(RagResult(selected, BuildProvenance(selected, scores), context.value,
                        Summary(Stages(authorized, blocked, reranked.value, deduped, selection.value))));
  }

  // ----- Main result 1: every candidate is accounted for

  lemma {:induction false} ValidateSplits(candidates: seq<Chunk>, authz: Authorization)
    ensures multiset(ChunkIds(candidates))
         == multiset(ChunkIds(Filter(candidates, Allowed(authz))))
            + multiset(ChunkIds(Filter(candidates, Refused(authz))))
  {
    FilterSplitsIds(candidates, Allowed(authz), Refused(authz));
  }

  lemma {:induction false} FilterSplitsIds(s: seq<Chunk>, p: Chunk -> bool, q: Chunk -> bool)
    requires forall c :: q(c) == !p(c)
    ensures multiset(ChunkIds(s)) == multiset(ChunkIds(Filter(s, p))) + multiset(ChunkIds(Filter(s, q)))
  {
    if s != [] {
      var h, rest := s[0], s[1..];
      assert s == [h] + rest && (q(h) <==> !p(h));
      hide *;
      FilterSplitsIds(rest, p, q);
      FilterCons(s, p);
      FilterCons(s, q);
      ChunkIdsConcat([h], rest);
      ChunkIdsConcat([h], if p(h) then Filter(rest, p) else Filter(rest, q));
      SplitCons(ChunkIds([h]), ChunkIds(rest), ChunkIds(Filter(rest, p)), ChunkIds(Filter(rest, q)));
    }
  }

  lemma SplitCons<T>(h: seq<T>, r: seq<T>, a: seq<T>, b: seq<T>)
    requires multiset(r) == multiset(a) + multiset(b)
    ensures multiset(h + r) == multiset(h + a) + multiset(b) == multiset(a) + multiset(h + b)
  {
  }

  lemma ChunkIdsConcat(a: seq<Chunk>, b: seq<Chunk>)
    ensures ChunkIds(a + b) == ChunkIds(a) + ChunkIds(b)
  {
  }

  lemma RerankSplits(query: string, candidates: seq<Chunk>, opts: Options, config: Config)
    ensures var r := Rerank(query, candidates, opts, config);
            r.Ok? ==>
              multiset(ChunkIds(candidates))
              == multiset(ChunkIds(r.value.ordered)) + multiset(ChunkIds(r.value.belowMinimum))
  {
    var r := Rerank(query, candidates, opts, config);
    if r.Ok? && opts.rerank && candidates != [] {
      var (window, remainder) := SelectRerankWindow(candidates, config.maxCandidates);
      var result := config.reranker(query, window);
      var ordered := result.candidates + remainder;
      var sorted := Sort(candidates, RetrievalKey());
      SortKeepsIds(candidates, RetrievalKey());
      assert sorted == window + remainder;
      ChunkIdsConcat(window, remainder);
      ChunkIdsConcat(result.candidates, remainder);
      if opts.minRerankScore.Some? {
        var scores, min := r.value.scores, opts.minRerankScore.value;
        FilterSplitsIds(ordered, (c: Chunk) => EffectiveScore(c, scores) >= min,
                        (c: Chunk) => !(EffectiveScore(c, scores) >= min));
      }
    }
  }

  lemma SelectSplits(candidates: seq<Chunk>, topK: int, budget: int, count: Counter, scores: Scores)
    ensures var r := Select(candidates, topK, budget, count, scores);
            r.Ok? ==>
              multiset(ChunkIds(candidates))
              == multiset(r.value.droppedForTopK) + multiset(r.value.droppedForTokenBudget)
                 + multiset(ChunkIds(r.value.selected))
  {
    if topK > 0 && budget > 0 {
      var ordered := Sort(candidates, FinalKey(scores));
      var head := Prefix(ordered, topK);
      var n := Taken(head, 0, count, budget);
      SortKeepsIds(candidates, FinalKey(scores));
      assert head == ordered[..|head|];
      assert Select(candidates, topK, budget, count, scores)
          == Ok(Selection(head[..n], ChunkIds(ordered[|head|..]), ChunkIds(head[n..])));
      hide *;
      CutInThree(ordered, |head|, n);
    }
  }

  lemma CutInThree(s: seq<Chunk>, m: nat, n: nat)
    requires n <= m <= |s|
    ensures multiset(ChunkIds(s))
            == multiset(ChunkIds(s[m..])) + multiset(ChunkIds(s[..m][n..])) + multiset(ChunkIds(s[..m][..n]))
  {
    hide ChunkIds;
    assert s == s[..m] + s[m..] && s[..m] == s[..m][..n] + s[..m][n..];
    ChunkIdsConcat(s[..m], s[m..]);
    ChunkIdsConcat(s[..m][..n], s[..m][n..]);
  }

  /** The ids that are selected or show up in one of the removals, as often as they do. */
  function ReportedIds(s: Stages): multiset<Id> {
    multiset(s.blocked) + multiset(s.deduped.removedDuplicateIds) + multiset(s.deduped.removedNearDuplicateIds)
    + multiset(s.selection.droppedForTopK) + multiset(s.selection.droppedForTokenBudget)
    + multiset(ChunkIds(s.selection.selected))
  }

  /** These are the ids of the input, each as often as it occurs there. */
  predicate Accounted(candidates: seq<Chunk>, s: Stages) {
    multiset(ChunkIds(candidates)) == ReportedIds(s)
  }

  /** The reranker's answer for the authorized candidates, followed by those it was not shown. */
  function RerankOutput(query: string, authorized: seq<Chunk>, config: Config): (seq<Chunk>, Scores) {
    var (window, remainder) := SelectRerankWindow(authorized, config.maxCandidates);
    var result := config.reranker(query, window);
    (result.candidates + remainder, MergeRerankScores(result.scores, remainder))
  }

  /** A minimum rerank score is in force, and some chunk misses it. */
  ghost predicate SomeBelowMinimum(query: string, authorized: seq<Chunk>, opts: Options, config: Config) {
    && opts.rerank && authorized != [] && opts.minRerankScore.Some?
    && var (ordered, scores) := RerankOutput(query, authorized, config);
    exists c :: && c in ordered
                && (if c.chunkId in scores then scores[c.chunkId] else c.score) < opts.minRerankScore.value
  }

  lemma BelowMinimumIff(query: string, authorized: seq<Chunk>, opts: Options, config: Config)
    requires Rerank(query, authorized, opts, config).Ok?
    ensures Rerank(query, authorized, opts, config).value.belowMinimum != []
            <==> SomeBelowMinimum(query, authorized, opts, config)
  {
    var below := Rerank(query, authorized, opts, config).value.belowMinimum;
    hide SelectRerankWindow, MergeRerankScores, KeepsContract;
    if opts.rerank && authorized != [] && opts.minRerankScore.Some? {
      var (ordered, scores) := RerankOutput(query, authorized, config);
      var min := opts.minRerankScore.value;
      assert below == Filter(ordered, (c: Chunk) => !(EffectiveScore(c, scores) >= min));
      if below != [] {
        assert below[0] in below;
      }
      if c :| c in ordered && EffectiveScore(c, scores) < min {
        assert c in below;
      }
    }
  }

  /**
    Whatever the reranker, if a result is produced every candidate is accounted for exactly
    when no chunk misses a minimum rerank score, in particular when none is configured.
   */
  lemma EveryCandidateIsAccountedFor(query: string, authz: Authorization, candidates: seq<Chunk>, opts: Options,
                                     config: Config)
    ensures var r := RunStages(query, authz, candidates, opts, config);
            var below := SomeBelowMinimum(query, Filter(candidates, Allowed(authz)), opts, config);
            r.Ok? ==>
              && (Accounted(candidates, r.value) <==> !below)
              && (r.value.reranked.belowMinimum == [] <==> !below)
  {
    var r := RunStages(query, authz, candidates, opts, config);
    if r.Ok? {
      StagesSplit(query, authz, candidates, opts, config);
      BelowMinimumIff(query, r.value.authorized, opts, config);
      var below := ChunkIds(r.value.reranked.belowMinimum);
      assert r.value.authorized == Filter(candidates, Allowed(authz));
      hide RunStages, ChunkIds, Rerank, Filter, SomeBelowMinimum, ReportedIds;
      AddIsNeutral(multiset(ChunkIds(candidates)), ReportedIds(r.value), multiset(below));
      assert |multiset(below)| == |below| == |r.value.reranked.belowMinimum|;
    }
  }

  /** One candidate, the reranker that changes nothing, and a minimum above its score: it vanishes unreported. */
  lemma DroppedUnreported(query: string, authz: Authorization, x: Chunk, opts: Options, config: Config)
    requires opts.Valid() && opts.rerank && opts.minRerankScore == Some(x.score + 1.0)
    requires authz.Allows(x) && config.reranker(query, [x]) == NoOpReranker()(query, [x])
    ensures var r := RunStages(query, authz, [x], opts, config); r.Ok? && !Accounted([x], r.value)
  {
    OnlyOne(authz, x);
    assert Sort([x], RetrievalKey()) == [x] by {
      assert [x][1..] == [];
    }
    assert SelectRerankWindow([x], config.maxCandidates) == ([x], []);
    var (ordered, scores) := RerankOutput(query, [x], config);
    assert ordered == [x] && scores == map[];
    assert x in ordered && EffectiveScore(x, scores) < opts.minRerankScore.value;
    EveryCandidateIsAccountedFor(query, authz, [x], opts, config);
    hide Deduplicator.Deduplicate, Sort, Filter, Prefix, Taken;
  }

  lemma OnlyOne(authz: Authorization, x: Chunk)
    requires authz.Allows(x)
    ensures Filter([x], Allowed(authz)) == [x] && Filter([x], Refused(authz)) == []
  {
    assert [x][1..] == [];
  }

  lemma AddIsNeutral(all: multiset<Id>, part: multiset<Id>, rest: multiset<Id>)
    requires all == part + rest
    ensures all == part <==> rest == multiset{}
    ensures |all| == |part| + |rest|
    ensures rest == multiset{} <==> |rest| == 0
  {
    if all == part {
      assert forall id :: rest[id] == 0;
    }
  }

  /** What each stage hands on to the next, by ids. */
  ghost predicate Connected(s: Stages) {
    && multiset(ChunkIds(s.authorized))
       == multiset(ChunkIds(s.reranked.ordered)) + multiset(ChunkIds(s.reranked.belowMinimum))
    && multiset(ChunkIds(s.reranked.ordered))
       == multiset(ChunkIds(s.deduped.chunks)) + multiset(s.deduped.removedDuplicateIds)
          + multiset(s.deduped.removedNearDuplicateIds)
    && multiset(ChunkIds(s.deduped.chunks))
       == multiset(s.selection.droppedForTopK) + multiset(s.selection.droppedForTokenBudget)
          + multiset(ChunkIds(s.selection.selected))
  }

  lemma StagesConnect(query: string, authz: Authorization, candidates: seq<Chunk>, opts: Options, config: Config)
    requires RunStages(query, authz, candidates, opts, config).Ok?
    ensures var s := RunStages(query, authz, candidates, opts, config).value;
            && s.authorized == Filter(candidates, Allowed(authz))
            && s.blocked == ChunkIds(Filter(candidates, Refused(authz))) && Connected(s)
  {
    var s := RunStages(query, authz, candidates, opts, config).value;
    hide Rerank, Select, Deduplicator.Deduplicate, Filter;
    RerankSplits(query, s.authorized, opts, config);
    Deduplicator.EveryCandidateIsReported(s.reranked.ordered, true, opts.dedupeByContentHash, s.reranked.scores,
                                          config.hash);
    SelectSplits(s.deduped.chunks, opts.topK, opts.maxContextTokens, config.count, s.reranked.scores);
    hide RunStages, ChunkIds;
  }

  lemma StagesSplit(query: string, authz: Authorization, candidates: seq<Chunk>, opts: Options, config: Config)
    requires RunStages(query, authz, candidates, opts, config).Ok?
    ensures var s := RunStages(query, authz, candidates, opts, config).value;
            multiset(ChunkIds(candidates)) == ReportedIds(s) + multiset(ChunkIds(s.reranked.belowMinimum))
  {
    ValidateSplits(candidates, authz);
    StagesConnect(query, authz, candidates, opts, config);
    hide *;
    GatherReported(RunStages(query, authz, candidates, opts, config).value, multiset(ChunkIds(candidates)));
  }

  lemma GatherReported(s: Stages, all: multiset<Id>)
    requires all == multiset(ChunkIds(s.authorized)) + multiset(s.blocked) && Connected(s)
    ensures all == ReportedIds(s) + multiset(ChunkIds(s.reranked.belowMinimum))
  {
    hide ChunkIds;
  }

  /** The reported counts add up to the number of candidates, up to those below the minimum. */
  lemma CountsAddUp(query: string, authz: Authorization, candidates: seq<Chunk>, opts: Options, config: Config)
    ensures var r, stages := Process(query, authz, candidates, opts, config),
            RunStages(query, authz, candidates, opts, config);
            r.Ok? ==>
              && stages.Ok?
              && var m := r.value.metadata;
              && var kept := |candidates| - m.blockedChunkCount;
              && var outside := (c: Chunk) => c.companyId != authz.companyId || c.departmentId !in authz.departmentIds;
              && m.blockedChunkCount == |Places(candidates, outside)|
              && m.rerankedCandidateCount
                 == (if !opts.rerank then 0 else if 0 < config.maxCandidates < kept then config.maxCandidates else kept)
              && |candidates| == m.blockedChunkCount + m.droppedDuplicateCount + m.deduplicatedCount
                                 + |stages.value.reranked.belowMinimum|
              && m.topKSelected + m.droppedTokenBudgetCount
              == (if m.deduplicatedCount <= opts.topK then m.deduplicatedCount else opts.topK)
              && m.topKSelected == |r.value.selected| == |r.value.provenance| == r.value.context.blockCount
  {
    if Process(query, authz, candidates, opts, config).Ok? {
      var s := RunStages(query, authz, candidates, opts, config).value;
      StagesAddUp(query, authz, candidates, opts, config);
      RerankedCount(query, authz, candidates, opts, config);
      SelectionSize(s.deduped.chunks, opts.topK, opts.maxContextTokens, config.count, s.reranked.scores);
      hide RunStages, Select;
    }
  }

  lemma RerankedCount(query: string, authz: Authorization, candidates: seq<Chunk>, opts: Options, config: Config)
    requires RunStages(query, authz, candidates, opts, config).Ok?
    ensures var s := RunStages(query, authz, candidates, opts, config).value;
            var kept := |candidates| - |s.blocked|;
            var outside := (c: Chunk) => c.companyId != authz.companyId || c.departmentId !in authz.departmentIds;
            && |s.blocked| == |Places(candidates, outside)|
            && s.reranked.windowSize
               == if !opts.rerank then 0 else if 0 < config.maxCandidates < kept then config.maxCandidates else kept
  {
    hide *;
    BlockedCount(query, authz, candidates, opts, config);
    WindowCount(query, authz, candidates, opts, config);
  }

  lemma BlockedCount(query: string, authz: Authorization, candidates: seq<Chunk>, opts: Options, config: Config)
    requires RunStages(query, authz, candidates, opts, config).Ok?
    ensures var s := RunStages(query, authz, candidates, opts, config).value;
            var outside := (c: Chunk) => c.companyId != authz.companyId || c.departmentId !in authz.departmentIds;
            && |s.blocked| == |Places(candidates, outside)| && |s.authorized| == |candidates| - |s.blocked|
  {
    var outside := (c: Chunk) => c.companyId != authz.companyId || c.departmentId !in authz.departmentIds;
    FilterAgrees(candidates, Refused(authz), outside);
    FilterSize(candidates, outside);
    StagesConnect(query, authz, candidates, opts, config);
    hide RunStages, Filter, Places;
    var s := RunStages(query, authz, candidates, opts, config).value;
    ValidateSplits(candidates, authz);
    SizesAddUp(multiset(ChunkIds(candidates)), multiset(ChunkIds(s.authorized)), multiset(s.blocked));
    assert |candidates| == |multiset(ChunkIds(candidates))| && |s.authorized| == |multiset(ChunkIds(s.authorized))|;
  }

  lemma WindowCount(query: string, authz: Authorization, candidates: seq<Chunk>, opts: Options, config: Config)
    requires RunStages(query, authz, candidates, opts, config).Ok?
    ensures var s := RunStages(query, authz, candidates, opts, config).value;
            var kept := |s.authorized|;
            s.reranked.windowSize
            == if !opts.rerank then 0 else if 0 < config.maxCandidates < kept then config.maxCandidates else kept
  {
    var s := RunStages(query, authz, candidates, opts, config).value;
    hide Filter, Deduplicator.Deduplicate, Select, SelectRerankWindow, KeepsContract;
    WindowHoldsTheBest(s.authorized, config.maxCandidates);
    hide Validate;
  }

  lemma SelectionSize(candidates: seq<Chunk>, topK: int, budget: int, count: Counter, scores: Scores)
    requires topK > 0 && budget > 0
    ensures var r := Select(candidates, topK, budget, count, scores);
            r.Ok? && |r.value.selected| + |r.value.droppedForTokenBudget|
              == if |candidates| <= topK then |candidates| else topK
  {
    SortSorts(candidates, FinalKey(scores));
  }

  lemma StagesAddUp(query: string, authz: Authorization, candidates: seq<Chunk>, opts: Options, config: Config)
    requires RunStages(query, authz, candidates, opts, config).Ok?
    ensures var s := RunStages(query, authz, candidates, opts, config).value;
            |candidates| == |s.blocked| + |s.deduped.removedDuplicateIds| + |s.deduped.removedNearDuplicateIds|
                            + |s.deduped.chunks| + |s.reranked.belowMinimum|
  {
    ValidateSplits(candidates, authz);
    StagesConnect(query, authz, candidates, opts, config);
    hide *;
    var s := RunStages(query, authz, candidates, opts, config).value;
    SizesAddUp(multiset(ChunkIds(candidates)), multiset(ChunkIds(s.authorized)), multiset(s.blocked));
    ConnectedSizes(s);
    assert |multiset(ChunkIds(candidates))| == |candidates| && |multiset(ChunkIds(s.authorized))| == |s.authorized|;
  }

  lemma ConnectedSizes(s: Stages)
    requires Connected(s)
    ensures |s.authorized| == |s.deduped.removedDuplicateIds| + |s.deduped.removedNearDuplicateIds|
                              + |s.deduped.chunks| + |s.reranked.belowMinimum|
  {
    SizesAddUp(multiset(ChunkIds(s.authorized)), multiset(ChunkIds(s.reranked.ordered)),
               multiset(ChunkIds(s.reranked.belowMinimum)));
    SizesAddUp(multiset(ChunkIds(s.reranked.ordered)),
               multiset(ChunkIds(s.deduped.chunks)) + multiset(s.deduped.removedDuplicateIds),
               multiset(s.deduped.removedNearDuplicateIds));
    hide Connected;
  }

  lemma SizesAddUp(all: multiset<Id>, part: multiset<Id>, rest: multiset<Id>)
    requires all == part + rest
    ensures |all| == |part| + |rest|
  {
  }

  // ----- Main result 2: with reranking on, the order of arrival does not matter

  lemma FilterKeepsDistinct(s: seq<Chunk>, p: Chunk -> bool)
    requires DistinctIds(s)
    ensures DistinctIds(Filter(s, p))
  {
    if s != [] {
      FilterKeepsDistinct(s[1..], p);
      var rest := Filter(s[1..], p);
      forall j | 0 <= j < |rest|
        ensures rest[j].chunkId != s[0].chunkId
      {
        assert rest[j] in rest;
        var k :| 0 <= k < |s[1..]| && s[1..][k] == rest[j];
        assert s[k + 1] == rest[j];
      }
    }
  }

  /**
    For any deterministic reranker and distinct chunk ids, two arrangements of the same
    candidates lead to the same selection, provenance and context, or both to an error.
   */
  lemma ArrivalOrderIsIrrelevant(query: string, authz: Authorization, a: seq<Chunk>, b: seq<Chunk>, opts: Options,
                                 config: Config)
    requires opts.rerank && multiset(a) == multiset(b) && DistinctIds(a)
    ensures Process(query, authz, a, opts, config) == Process(query, authz, b, opts, config)
  {
    hide RunStages, Finish, Alike;
    StagesAreCanonical(query, authz, a, b, opts, config);
    AlikeFinish(RunStages(query, authz, a, opts, config), RunStages(query, authz, b, opts, config), opts, config);
  }

  lemma AlikeFinish(r: Result<Stages, Error>, t: Result<Stages, Error>, opts: Options, config: Config)
    requires Alike(r, t)
    ensures Finish(r, opts, config) == Finish(t, opts, config)
  {
    hide Build, BuildProvenance;
  }

  /** Stages that lead to the same result: they may differ in the order of the removed ids and of the survivors. */
  predicate Alike(r: Result<Stages, Error>, t: Result<Stages, Error>) {
    match (r, t)
    case (Ok(x), Ok(y)) =>
      && x.selection == y.selection && |x.blocked| == |y.blocked|
      && x.reranked.scores == y.reranked.scores && x.reranked.windowSize == y.reranked.windowSize
      && |x.deduped.chunks| == |y.deduped.chunks|
      && |x.deduped.removedDuplicateIds| + |x.deduped.removedNearDuplicateIds|
      == |y.deduped.removedDuplicateIds| + |y.deduped.removedNearDuplicateIds|
    case (Err(e), Err(f)) => e == f
    case _ => false
  }

  lemma StagesAreCanonical(query: string, authz: Authorization, a: seq<Chunk>, b: seq<Chunk>, opts: Options,
                           config: Config)
    requires opts.rerank && multiset(a) == multiset(b) && DistinctIds(a)
    ensures Alike(RunStages(query, authz, a, opts, config), RunStages(query, authz, b, opts, config))
  {
    hide Rerank, Filter, Deduplicator.Deduplicate, Select, DistinctIds;
    ValidationIsCanonical(authz, a, b);
    RerankIsCanonical(query, Filter(a, Allowed(authz)), Filter(b, Allowed(authz)), opts, config);
    assert |ChunkIds(Filter(a, Refused(authz)))| == |ChunkIds(Filter(b, Refused(authz)))|;
  }

  lemma ValidationIsCanonical(authz: Authorization, a: seq<Chunk>, b: seq<Chunk>)
    requires multiset(a) == multiset(b) && DistinctIds(a)
    ensures |Filter(a, Refused(authz))| == |Filter(b, Refused(authz))|
    ensures var x, y := Filter(a, Allowed(authz)), Filter(b, Allowed(authz));
            multiset(x) == multiset(y) && DistinctIds(x)
  {
    FilterPermutes(a, b, Allowed(authz));
    FilterPermutes(a, b, Refused(authz));
    FilterKeepsDistinct(a, Allowed(authz));
    hide *;
    assert |multiset(Filter(a, Refused(authz)))| == |multiset(Filter(b, Refused(authz)))|;
  }

  lemma RerankIsCanonical(query: string, x: seq<Chunk>, y: seq<Chunk>, opts: Options, config: Config)
    requires opts.rerank && multiset(x) == multiset(y) && DistinctIds(x)
    ensures Rerank(query, x, opts, config) == Rerank(query, y, opts, config)
  {
    assert |multiset(x)| == |multiset(y)|;
    WindowIsCanonical(x, y, config.maxCandidates);
    hide SelectRerankWindow;
  }

  /**
    Without reranking, ties between equal contents are decided by arrival: two candidates with
    the same content hash and score but different ids.
   */
  lemma ArrivalOrderMattersWithoutReranking(x: Chunk, y: Chunk, hash: string -> string)
    requires x.chunkId != y.chunkId && x.score == y.score && hash(x.content) == hash(y.content)
    ensures Deduplicator.Deduplicate([x, y], true, true, map[], hash).chunks == [x]
    ensures Deduplicator.Deduplicate([y, x], true, true, map[], hash).chunks == [y]
  {
    FirstOfTwoSurvives(x, y, hash);
    FirstOfTwoSurvives(y, x, hash);
  }

  /**
    Without reranking too, if the candidates are not deduplicated by hash, or no hash class of
    the authorized ones attains its top score twice.
   */
  lemma ArrivalOrderIsIrrelevantWithoutTies(query: string, authz: Authorization, a: seq<Chunk>, b: seq<Chunk>,
                                            opts: Options, config: Config)
    requires !opts.rerank && multiset(a) == multiset(b) && DistinctIds(a)
    requires opts.dedupeByContentHash ==> Deduplicator.NoTopTies(Filter(a, Allowed(authz)), map[], config.hash)
    ensures Process(query, authz, a, opts, config) == Process(query, authz, b, opts, config)
  {
    hide RunStages, Finish, Alike, Deduplicator.NoTopTies;
    UntiedStagesAlike(query, authz, a, b, opts, config);
    AlikeFinish(RunStages(query, authz, a, opts, config), RunStages(query, authz, b, opts, config), opts, config);
  }

  lemma UntiedStagesAlike(query: string, authz: Authorization, a: seq<Chunk>, b: seq<Chunk>, opts: Options,
                          config: Config)
    requires !opts.rerank && multiset(a) == multiset(b) && DistinctIds(a)
    requires opts.dedupeByContentHash ==> Deduplicator.NoTopTies(Filter(a, Allowed(authz)), map[], config.hash)
    ensures Alike(RunStages(query, authz, a, opts, config), RunStages(query, authz, b, opts, config))
  {
    var x, y := Filter(a, Allowed(authz)), Filter(b, Allowed(authz));
    hide Filter, Deduplicator.Deduplicate, Select, DistinctIds, Deduplicator.NoTopTies;
    ValidationIsCanonical(authz, a, b);
    UntiedDedupeAlike(x, y, opts.dedupeByContentHash, config.hash);
    var d := Deduplicator.Deduplicate(x, true, opts.dedupeByContentHash, map[], config.hash);
    var e := Deduplicator.Deduplicate(y, true, opts.dedupeByContentHash, map[], config.hash);
    SelectionIsCanonical(d.chunks, e.chunks, opts.topK, opts.maxContextTokens, config.count, map[]);
    assert |ChunkIds(Filter(a, Refused(authz)))| == |ChunkIds(Filter(b, Refused(authz)))|;
    hide ChunkIds;
  }

  lemma UntiedDedupeAlike(x: seq<Chunk>, y: seq<Chunk>, byHash: bool, hash: string -> string)
    requires multiset(x) == multiset(y) && DistinctIds(x)
    requires byHash ==> Deduplicator.NoTopTies(x, map[], hash)
    ensures var d, e := Deduplicator.Deduplicate(x, true, byHash, map[], hash),
            Deduplicator.Deduplicate(y, true, byHash, map[], hash);
            && multiset(d.chunks) == multiset(e.chunks) && DistinctIds(d.chunks) && |d.chunks| == |e.chunks|
            && |d.removedDuplicateIds| + |d.removedNearDuplicateIds|
              == |e.removedDuplicateIds| + |e.removedNearDuplicateIds|
  {
    var d, e := Deduplicator.Deduplicate(x, true, byHash, map[], hash),
                Deduplicator.Deduplicate(y, true, byHash, map[], hash);
    Deduplicator.SameMembers(x, y);
    if byHash {
      Deduplicator.UntiedKeepAlike(x, y, map[], hash);
    } else {
      Deduplicator.RearrangedIsDistinct(x, y);
      NothingRemovedById(x, hash);
      NothingRemovedById(y, hash);
    }
    assert multiset(d.chunks) == multiset(e.chunks) && DistinctIds(d.chunks);
    DedupedSize(x, byHash, hash);
    DedupedSize(y, byHash, hash);
    hide *;
    Deduplicator.SameMembers(d.chunks, e.chunks);
  }

  lemma NothingRemovedById(x: seq<Chunk>, hash: string -> string)
    requires DistinctIds(x)
    ensures Deduplicator.Deduplicate(x, true, false, map[], hash).chunks == x
  {
    Deduplicator.AllSurvive(x, Deduplicator.ById(), map[]);
    Deduplicator.SelectAll(x);
    hide Deduplicator.Survivors, Deduplicator.Select, Deduplicator.All;
  }

  lemma DedupedSize(x: seq<Chunk>, byHash: bool, hash: string -> string)
    ensures var d := Deduplicator.Deduplicate(x, true, byHash, map[], hash);
            |x| == |d.chunks| + |d.removedDuplicateIds| + |d.removedNearDuplicateIds|
  {
    hide Deduplicator.Deduplicate;
    var d := Deduplicator.Deduplicate(x, true, byHash, map[], hash);
    Deduplicator.EveryCandidateIsReported(x, true, byHash, map[], hash);
    SizesAddUp(multiset(ChunkIds(x)), multiset(ChunkIds(d.chunks)) + multiset(d.removedDuplicateIds),
               multiset(d.removedNearDuplicateIds));
  }

  lemma SelectionIsCanonical(a: seq<Chunk>, b: seq<Chunk>, topK: int, budget: int, count: Counter, scores: Scores)
    requires multiset(a) == multiset(b) && DistinctIds(a)
    ensures Select(a, topK, budget, count, scores) == Select(b, topK, budget, count, scores)
  {
    assert Separates(FinalKey(scores), a);
    SortIsCanonical(a, b, FinalKey(scores));
    hide Sort;
  }

  /** The context of `x` alone is within the budget. */
  predicate FitsAlone(x: Chunk, opts: Options, config: Config) {
    config.count(ContextText([x])) <= opts.maxContextTokens
  }

  /**
    Two candidates tied at the top of a hash class, and nothing else: the whole result depends
    on which comes first, unless neither fits the budget.
   */
  lemma TiesDecideTheResult(query: string, authz: Authorization, x: Chunk, y: Chunk, opts: Options, config: Config)
    requires opts.Valid() && !opts.rerank && opts.dedupeByContentHash && authz.Allows(x) && authz.Allows(y)
    requires x.chunkId != y.chunkId && x.score == y.score && config.hash(x.content) == config.hash(y.content)
    ensures Process(query, authz, [x, y], opts, config) == Process(query, authz, [y, x], opts, config)
       <==> !FitsAlone(x, opts, config) && !FitsAlone(y, opts, config)
  {
    hide *;
    FirstIsSelected(query, authz, x, y, opts, config);
    FirstIsSelected(query, authz, y, x, opts, config);
    NothingIsSelected(opts, config);
    assert [x][0] == x && [y][0] == y;
  }

  lemma NothingIsSelected(opts: Options, config: Config)
    ensures var r := NothingSelected(opts, config); r.Ok? ==> r.value.selected == []
  {
  }

  lemma FirstIsSelected(query: string, authz: Authorization, x: Chunk, y: Chunk, opts: Options, config: Config)
    requires opts.Valid() && !opts.rerank && opts.dedupeByContentHash && authz.Allows(x) && authz.Allows(y)
    requires x.chunkId != y.chunkId && x.score == y.score && config.hash(x.content) == config.hash(y.content)
    ensures var r := Process(query, authz, [x, y], opts, config);
            if FitsAlone(x, opts, config) then r.Ok? && r.value.selected == [x]
            else r == NothingSelected(opts, config)
  {
    StagesOfTwo(query, authz, x, y, opts, config);
    hide RunStages, Build, BuildProvenance, FitsAlone, Summary;
    if FitsAlone(x, opts, config) {
      BuildOne(x, opts, config);
    }
  }

  lemma StagesOfTwo(query: string, authz: Authorization, x: Chunk, y: Chunk, opts: Options, config: Config)
    requires opts.Valid() && !opts.rerank && opts.dedupeByContentHash && authz.Allows(x) && authz.Allows(y)
    requires x.chunkId != y.chunkId && x.score == y.score && config.hash(x.content) == config.hash(y.content)
    ensures var r := RunStages(query, authz, [x, y], opts, config);
            && r.Ok? && r.value.reranked.scores == map[]
            && (FitsAlone(x, opts, config) ==> r.value.selection.selected == [x])
            && (!FitsAlone(x, opts, config) ==>
                  r.value.selection.selected == [] && Summary(r.value) == Metadata(1, 0, 1, 1, 0, 0))
  {
    BothAllowed(authz, x, y);
    FirstOfTwoSurvives(x, y, config.hash);
    TwoBecomeOne(x, y, config.hash);
    SelectOne(x, opts, config);
    hide Filter, Select, Deduplicator.Deduplicate, FitsAlone;
  }

  lemma BothAllowed(authz: Authorization, x: Chunk, y: Chunk)
    requires authz.Allows(x) && authz.Allows(y)
    ensures Filter([x, y], Allowed(authz)) == [x, y] && Filter([x, y], Refused(authz)) == []
  {
    assert [x, y][1..] == [y];
    FilterCons([x, y], Allowed(authz));
    FilterCons([x, y], Refused(authz));
    OnlyOne(authz, y);
    hide Filter;
  }

  lemma BuildOne(x: Chunk, opts: Options, config: Config)
    requires opts.Valid() && FitsAlone(x, opts, config)
    ensures Build([x], config.count, opts.maxContextTokens, opts.contextFormat).Ok?
  {
  }

  /** The result of two candidates of which one is deduplicated and the other does not fit. */
  function NothingSelected(opts: Options, config: Config): Result<RagResult, Error> {
    match Build([], config.count, opts.maxContextTokens, opts.contextFormat)
    case Err(e) => Err(e)
    case Ok(context) => Ok(RagResult([], BuildProvenance([], map[]), context, Metadata(1, 0, 1, 1, 0, 0)))
  }

  lemma TwoBecomeOne(x: Chunk, y: Chunk, hash: string -> string)
    requires x.chunkId != y.chunkId && x.score == y.score && hash(x.content) == hash(y.content)
    ensures var d := Deduplicator.Deduplicate([x, y], true, true, map[], hash);
            |d.removedDuplicateIds| + |d.removedNearDuplicateIds| == 1
  {
    FirstOfTwoSurvives(x, y, hash);
    DedupedSize([x, y], true, hash);
    hide Deduplicator.Deduplicate;
  }

  lemma SelectOne(x: Chunk, opts: Options, config: Config)
    requires opts.Valid()
    ensures Select([x], opts.topK, opts.maxContextTokens, config.count, map[])
         == Ok(if FitsAlone(x, opts, config) then Selection([x], [], []) else Selection([], [], [x.chunkId]))
  {
    assert Sort([x], FinalKey(map[])) == [x] by {
      assert [x][1..] == [];
    }
    assert [x][..1] == [x] && [x][..0] == [] && [x][1..] == [] && [x][0..] == [x];
    assert ChunkIds([x]) == [x.chunkId] && ChunkIds([]) == [];
    hide Sort, ContextText;
    TakenOne(x, opts.maxContextTokens, config.count);
  }

  lemma TakenOne(x: Chunk, budget: int, count: Counter)
    ensures Taken([x], 0, count, budget) == if count(ContextText([x])) <= budget then 1 else 0
  {
    hide ContextText;
    assert [x][..1] == [x];
    TakenAll([x], count, budget);
  }

  /** `s` is made of some of these candidates. */
  predicate From(s: seq<Chunk>, candidates: seq<Chunk>) {
    |s| <= |candidates| && forall c :: c in s ==> c in candidates
  }

  /** Neither the rank nor the budget can drop any of these candidates, however they are arranged. */
  ghost predicate Roomy(candidates: seq<Chunk>, opts: Options, config: Config) {
    && |candidates| <= opts.topK
    && forall s {:trigger ContextText(s)} ::
         From(s, candidates) ==> config.count(ContextText(s)) <= opts.maxContextTokens
  }

  lemma RoomyForSome(candidates: seq<Chunk>, s: seq<Chunk>, opts: Options, config: Config)
    requires Roomy(candidates, opts, config) && From(s, candidates)
    ensures Roomy(s, opts, config)
  {
    hide ContextText;
  }

  /** No block of these candidates is longer than `m`, at whatever position. */
  predicate BlocksWithin(candidates: seq<Chunk>, m: nat) {
    forall c, i: nat :: c in candidates && i < |candidates| ==> |RenderSourceBlock(c, CitationId(i))| <= m
  }

  /** With the default counter, candidates whose blocks fit the budget together, in the envelope, are roomy. */
  lemma ShortCandidatesAreRoomy(candidates: seq<Chunk>, opts: Options, config: Config, charsPerToken: nat, m: nat)
    requires charsPerToken > 0 && config.count == CharEstimate(charsPerToken)
    requires |candidates| <= opts.topK && opts.maxContextTokens > 0 && BlocksWithin(candidates, m)
    requires |ENVELOPE_OPEN| + 1 + |candidates| * m + |ENVELOPE_CLOSE| <= opts.maxContextTokens * charsPerToken
    ensures Roomy(candidates, opts, config)
  {
    hide ContextText, CharEstimate, BlocksWithin;
    forall s {:trigger ContextText(s)} | From(s, candidates)
      ensures config.count(ContextText(s)) <= opts.maxContextTokens
    {
      ContextWithin(candidates, s, m);
      EstimateWithin(charsPerToken, ContextText(s), opts.maxContextTokens);
    }
  }

  /** For example, two candidates with one character each, under the default counter of 4 characters a token. */
  lemma TwoShortCandidatesAreRoomy(x: Chunk, y: Chunk, opts: Options, config: Config)
    requires opts.topK >= 2 && opts.maxContextTokens >= 100 && config.count == CharEstimate(4)
    requires x == Chunk("x", "d", "company", "department", "a", 1.0, 0, 1) && y == x.(chunkId := "y", index := 1)
    ensures Roomy([x, y], opts, config)
  {
    forall c, i: nat | c in [x, y] && i < 2
      ensures |RenderSourceBlock(c, CitationId(i))| <= 120
    {
      ShortBlock(c, i);
    }
    hide RenderSourceBlock, CharEstimate, Roomy;
    ShortCandidatesAreRoomy([x, y], opts, config, 4, 120);
  }

  lemma ShortBlock(c: Chunk, i: nat)
    requires i < 2 && |c.documentId| == |c.chunkId| == 1 && 0 <= c.index < 2 && c.content == "a"
    ensures |RenderSourceBlock(c, CitationId(i))| <= 120
  {
    hide Decimal, EscapeUntrusted;
    DecimalOfDigit(i + 1);
    DecimalOfDigit(c.index);
    LetterIsNotEscaped();
  }

  lemma LetterIsNotEscaped()
    ensures EscapeUntrusted("a") == "a"
  {
    EscapeIsCharacterwise("a");
    hide EscapeUntrusted;
    assert "a"[1..] == "" && EscapeEach("") == "" && EscapeChar('a') == "a";
    assert EscapeEach("a") == EscapeChar("a"[0]) + EscapeEach("a"[1..]);
  }

  lemma DecimalOfDigit(n: nat)
    requires n < 10
    ensures |Decimal(n)| == 1
  {
  }

  lemma EstimateWithin(charsPerToken: nat, text: string, budget: nat)
    requires charsPerToken > 0 && |text| <= budget * charsPerToken
    ensures CharEstimate(charsPerToken)(text) <= budget
  {
    var q := (|text| + charsPerToken - 1) / charsPerToken;
    MulMonotone(charsPerToken, q, budget + 1);
    assert charsPerToken * q <= |text| + charsPerToken - 1;
    assert charsPerToken * (budget + 1) == budget * charsPerToken + charsPerToken;
  }

  lemma ContextWithin(candidates: seq<Chunk>, s: seq<Chunk>, m: nat)
    requires From(s, candidates) && BlocksWithin(candidates, m)
    ensures |ContextText(s)| <= |ENVELOPE_OPEN| + 1 + |candidates| * m + |ENVELOPE_CLOSE|
  {
    forall i | 0 <= i < |s|
      ensures |Blocks(s)[i]| <= m
    {
      assert s[i] in s;
    }
    hide Blocks, BlocksWithin, From;
    FlattenWithin(Blocks(s), m);
    MulMonotone(m, |candidates|, |s|);
    assert |ENVELOPE_OPEN + "\n"| == |ENVELOPE_OPEN| + 1;
  }

  lemma {:induction false} FlattenWithin(pieces: seq<string>, m: nat)
    requires forall i :: 0 <= i < |pieces| ==> |pieces[i]| <= m
    ensures |Flatten(pieces)| <= |pieces| * m
  {
    if pieces != [] {
      FlattenWithin(pieces[1..], m);
      assert |pieces| * m == m + |pieces[1..]| * m;
    }
  }

  /**
    The exact condition where nothing is trimmed afterwards: without reranking, every
    arrangement of the candidates gives the same result if and only if the request is refused,
    or no hash class of the authorized candidates attains its top score twice.
   */
  lemma ArrivalOrderIsIrrelevantIff(query: string, authz: Authorization, a: seq<Chunk>, opts: Options, config: Config)
    requires opts.Valid() && !opts.rerank && opts.dedupeByContentHash && DistinctIds(a) && Roomy(a, opts, config)
    ensures (forall b {:trigger multiset(b)} :: multiset(b) == multiset(a) ==>
               Process(query, authz, a, opts, config) == Process(query, authz, b, opts, config))
       <==> (config.strict && Filter(a, Refused(authz)) != [])
            || Deduplicator.NoTopTies(Filter(a, Allowed(authz)), map[], config.hash)
  {
    var x := Filter(a, Allowed(authz));
    if config.strict && Filter(a, Refused(authz)) != [] {
      forall b {:trigger multiset(b)} | multiset(b) == multiset(a)
        ensures Process(query, authz, a, opts, config) == Process(query, authz, b, opts, config)
      {
        ValidationIsCanonical(authz, a, b);
      }
    } else if Deduplicator.NoTopTies(x, map[], config.hash) {
      hide *;
      forall b {:trigger multiset(b)} | multiset(b) == multiset(a)
        ensures Process(query, authz, a, opts, config) == Process(query, authz, b, opts, config)
      {
        ArrivalOrderIsIrrelevantWithoutTies(query, authz, a, b, opts, config);
      }
    } else {
      var p, q :| Deduplicator.TiedAtTop(x, map[], config.hash, p, q);
      hide *;
      var b := TieChangesResult(query, authz, a, opts, config, p, q);
    }
  }

  lemma TieChangesResult(query: string, authz: Authorization, a: seq<Chunk>, opts: Options, config: Config, p: Chunk,
                         q: Chunk)
    returns (b: seq<Chunk>)
    requires opts.Valid() && !opts.rerank && opts.dedupeByContentHash && DistinctIds(a) && Roomy(a, opts, config)
    requires !(config.strict && Filter(a, Refused(authz)) != [])
    requires Deduplicator.TiedAtTop(Filter(a, Allowed(authz)), map[], config.hash, p, q)
    ensures multiset(b) == multiset(a)
    ensures Process(query, authz, a, opts, config) != Process(query, authz, b, opts, config)
  {
    var x := Filter(a, Allowed(authz));
    FilterKeepsDistinct(a, Allowed(authz));
    Deduplicator.TieDiffers(x, map[], config.hash, p, q);
    var y: seq<Chunk> :| multiset(y) == multiset(x) && !Deduplicator.KeepAlike(x, y, map[], config.hash);
    b := y + Filter(a, Refused(authz));
    Rearranged(authz, a, y);
    Deduplicator.SameMembers(a, b);
    RoomyForSome(a, b, opts, config);
    NothingTrimmed(query, authz, a, opts, config);
    NothingTrimmed(query, authz, b, opts, config);
    hide *;
    KeepDifferently(x, y, config.hash);
  }

  lemma KeepDifferently(x: seq<Chunk>, y: seq<Chunk>, hash: string -> string)
    requires !Deduplicator.KeepAlike(x, y, map[], hash)
    ensures multiset(Deduplicator.KeptChunks(x, map[], hash)) != multiset(Deduplicator.KeptChunks(y, map[], hash))
  {
  }

  /** Any arrangement of the authorized candidates is that of some arrangement of all. */
  lemma Rearranged(authz: Authorization, a: seq<Chunk>, y: seq<Chunk>)
    requires multiset(y) == multiset(Filter(a, Allowed(authz)))
    ensures var b := y + Filter(a, Refused(authz));
            && multiset(b) == multiset(a) && Filter(b, Allowed(authz)) == y
            && Filter(b, Refused(authz)) == Filter(a, Refused(authz))
  {
    var x, r := Filter(a, Allowed(authz)), Filter(a, Refused(authz));
    Deduplicator.SameMembers(y, x);
    FilterConcat(y, r, Allowed(authz));
    FilterConcat(y, r, Refused(authz));
    FilterIsAll(y, Allowed(authz));
    FilterIsAll(r, Refused(authz));
    FilterIsNone(r, Allowed(authz));
    FilterIsNone(y, Refused(authz));
    assert y + [] == y && [] + r == r;
    forall c
      ensures multiset(y + r)[c] == multiset(a)[c]
    {
      FilterCount(a, Allowed(authz), c);
      FilterCount(a, Refused(authz), c);
    }
  }

  lemma NothingTrimmed(query: string, authz: Authorization, b: seq<Chunk>, opts: Options, config: Config)
    requires opts.Valid() && !opts.rerank && opts.dedupeByContentHash && Roomy(b, opts, config)
    requires !(config.strict && Filter(b, Refused(authz)) != [])
    ensures var r := Process(query, authz, b, opts, config);
            && r.Ok?
            && multiset(r.value.selected)
            == multiset(Deduplicator.KeptChunks(Filter(b, Allowed(authz)), map[], config.hash))
  {
    var kept := Deduplicator.KeptChunks(Filter(b, Allowed(authz)), map[], config.hash);
    KeptIsRoomy(authz, b, opts, config);
    AllSelected(kept, opts, config);
    hide Filter, Select, Deduplicator.Deduplicate, Roomy;
    var r := RunStages(query, authz, b, opts, config);
    assert r.Ok? && r.value.reranked.scores == map[];
    var selected := r.value.selection.selected;
    assert multiset(selected) == multiset(kept);
    hide Build, RunStages;
    assert Build(selected, config.count, opts.maxContextTokens, opts.contextFormat).Ok?;
  }

  lemma KeptIsRoomy(authz: Authorization, b: seq<Chunk>, opts: Options, config: Config)
    requires Roomy(b, opts, config)
    ensures Roomy(Deduplicator.KeptChunks(Filter(b, Allowed(authz)), map[], config.hash), opts, config)
  {
    var x := Filter(b, Allowed(authz));
    FilterIsShorter(b, Allowed(authz));
    DedupedSize(x, true, config.hash);
    DedupedIsInput(x, true, map[], config.hash);
    hide Filter, Deduplicator.Deduplicate, Roomy;
    RoomyForSome(b, Deduplicator.KeptChunks(x, map[], config.hash), opts, config);
  }

  lemma AllSelected(kept: seq<Chunk>, opts: Options, config: Config)
    requires opts.Valid() && Roomy(kept, opts, config)
    ensures var r := Select(kept, opts.topK, opts.maxContextTokens, config.count, map[]);
            && r.Ok? && multiset(r.value.selected) == multiset(kept)
            && Build(r.value.selected, config.count, opts.maxContextTokens, opts.contextFormat).Ok?
  {
    var ordered := Sort(kept, FinalKey(map[]));
    SortSorts(kept, FinalKey(map[]));
    Deduplicator.SameMembers(ordered, kept);
    assert Prefix(ordered, opts.topK) == ordered && ordered[..|ordered|] == ordered;
    RoomyForSome(kept, ordered, opts, config);
    hide Sort, ContextText, Roomy, Taken;
    AllTaken(ordered, opts, config);
  }

  lemma AllTaken(ordered: seq<Chunk>, opts: Options, config: Config)
    requires opts.Valid() && Roomy(ordered, opts, config)
    ensures Taken(ordered, 0, config.count, opts.maxContextTokens) == |ordered|
    ensures Build(ordered, config.count, opts.maxContextTokens, opts.contextFormat).Ok?
  {
    hide ContextText;
    forall k | 0 <= k <= |ordered|
      ensures Fits(ordered, k, config.count, opts.maxContextTokens)
    {
      assert From(ordered[..k], ordered);
    }
    assert From(ordered, ordered);
    TakenFits(ordered, 0, config.count, opts.maxContextTokens);
  }

  lemma FirstOfTwoSurvives(x: Chunk, y: Chunk, hash: string -> string)
    requires x.chunkId != y.chunkId && x.score == y.score && hash(x.content) == hash(y.content)
    ensures Deduplicator.Deduplicate([x, y], true, true, map[], hash).chunks == [x]
  {
    var two := [x, y];
    Deduplicator.AllSurvive(two, Deduplicator.ById(), map[]);
    var all := Deduplicator.All(2);
    assert all == [0, 1];
    var final := Deduplicator.Survivors(two, all, Deduplicator.ByHash(hash), map[]);
    OnlyTheFirst(x, y, hash);
    hide Deduplicator.Survivors, Deduplicator.InRange;
    assert Deduplicator.Select(two, [0]) == [x];
  }

  lemma OnlyTheFirst(x: Chunk, y: Chunk, hash: string -> string)
    requires x.score == y.score && hash(x.content) == hash(y.content)
    ensures Deduplicator.Survivors([x, y], [0, 1], Deduplicator.ByHash(hash), map[]) == [0]
  {
    var final := Deduplicator.Survivors([x, y], [0, 1], Deduplicator.ByHash(hash), map[]);
    Deduplicator.SurvivorsAscend([x, y], [0, 1], Deduplicator.ByHash(hash), map[]);
    assert 0 in final && 1 !in final;
    hide *;
    Deduplicator.AscendingIsUnique(final, [0]);
  }

  // ----- Main result 3: assembly never fails after selection

  /**
    With the default token counter there are three reasons for an error: options out of bounds,
    a strict refusal because some candidate is not of the company and an allowed department,
    and a reranker that does not return as many chunks with the same ids, or scores others.
   */
  lemma ErrorsAreExpected(query: string, authz: Authorization, candidates: seq<Chunk>, opts: Options, config: Config,
                          charsPerToken: nat)
    requires charsPerToken > 0 && config.count == CharEstimate(charsPerToken)
    ensures var r := Process(query, authz, candidates, opts, config);
            var valid := && 0 < opts.topK <= 50 && 0 < opts.maxContextTokens <= 32768
                         && opts.contextFormat == "delimited_v1";
            var allowed := (c: Chunk) => c.companyId == authz.companyId && c.departmentId in authz.departmentIds;
            var authorized := Filter(candidates, allowed);
            var window := SelectRerankWindow(authorized, config.maxCandidates).0;
            var output := config.reranker(query, window);
            var refusal := config.strict && exists c :: c in candidates && !allowed(c);
            && (r == Err(PipelineValidation) <==> !valid)
            && (r == Err(UnauthorizedChunk) <==> valid && refusal)
            && (r == Err(RerankContractViolation) <==>
                  && valid && !refusal && opts.rerank && authorized != []
                  && !(&& |output.candidates| == |window|
                       && multiset(ChunkIds(output.candidates)) == multiset(ChunkIds(window))
                       && forall id :: id in output.scores ==> id in ChunkIds(window)))
  {
    var stages := RunStages(query, authz, candidates, opts, config);
    ValidationIsByCompanyAndDepartment(candidates, authz, config.strict);
    StageErrors(query, authz, candidates, opts, config);
    hide RunStages, Filter, SelectRerankWindow, Validate, Build, BuildProvenance, Summary, Select;
    if opts.Valid() && stages.Ok? {
      var s := stages.value;
      SelectionFits(query, authz, candidates, opts, config, charsPerToken);
    }
  }

  lemma StageErrors(query: string, authz: Authorization, candidates: seq<Chunk>, opts: Options, config: Config)
    ensures var stages := RunStages(query, authz, candidates, opts, config);
            var v := Validate(candidates, authz, config.strict);
            && (v.Err? ==> stages == Err(v.error))
            && (v.Ok? ==>
                  var window := SelectRerankWindow(v.value.0, config.maxCandidates).0;
                  var broken := && opts.rerank && v.value.0 != []
                                && !KeepsContract(window, config.reranker(query, window));
                  && (stages == Err(RerankContractViolation) <==> broken)
                  && (opts.Valid() && !broken ==> stages.Ok?))
  {
    hide Validate, SelectRerankWindow, KeepsContract, Deduplicator.Deduplicate, Sort, Filter, Prefix, Taken;
  }

  lemma SelectionFits(query: string, authz: Authorization, candidates: seq<Chunk>, opts: Options, config: Config,
                      charsPerToken: nat)
    requires charsPerToken > 0 && config.count == CharEstimate(charsPerToken) && opts.Valid()
    requires RunStages(query, authz, candidates, opts, config).Ok?
    ensures var selected := RunStages(query, authz, candidates, opts, config).value.selection.selected;
            Build(selected, config.count, opts.maxContextTokens, opts.contextFormat).Ok?
  {
    var s := RunStages(query, authz, candidates, opts, config).value;
    BuilderAcceptsSelection(s.deduped.chunks, opts.topK, opts.maxContextTokens, config.count, s.reranked.scores);
    DefaultCounterIgnoresEmptyText(charsPerToken);
    hide Build, Select, Rerank, Validate, Deduplicator.Deduplicate;
  }

  /**
    The context of a result can be read back to the selected chunks, in order; its size is that
    of its text and within the budget; and the provenance records describe its blocks, whose
    citations are numbered from one.
   */
  lemma ResultCarriesContext(query: string, authz: Authorization, candidates: seq<Chunk>, opts: Options, config: Config)
    requires var r := Process(query, authz, candidates, opts, config);
             r.Ok? && forall c :: c in r.value.selected ==> IsUuid(c.documentId) && IsUuid(c.chunkId)
    ensures var v := Process(query, authz, candidates, opts, config).value;
            && var parsed := ParseContext(v.context.text);
            && parsed.Some? && |parsed.value| == |v.selected| == |v.provenance| == v.context.blockCount
            && (forall i :: 0 <= i < |v.selected| ==>
                  var c, p := v.selected[i], v.provenance[i];
                  && parsed.value[i] == Parsed(c.documentId, c.chunkId, c.index, c.content)
                  && p.citationId == "src-" + Decimal(i + 1) && p.position == i
                  && p.documentId == c.documentId && p.chunkId == c.chunkId && p.index == c.index
                  && p.retrievalScore == c.score)
            && v.context.tokenCount == config.count(v.context.text) <= opts.maxContextTokens
            && v.context.format == "delimited_v1"
            && (v.selected != [] ==>
                  && "<retrieved_context format=\"delimited_v1\" untrusted=\"true\">\n" <= v.context.text
                  && |v.context.text| >= 20 && v.context.text[|v.context.text| - 20..] == "</retrieved_context>")
  {
    BuiltContext(query, authz, candidates, opts, config);
    hide *;
    var v := Process(query, authz, candidates, opts, config).value;
    var scores :| v.provenance == BuildProvenance(v.selected, scores);
    BlocksAndRecords(v.selected, scores);
    if v.selected != [] {
      EnvelopeOpens(v.selected);
    }
  }

  lemma BlocksAndRecords(selected: seq<Chunk>, scores: Scores)
    requires forall c :: c in selected ==> IsUuid(c.documentId) && IsUuid(c.chunkId)
    ensures var parsed, records := ParseContext(ContextText(selected)), BuildProvenance(selected, scores);
            && parsed.Some? && |parsed.value| == |selected| == |records|
            && forall i :: 0 <= i < |selected| ==>
                 var c, p := selected[i], records[i];
                 && parsed.value[i] == Parsed(c.documentId, c.chunkId, c.index, c.content)
                 && p.citationId == "src-" + Decimal(i + 1) && p.position == i
                 && p.documentId == c.documentId && p.chunkId == c.chunkId && p.index == c.index
                 && p.retrievalScore == c.score
  {
    ContextReadsBack(selected);
    hide ContextText, ParseContext, Decimal;
  }

  lemma BuiltContext(query: string, authz: Authorization, candidates: seq<Chunk>, opts: Options, config: Config)
    requires Process(query, authz, candidates, opts, config).Ok?
    ensures var v := Process(query, authz, candidates, opts, config).value;
            && v.context.text == ContextText(v.selected)
            && v.context.tokenCount == config.count(v.context.text) <= opts.maxContextTokens
            && v.context.format == "delimited_v1" && v.context.blockCount == |v.selected|
            && exists scores :: v.provenance == BuildProvenance(v.selected, scores)
  {
    hide RunStages, ContextText, BuildProvenance, Summary;
  }

  lemma EnvelopeOpens(selected: seq<Chunk>)
    requires selected != []
    ensures var text := ContextText(selected);
            && "<retrieved_context format=\"delimited_v1\" untrusted=\"true\">\n" <= text
            && |text| >= 20 && text[|text| - 20..] == "</retrieved_context>"
  {
    hide Blocks, Flatten;
  }

  /** The rerank score a provenance record carries: the reranker's, for the chunks it was shown. */
  lemma ProvenanceScores(query: string, authz: Authorization, candidates: seq<Chunk>, opts: Options, config: Config,
                         i: nat)
    requires var r := Process(query, authz, candidates, opts, config);
             r.Ok? && i < |r.value.provenance|
    ensures var p := Process(query, authz, candidates, opts, config).value.provenance[i];
            var authorized := Filter(candidates, Allowed(authz));
            var (window, remainder) := SelectRerankWindow(authorized, config.maxCandidates);
            var scores := config.reranker(query, window).scores;
            var shown := p.chunkId in scores && p.chunkId !in ChunkIds(remainder);
            p.rerankScore == if opts.rerank && authorized != [] && shown then Some(scores[p.chunkId]) else None
  {
    var s := RunStages(query, authz, candidates, opts, config).value;
    var (window, remainder) := SelectRerankWindow(s.authorized, config.maxCandidates);
    hide Filter, Deduplicator.Deduplicate, Select, SelectRerankWindow, Build, Summary, KeepsContract;
    var p := Process(query, authz, candidates, opts, config).value.provenance[i];
    assert p.rerankScore == if p.chunkId in s.reranked.scores then Some(s.reranked.scores[p.chunkId]) else None;
    MergedScores(config.reranker(query, window).scores, remainder, p.chunkId);
    hide RunStages, Process, MergeRerankScores;
    assert p.chunkId in ChunkIds(remainder) <==> exists k :: 0 <= k < |remainder| && remainder[k].chunkId == p.chunkId;
  }

  // ----- Main result 4: nothing unauthorized is selected

  /** Every selected id is that of an authorized candidate, for any reranker. */
  lemma SelectedChunksAreAuthorized(query: string, authz: Authorization, candidates: seq<Chunk>, opts: Options,
                                    config: Config, id: Id)
    requires var r := Process(query, authz, candidates, opts, config);
             r.Ok? && id in ChunkIds(r.value.selected)
    ensures exists c :: && c in candidates && c.chunkId == id
                        && c.companyId == authz.companyId && c.departmentId in authz.departmentIds
  {
    SelectedComesFromStages(query, authz, candidates, opts, config);
    var s := RunStages(query, authz, candidates, opts, config).value;
    StagesConnect(query, authz, candidates, opts, config);
    hide *;
    IdIsHandedOn(s, id);
    FilterMembers(candidates, authz);
    var i :| 0 <= i < |s.authorized| && s.authorized[i].chunkId == id;
    assert s.authorized[i] in s.authorized;
  }

  lemma FilterMembers(candidates: seq<Chunk>, authz: Authorization)
    ensures forall c :: c in Filter(candidates, Allowed(authz)) ==> c in candidates && authz.Allows(c)
  {
    hide Filter;
  }

  lemma SelectedComesFromStages(query: string, authz: Authorization, candidates: seq<Chunk>, opts: Options,
                                config: Config)
    requires Process(query, authz, candidates, opts, config).Ok?
    ensures var r := RunStages(query, authz, candidates, opts, config);
            r.Ok? && Process(query, authz, candidates, opts, config).value.selected == r.value.selection.selected
  {
    hide RunStages, Build, BuildProvenance, Summary;
  }

  lemma IdIsHandedOn(s: Stages, id: Id)
    requires Connected(s) && id in ChunkIds(s.selection.selected)
    ensures exists i :: 0 <= i < |s.authorized| && s.authorized[i].chunkId == id
  {
    var ids := ChunkIds(s.authorized);
    assert id in multiset(ChunkIds(s.selection.selected));
    assert id in multiset(ids);
    var i :| 0 <= i < |ids| && ids[i] == id;
    assert s.authorized[i].chunkId == id;
  }

  /** The reranker gives back the chunks it was given, in some order, as the built-in ones do. */
  predicate ReturnsItsInput(query: string, authorized: seq<Chunk>, config: Config) {
    var window := SelectRerankWindow(authorized, config.maxCandidates).0;
    multiset(config.reranker(query, window).candidates) == multiset(window)
  }

  /** If it does, every selected chunk, with its content, is an authorized candidate. */
  lemma SelectedChunksAreCandidates(query: string, authz: Authorization, candidates: seq<Chunk>, opts: Options,
                                    config: Config)
    requires opts.rerank ==> ReturnsItsInput(query, Filter(candidates, Allowed(authz)), config)
    ensures var r := Process(query, authz, candidates, opts, config);
            r.Ok? ==>
              forall c :: c in r.value.selected ==>
                            c in candidates && c.companyId == authz.companyId && c.departmentId in authz.departmentIds
  {
    if Process(query, authz, candidates, opts, config).Ok? {
      var s := RunStages(query, authz, candidates, opts, config).value;
      OrderedIsAuthorized(query, s.authorized, opts, config);
      DedupedIsInput(s.reranked.ordered, opts.dedupeByContentHash, s.reranked.scores, config.hash);
      SelectedIsInput(s.deduped.chunks, opts.topK, opts.maxContextTokens, config.count, s.reranked.scores);
      assert forall c :: c in s.authorized ==> c in candidates && authz.Allows(c);
      hide Rerank, Filter, Select, Deduplicator.Deduplicate;
    }
  }

  lemma OrderedIsAuthorized(query: string, authorized: seq<Chunk>, opts: Options, config: Config)
    requires Rerank(query, authorized, opts, config).Ok?
    requires opts.rerank ==> ReturnsItsInput(query, authorized, config)
    ensures forall c :: c in Rerank(query, authorized, opts, config).value.ordered ==> c in authorized
  {
    if opts.rerank && authorized != [] {
      var (window, remainder) := SelectRerankWindow(authorized, config.maxCandidates);
      var result := config.reranker(query, window);
      SortSorts(authorized, RetrievalKey());
      assert window + remainder == Sort(authorized, RetrievalKey());
      Deduplicator.SameMembers(result.candidates, window);
      Deduplicator.SameMembers(Sort(authorized, RetrievalKey()), authorized);
      hide KeepsContract, Sort, SelectRerankWindow;
      forall c | c in result.candidates + remainder
        ensures c in authorized
      {
        assert c in window + remainder;
      }
    }
  }

  lemma DedupedIsInput(x: seq<Chunk>, byHash: bool, scores: Scores, hash: string -> string)
    ensures forall c :: c in Deduplicator.Deduplicate(x, true, byHash, scores, hash).chunks ==> c in x
  {
    var positions := Deduplicator.FinalSurvivors(x, true, byHash, scores, hash);
    hide Deduplicator.FinalSurvivors;
    assert Deduplicator.Deduplicate(x, true, byHash, scores, hash).chunks == Deduplicator.Select(x, positions);
  }

  lemma SelectedIsInput(candidates: seq<Chunk>, topK: int, budget: int, count: Counter, scores: Scores)
    ensures var r := Select(candidates, topK, budget, count, scores);
            r.Ok? ==> forall c :: c in r.value.selected ==> c in candidates
  {
    SortSorts(candidates, FinalKey(scores));
    Deduplicator.SameMembers(Sort(candidates, FinalKey(scores)), candidates);
    hide Sort;
  }

  /** The contract compares ids only: a reranker may keep it and put any chunk with the id of `x` in its place. */
  lemma RerankerMayReplaceChunks(query: string, authz: Authorization, x: Chunk, y: Chunk, opts: Options, config: Config)
    requires opts.Valid() && opts.rerank && opts.minRerankScore == None && authz.Allows(x) && x.chunkId == y.chunkId
    requires config.reranker(query, [x]) == RerankResult([y], map[]) && FitsAlone(y, opts, config)
    ensures KeepsContract([x], config.reranker(query, [x]))
    ensures var r := Process(query, authz, [x], opts, config); r.Ok? && r.value.selected == [y]
  {
    OnlyOne(authz, x);
    assert Sort([x], RetrievalKey()) == [x] by {
      assert [x][1..] == [];
    }
    assert ChunkIds([x]) == ChunkIds([y]);
    assert SelectRerankWindow([x], config.maxCandidates) == ([x], []);
    assert Rerank(query, [x], opts, config) == Ok(Reranked([y] + [], map[], 1, []));
    assert [y] + [] == [y];
    OneSurvives(y, opts.dedupeByContentHash, config.hash);
    SelectOne(y, opts, config);
    BuildOne(y, opts, config);
    hide Rerank, Filter, Deduplicator.Deduplicate, Select, Build;
  }

  lemma OneSurvives(y: Chunk, byHash: bool, hash: string -> string)
    ensures Deduplicator.Deduplicate([y], true, byHash, map[], hash).chunks == [y]
  {
    Deduplicator.AllSurvive([y], Deduplicator.ById(), map[]);
    Deduplicator.AllSurvive([y], Deduplicator.ByHash(hash), map[]);
    Deduplicator.SelectAll([y]);
    hide Deduplicator.Survivors, Deduplicator.All;
  }
}
