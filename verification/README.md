# Models of the retrieval service

The repository is a retrieval-augmented chat service: documents are ingested, cut into chunks and
stored in two stores; queries search the chunks within an authorized scope, rerank, deduplicate and
select them, and assemble a delimited context; answers stream back through a parser; a rate limiter
guards the entry points. This project models the parts where correctness depends on whole runs or on
several stages agreeing, and proves what they promise for every input and every run.

| file | models |
|---|---|
| `RateLimit.dfy` | token buckets in a map that forgets the least recently used entry |
| `StreamParser.dfy` | the incremental `<think>` parser |
| `Chunker.dfy`, `Whitespace.dfy` | the character-budget chunker, and `str.strip` |
| `Sentences.dfy` | sentence segmentation |
| `Ordering.dfy`, `Types.dfy` | stable sorting, the sort keys, the candidate type |
| `Deduplicator.dfy`, `Reranker.dfy`, `Selector.dfy`, `Context.dfy` | the stages after retrieval |
| `PostRetrieval.dfy` | their composition |
| `VectorSearch.dfy`, `ChunkStore.dfy` | scoped search, the chunk store |
| `Lifecycle.dfy`, `Visibility.dfy`, `Operations.dfy`, `Interference.dfy` | the steps and runs of documents across two stores |
| `DocumentStore.dfy`, `Ingestion.dfy`, `Reconciliation.dfy` | the code that takes these steps |
| `Metrics.dfy` | the normalized discounted cumulative gain |
| `Strings.dfy`, `Prelude.dfy` | Python's string operations, option and result values |

Code that changes state step by step is a class or a method proved equal to a function on values; the
promises are then proved of that function. Tokens, times and scores are real numbers. Clocks, hashes,
the similarity of vectors, text normalization, rerankers, the notion of white space and lower-casing
are parameters. A UUID is represented by its text.

## What the proofs found

Some of what one would expect holds only under a condition, and the condition is part of the result.

- A failed update restores the record and publishes the chunks that are stored
  (rag/ingestion/pipeline.py:172-181). It leaves the searchable chunks at the recorded version exactly
  when they were at that version before it began. An update that crashed after rewriting the chunks
  breaks this: if the next update fails it exposes them under the old version, while a retry that
  succeeds, or crashes again, does no harm. Apart from that version, safety holds on every run in
  which repairs expose nothing in the sense below: only chunks of documents recorded as indexed are
  searchable, and a document is searchable whole and at a single version.
- A failed update also records a document that had failed, or was still being processed, as indexed,
  and makes all its chunks searchable. The recorded number of chunks is then right exactly when it was
  before; it is not after a creation that crashed once its chunks were written.
- A repair exposes nothing exactly if it does not publish chunks of a document that is not recorded as
  indexed, or whose update is between its first two calls. The reconciler reads the record and sets the
  status in two calls and does not look whether an operation is in flight. If what it read is up to
  date, the update between its first two calls is the only case that goes wrong.
- Indexed documents do not stay hidden, except by a crash before their chunks are published, or by a
  repair that writes what it read before the document was indexed. So a repair that exposes nothing may
  still hide something.
- A purge that found no record and deletes after a creation has written its chunks takes them away. The
  creation notices, and fails, only if its chunks have not been counted yet.
- A deletion that crashes between its two calls, or a purge that comes too late, leaves a record without
  chunks that a check does not report (rag/storage/reconciliation.py:105-107 skips such documents).
- Replacing a document's chunks keeps the two dictionaries in agreement exactly when the batch takes
  no chunk id from another document.
- An explicit list of documents replaces the status condition of a search instead of narrowing it
  further, as the scope's documentation says (rag/storage/vector_search.py:23-25 against 78-88).
- The answer of the stream parser is independent of how the text was cut exactly when no tag follows
  the first closing tag. Character by character nothing is ever stripped; in one piece the tag is.
- Every candidate is accounted for exactly when no chunk the reranker returns, or was not shown,
  misses a minimum rerank score: those chunks are dropped without being reported.
- Without reranking, the chunks that survive deduplication do not depend on the order of arrival
  exactly when no hash class attains its top score twice.
- The rerank contract compares ids only. Every selected id is that of an authorized candidate; the
  selected chunks themselves are authorized candidates if the reranker gives back the chunks it was
  given, and need not be otherwise.
- The comparison of the limiter with one that never evicts is about totals. The two answer every
  single request alike exactly when the map can hold all the slots in use.
- The bound on the number of chunks holds with the factor 3.
- The pattern that looks for an abbreviation also matches before a newline that ends the prefix
  (rag/nlp/sentences.py:140), so a newline between the word and the terminators is skipped.

## Assumptions

- Chunk ids produced for a batch are new and distinct, as `uuid4` makes them, and a batch carries one
  version. Its chunks are marked as being processed, as rag/ingestion/metadata.py:56-58 writes them.
- One operation at a time is in flight on a document; any number on different documents.
- `chunk_text` is called with a positive budget: with a budget of zero its inner loop does not end.

## Model

| member | source | states |
|---|---|---|
| `RateLimit.TokenBucket.constructor` | rag/app/rate_limit.py:69-73 | a new bucket is full |
| `RateLimit.TokenBucket.Consume` | rag/app/rate_limit.py:75-88 | the whole new state and the decision of a consumption |
| `RateLimit.RateLimiter.EvictIfNeeded` | rag/app/rate_limit.py:230-232 | exactly the oldest entries in excess are dropped, in order |
| `RateLimit.RateLimiter.Insert` | rag/app/rate_limit.py:190-193 | a new slot is entered and the excess evicted |
| `RateLimit.RateLimiter.Touch` | rag/app/rate_limit.py:189-195 | the bucket found or created, and the recency order after it |
| `RateLimit.RateLimiter.CheckLimit` | rag/app/rate_limit.py:175-201 | the whole new map and the decision; a disabled limiter admits and changes nothing |
| `RateLimit.CheckEffect` | rag/app/rate_limit.py:188-196 | the slot just used is tracked and most recent, only its bucket is charged, balances stay within limits, the bound is kept |
| `RateLimit.RunStaysBounded` | rag/app/rate_limit.py:146-153 | after any calls at most `max_tracked_keys` buckets, those of the slots used most recently, each within its limits |
| `RateLimit.LruTracksMostRecent` | rag/app/rate_limit.py:190-195 | the bounded order is a suffix of the unbounded recency order throughout any run |
| `RateLimit.EvictionNeverRevokes` | rag/app/rate_limit.py:146-153 | on any calls and any clock, the bounded limiter has admitted at least as many requests of each slot as one that never evicts |
| `RateLimit.OthersCannotStarve` | rag/app/rate_limit.py:175-180 | calls on other slots never cost a slot admissions |
| `RateLimit.SingleRequestsMayDiffer` | rag/app/rate_limit.py:150-152 | a run after which one request is refused by the bounded limiter and admitted by the other |
| `RateLimit.RequestsAgreeIff` | rag/app/rate_limit.py:187-195 | the two limiters answer all calls on some slots alike if and only if the map can hold all of them |
| `RateLimit.ManySlotsDiffer` | rag/app/rate_limit.py:150-152 | on more slots, with a clock that does not go back, a run that ends with a request only the unbounded limiter admits |
| `RateLimit.WindowBound` | rag/app/rate_limit.py:61-88 | in any window of any run with a clock that does not go back: one burst, one more per eviction, plus the inflow |
| `RateLimit.RetryAfterIsExact` | rag/app/rate_limit.py:54-57 | after a refusal a request is admitted from the advertised wait on and not before; whole seconds are never too early |
| `RateLimit.FreshCallerGetsLimits` | rag/app/rate_limit.py:218-228 | which burst and rate a caller gets: the anonymous ones without a token, those of "ingest" or of reading with one; exactly the burst is admitted at once, the next call from 60 seconds divided by the requests per minute on |
| `RateLimit.RemainingIsLeft` | rag/app/rate_limit.py:75-88 | a decision reports the tokens left in the bucket |
| `StreamParser.StreamBufferParser.TakeTurn` | app/services/chat/stream_parser.py:26-95 | one turn of the loop: whole new state, events, whether it goes on |
| `StreamParser.StreamBufferParser.Feed` | app/services/chat/stream_parser.py:20-97 | the state and events of feeding a chunk |
| `StreamParser.StreamBufferParser.Finalize` | app/services/chat/stream_parser.py:99-111 | the state and events of the end of a stream |
| `StreamParser.HoldBackIsExact` | app/services/chat/stream_parser.py:38-52 | the suffix from the last `<` is held back exactly if it may become the tag; nothing emitted can |
| `StreamParser.CuttingIsIrrelevant` | app/services/chat/stream_parser.py:20-111 | for every cutting: the thinking is the text between the first tags, the answer the text around them, the buffer a proper prefix of the awaited tag |
| `StreamParser.AnswerIsExactWithoutLaterTags` | app/services/chat/stream_parser.py:59-65 | every cutting gives that answer if and only if no tag follows the close |
| `StreamParser.SinglesAnswer` | app/services/chat/stream_parser.py:59-65 | fed character by character, everything after the close reaches the answer, tags included |
| `StreamParser.CuttingsAgreeIff` | app/services/chat/stream_parser.py:20-111 | any two cuttings of a text give the same answer if and only if no tag follows the close |
| `StreamParser.EventsAreTheAccumulators` | app/services/chat/stream_parser.py:20-111 | the events concatenate to the two accumulators, before and after the end |
| `StreamParser.EventsComeInOrder` | app/services/chat/stream_parser.py:20-111 | the events come in three phases: the answer before the thinking, the thinking, the answer after it; none is empty |
| `StreamParser.TagsAreSpelled` | app/services/chat/stream_parser.py:26-95 | with the tags written out, for every cutting of a text that holds them |
| `StreamParser.TagsAreDeleted` | app/services/chat/stream_parser.py:59-65 | behind the close a tag is deleted from a piece, and nothing else |
| `Chunker.ChunkText` | rag/ingestion/chunker.py:10-73 | the chunks of the specification, indexed from 0, with ordered offsets; the loops end |
| `Chunker.FlushAndSplit` | rag/ingestion/chunker.py:31-58 | the buffer is emitted and the paragraph cut until it fits |
| `Chunker.SplitAfterIsInside` | rag/ingestion/chunker.py:76-82 | a cut lies within the budget and past its half |
| `Chunker.ChunksAreGood` | rag/ingestion/chunker.py:20-71 | every chunk is non-empty, stripped and within the budget |
| `Chunker.ChunksConserve` | rag/ingestion/chunker.py:20-71 | no character but white space is lost, repeated or moved |
| `Chunker.ChunksArePaidFor` | rag/ingestion/chunker.py:20-71 | the amortised bound for any pending buffer |
| `Chunker.ChunkTextIsSound` | rag/ingestion/chunker.py:10-73 | all of this for every text and positive budget; (n - 1) times the budget is at most 3 times the length plus 2 |
| `Chunker.CutIsAfterSeparator` | rag/ingestion/chunker.py:76-82 | a long paragraph is cut right after the last occurrence of the first of the five separators that occurs past the half of the budget, and at the budget if none does |
| `Chunker.WordsAreSeveredOnlyIfNecessary` | rag/ingestion/chunker.py:76-82 | a cut leaves a space or a line break behind it unless there is none past the half |
| `Chunker.ChunksAreOfParagraphs` | rag/ingestion/chunker.py:14-24 | the chunks are those of the parts between blank lines, taken from the left, stripped and not blank |
| `Chunker.ShortParagraphsArePacked` | rag/ingestion/chunker.py:20-43 | paragraphs that fit are packed greedily, joined by blank lines: no chunk has room for the paragraph that follows it |
| `Chunker.LongParagraphSeparates` | rag/ingestion/chunker.py:31-61 | a paragraph that does not fit flushes what is pending; its rest is packed with what follows |
| `Sentences.Append` | rag/nlp/sentences.py:186-194 | the trimmed span is appended, nothing for white space |
| `Sentences.ScanRun` | rag/nlp/sentences.py:167-169 | the end of a maximal run of terminators |
| `Sentences.SplitSentences` | rag/nlp/sentences.py:147-183 | the trimmed text between consecutive cuts, cuts being defined by the text alone |
| `Sentences.RunIsCut` | rag/nlp/sentences.py:166-179 | a run ends a sentence exactly when no abbreviation precedes it and white space or the end follows |
| `Sentences.SentencesEnd` | rag/nlp/sentences.py:23-44 | where sentences end, with the five terminators and sixteen abbreviations spelled out |
| `Sentences.NewlineIsSkipped` | rag/nlp/sentences.py:138-144 | a newline before the terminators does not change whether an abbreviation precedes them |
| `Sentences.NewlineHidesFullStop` | rag/nlp/sentences.py:140 | a full stop on the line after an abbreviation ends no sentence |
| `Sentences.SentencesPartitionTheText` | rag/nlp/sentences.py:147-183 | spans are ordered, disjoint and exact, and cover each non-white character exactly once |
| `Sentences.SentencesLieBetweenCuts` | rag/nlp/sentences.py:147-194 | sentences are the text between neighbouring cuts, trimmed |
| `Sentences.SentencesAreWhole` | rag/nlp/sentences.py:148-153 | no newline inside a sentence; a run before white space inside one only after an abbreviation |
| `Ordering.KeyLeTotal` | rag/pipeline/ordering.py:16-42 | the sort keys are totally ordered |
| `Ordering.SortSorts` | rag/pipeline/ordering.py:45-55 | sorting arranges the same elements by key |
| `Ordering.SortIsCanonical` | rag/pipeline/ordering.py:1-6 | elements told apart by their keys come out in one order, however they arrive |
| `Ordering.SortIsStable` | rag/pipeline/ordering.py:45-55 | elements with equal keys keep their order |
| `Ordering.StrLeIsLexicographic` | rag/pipeline/ordering.py:16-42 | strings are compared by their first difference, a prefix comes first |
| `Context.EscapeIsCharacterwise` | rag/pipeline/context_builder.py:34-36 | the three replacements are one map on characters |
| `Context.EscapedHasNoBrackets` | rag/pipeline/context_builder.py:8-13 | escaped content contains no angle bracket |
| `Context.UnescapeInverts` | rag/pipeline/context_builder.py:34-36 | escaping can be undone |
| `Context.BlockReadsBack` | rag/pipeline/context_builder.py:39-46 | one block, followed by anything, is read back exactly |
| `Context.ContextReadsBack` | rag/pipeline/context_builder.py:34-53 | the assembled context of any chunks is read back to their ids, positions and contents, in order |
| `Deduplicator.KeepBest` | rag/pipeline/deduplicator.py:54-57 | the dictionary holds exactly the best positions of their classes |
| `Deduplicator.Phase` | rag/pipeline/deduplicator.py:59-80 | survivors and removed ids of one phase |
| `Deduplicator.DeduplicateChunks` | rag/pipeline/deduplicator.py:28-86 | the two phases together |
| `Deduplicator.SurvivorsAreTheBest` | rag/pipeline/deduplicator.py:4-9 | survivors keep their order, share no id or hash, are the best of their classes, the earliest on ties; who is missing lost to a survivor |
| `Deduplicator.EveryCandidateIsReported` | rag/pipeline/deduplicator.py:64-86 | every candidate is kept or reported as removed, exactly once |
| `Deduplicator.RemovedByPhase` | rag/pipeline/deduplicator.py:64-86 | of each id all but one occurrence are removed as duplicates; near duplicates only when comparing hashes |
| `Deduplicator.SecondPassRemovesNothing` | rag/pipeline/deduplicator.py:28-86 | deduplicating again removes nothing |
| `Deduplicator.ArrivalDecidesIff` | rag/pipeline/deduplicator.py:41-80 | all arrangements of candidates with distinct ids leave the same chunks if and only if no hash class attains its top score twice |
| `Reranker.LexicalRerank` | rag/pipeline/reranker.py:144-173 | the scores by id and the order by final key |
| `Reranker.LexicalScoresAreSums` | rag/pipeline/reranker.py:150-156 | a score is the weighted sum of the retrieval score and the two text measures |
| `Reranker.LexicalOrder` | rag/pipeline/reranker.py:157-166 | the greater score comes first, then the greater retrieval score |
| `Reranker.MergeScores` | rag/pipeline/reranker.py:176-184 | exactly the scores of the remainder are dropped |
| `Reranker.MergedScores` | rag/pipeline/reranker.py:176-184 | which scores are left, and that they are unchanged |
| `Reranker.BuiltInsKeepContract` | rag/pipeline/reranker.py:48-73 | both built-in rerankers satisfy the contract on every input and return the chunks they are given |
| `Reranker.WindowIsCanonical` | rag/pipeline/reranker.py:76-90 | with distinct ids, window and remainder do not depend on arrival |
| `Reranker.WindowHoldsTheBest` | rag/pipeline/ordering.py:16-27 | the window holds the candidates with the greatest scores, ties by document, index and chunk id |
| `Selector.SelectChunks` | rag/pipeline/selector.py:23-60 | the selection and what is dropped for rank and for budget |
| `Selector.SelectionIsLongestPrefix` | rag/pipeline/selector.py:37-60 | a prefix of the `top_k` best chunks fits the budget exactly when it is not longer than the selection |
| `Selector.SelectionIsTheBest` | rag/pipeline/selector.py:37-60 | for any counter: greater rerank, then retrieval scores come first; the first that fit one by one are selected, and what is dropped for budget and for rank follows |
| `Selector.CharEstimateIsMonotone` | rag/pipeline/tokenizer.py:36-39 | longer text is not estimated lower |
| `Selector.CharEstimateRoundsUp` | rag/pipeline/tokenizer.py:36-39 | the least number of tokens that cover the text |
| `Selector.BuilderAcceptsSelection` | rag/pipeline/context_builder.py:74-90 | the builder accepts a selection exactly when it is not empty or the empty text is within budget |
| `Selector.DefaultCounterIgnoresEmptyText` | rag/pipeline/tokenizer.py:36-39 | the default counter charges nothing for the empty text |
| `Selector.ProvenanceMatchesContext` | rag/pipeline/provenance.py:27-43 | block, provenance record and citation at a position name the same chunk |
| `PostRetrieval.ValidateCandidates` | rag/pipeline/validation.py:39-61 | authorized chunks and blocked ids in order; a strict refusal |
| `PostRetrieval.ValidationIsByCompanyAndDepartment` | rag/pipeline/validation.py:39-61 | kept are exactly the candidates of the company and an allowed department, blocked the ids of the others, and strict mode refuses exactly if there is one |
| `PostRetrieval.RerankCandidates` | rag/pipeline/pipeline.py:198-219 | window, contract, scores and minimum |
| `PostRetrieval.ProcessCandidates` | rag/pipeline/pipeline.py:97-196 | the stages in a row |
| `PostRetrieval.EveryCandidateIsAccountedFor` | rag/pipeline/pipeline.py:115-195 | for any reranker, the input ids are the selected and removed ones exactly when no chunk it returned or was not shown misses the minimum score |
| `PostRetrieval.DroppedUnreported` | rag/pipeline/pipeline.py:213-219 | a candidate below the minimum that vanishes unreported |
| `PostRetrieval.CountsAddUp` | rag/pipeline/pipeline.py:161-195 | the reported counts agree with each other and the number of candidates; how many are blocked and reranked |
| `PostRetrieval.ArrivalOrderIsIrrelevant` | rag/pipeline/ordering.py:1-6 | with reranking on and distinct ids, any arrangement of the candidates gives the same result |
| `PostRetrieval.ArrivalOrderMattersWithoutReranking` | rag/pipeline/deduplicator.py:41-47 | two tied candidates of which the first to arrive survives |
| `PostRetrieval.ArrivalOrderIsIrrelevantWithoutTies` | rag/pipeline/pipeline.py:198-219 | with reranking off any arrangement gives the same result, if hashes are not compared or no class of the authorized candidates attains its top score twice |
| `PostRetrieval.ArrivalOrderIsIrrelevantIff` | rag/pipeline/deduplicator.py:41-80 | where any of the candidates fit rank and budget together, that is exactly when, apart from refused requests |
| `PostRetrieval.ShortCandidatesAreRoomy` | rag/pipeline/tokenizer.py:36-39 | with the default counter, candidates whose longest block times their number fits the budget do |
| `PostRetrieval.TwoShortCandidatesAreRoomy` | rag/pipeline/tokenizer.py:24-39 | two concrete candidates that do |
| `PostRetrieval.TiesDecideTheResult` | rag/pipeline/deduplicator.py:41-47 | the whole result for two tied candidates depends on the order, unless neither fits the budget |
| `PostRetrieval.ErrorsAreExpected` | rag/pipeline/pipeline.py:108-158 | the three reasons for an error, with all bounds and conditions spelled out; assembly never fails |
| `PostRetrieval.ResultCarriesContext` | rag/pipeline/context_builder.py:74-90 | the context of a result reads back to the selected chunks, has the reported size within the budget, and the provenance records describe its blocks |
| `PostRetrieval.ProvenanceScores` | rag/pipeline/provenance.py:27-43 | the rerank score a record carries |
| `PostRetrieval.SelectedChunksAreAuthorized` | rag/pipeline/pipeline.py:6-8 | every selected id is that of a candidate of the company and an allowed department, for any reranker |
| `PostRetrieval.SelectedChunksAreCandidates` | rag/pipeline/pipeline.py:6-8 | every selected chunk, content included, is such a candidate, if the reranker gives back the chunks it was given |
| `PostRetrieval.RerankerMayReplaceChunks` | rag/pipeline/reranker.py:48-73 | a reranker that keeps the contract and has another chunk selected under the same id |
| `VectorSearch.Search` | rag/storage/vector_search.py:54-106 | when it raises, which error and on which chunk, and the result otherwise |
| `VectorSearch.SearchPool` | rag/storage/vector_search.py:73-93 | which chunks may be found, and how many are returned for any `top_k` |
| `VectorSearch.SearchFindsTheMostSimilar` | rag/retrieval/ranking.py:23-37 | scores are similarities; the greater comes first, then the smaller id, and nothing left out comes before what is returned |
| `VectorSearch.OnlyThePoolMatters` | rag/storage/vector_search.py:73-106 | chunks outside the pool and the order of the store change nothing |
| `VectorSearch.ResultIsTheBestOfThePool` | rag/retrieval/ranking.py:23-37 | the result is the head of the sorted pool; nothing left out ranks before it |
| `VectorSearch.ListNarrowsOnlyIndexedChunks` | rag/storage/vector_search.py:20-27 | an explicit list narrows the pool exactly when every listed chunk is indexed |
| `ChunkStore.InMemoryChunkStore.SetDocumentStatus` | rag/storage/chunk_store.py:78-86 | the whole new state and the count |
| `ChunkStore.InMemoryChunkStore.WriteChunks` | rag/storage/chunk_store.py:108-112 | the chunks written and their ids, unless interrupted |
| `ChunkStore.InMemoryChunkStore.ReplaceDocumentChunks` | rag/storage/chunk_store.py:94-119 | all or nothing, and exactly when which; what makes a batch invalid, spelled out |
| `ChunkStore.InMemoryChunkStore.DeleteByDocumentId` | rag/storage/chunk_store.py:121-125 | the whole new state and the count |
| `ChunkStore.InMemoryChunkStore.CountByDocumentId` | rag/storage/chunk_store.py:127-128 | the number of listed ids |
| `ChunkStore.ReplaceIsConsistent` | rag/storage/chunk_store.py:103-115 | the dictionaries stay in agreement exactly when no id belongs to another document |
| `ChunkStore.ReplaceWithOwnIds` | rag/storage/chunk_store.py:105-115 | the document then has exactly the batch, the others what they had |
| `ChunkStore.SetStatusEffect` | rag/storage/chunk_store.py:78-86 | only statuses of that document change |
| `ChunkStore.DeleteEffect` | rag/storage/chunk_store.py:121-125 | exactly the chunks of that document go |
| `DocumentStore.InMemoryDocumentStore.CreateProcessing` | rag/ingestion/store/document_store.py:112-150 | a new record, or an error unless the old one is deleted |
| `DocumentStore.InMemoryDocumentStore.MarkIndexed` | rag/ingestion/store/document_store.py:171-189 | the record after it; without a version the old one stays |
| `DocumentStore.InMemoryDocumentStore.MarkFailed` | rag/ingestion/store/document_store.py:191-198 | the record after it |
| `DocumentStore.InMemoryDocumentStore.MarkDeleted` | rag/ingestion/store/document_store.py:200-205 | the record after it |
| `DocumentStore.InMemoryDocumentStore.BeginReindex` | rag/ingestion/store/document_store.py:207-212 | the record after it |
| `Lifecycle.NextKeepsInv` | rag/ingestion/pipeline.py:85-218 | each store call of each operation, a failure, a crash, a guarded repair and a purge keep the invariant of all documents |
| `Lifecycle.EveryRunIsSafe` | rag/ingestion/pipeline.py:157-218 | at every step of every interleaving only documents recorded as indexed are searchable, whole and at one version, if no repair publishes what may not be shown; at the recorded one if no update fails on chunks of another version; complete if also the counts agree, no deletion crashes halfway and purges find nothing |
| `Lifecycle.RunsWithoutFailedUpdatesAreVersioned` | rag/ingestion/pipeline.py:157-205 | any crashes, retries and failed creations are covered: the condition on versions only constrains updates that fail |
| `Lifecycle.SearchSeesOnlyIndexedDocuments` | rag/storage/vector_search.py:83-88 | a search without a list of documents only returns such chunks, at any step |
| `Operations.SuccessfulCreateResult` | rag/ingestion/pipeline.py:97-142 | the run of a creation and the state it ends in |
| `Operations.FailedCreateResult` | rag/ingestion/pipeline.py:117-126 | the run of a failed creation and the state it ends in |
| `Operations.SuccessfulUpdateResult` | rag/ingestion/pipeline.py:144-205 | the run of an update and the state it ends in |
| `Operations.FailedUpdateResult` | rag/ingestion/pipeline.py:157-188 | the run of a failed update and the state it ends in |
| `Operations.DeletionResult` | rag/ingestion/service.py:226-238 | the run of a deletion and the state it ends in |
| `Operations.FailedUpdateAgreesIff` | rag/ingestion/pipeline.py:172-181 | a failed update records the document as indexed and shows all its chunks; at the recorded version, and as many as recorded, exactly when they were before |
| `Operations.CrashedCreateThenFailureIsIncomplete` | rag/ingestion/pipeline.py:172-181 | a creation crashes once its chunks are written, the next update fails, and the record counts no chunks |
| `Operations.CrashedUpdateTears` | rag/ingestion/pipeline.py:157-195 | an update that crashes once its chunks are rewritten leaves them off the recorded version |
| `Operations.CrashThenFailureDisagrees` | rag/ingestion/pipeline.py:144-188 | a run from empty stores that ends with chunks of version 2 searchable under a record of version 1 |
| `Interference.RepairIsSafeIff` | rag/storage/reconciliation.py:149-164 | whatever a repair read and whatever is in flight, it keeps the invariant exactly if it publishes only what may be shown, and exposes a chunk otherwise; the exact case for an up to date reading |
| `Visibility.HidesIff` | rag/ingestion/pipeline.py:207-214 | an action leaves a document that is recorded as indexed hidden exactly if it is a crash before its chunks are published or a repair that writes a stale reading |
| `Visibility.IndexedDocumentsAreShown` | rag/ingestion/pipeline.py:207-214 | in every run without such an action, in particular without crashes and with up to date repairs, documents at rest that are recorded as indexed have all their chunks searchable |
| `Interference.PurgeIsHarmlessIff` | rag/storage/reconciliation.py:166-181 | a purge in flight exposes nothing, and loses nothing exactly if the document has no chunks by then |
| `Interference.PurgedCreationFails` | rag/ingestion/pipeline.py:117-126 | a creation whose chunks are purged before they are counted fails and leaves nothing |
| `Interference.RepairMustWait` | rag/storage/reconciliation.py:149-164 | repairing between the first two calls of an update exposes the chunks, if there are any |
| `Interference.RepairedUpdateExposes` | rag/storage/reconciliation.py:149-164 | a run from empty stores in which such a repair exposes a chunk of a document being processed |
| `Ingestion.IngestionPipeline.Persist` | rag/ingestion/pipeline.py:236-263 | the batch is stored whole, or nothing changes |
| `Ingestion.IngestionPipeline.ProcessCreate` | rag/ingestion/pipeline.py:85-142 | which run of the lifecycle a creation performs, and that it returns the record |
| `Ingestion.IngestionPipeline.ProcessUpdate` | rag/ingestion/pipeline.py:144-205 | which run of the lifecycle an update performs, and that it returns the record |
| `Ingestion.IngestionPipeline.UpdateDocument` | rag/ingestion/service.py:191-218 | the same, and when the document is not found |
| `Ingestion.IngestionPipeline.DeleteDocument` | rag/ingestion/service.py:220-238 | which run a deletion performs, and when the document is not found |
| `Reconciliation.StoreReconciler.CheckDocument` | rag/storage/reconciliation.py:104-124 | whether a document drifts, and its entry |
| `Reconciliation.DriftsIff` | rag/storage/reconciliation.py:104-116 | a document drifts exactly when its chunks carry different statuses, or are searchable contrary to its record |
| `Reconciliation.StoreReconciler.Check` | rag/storage/reconciliation.py:89-139 | exactly the drifting documents are reported, each once, and the unknown extra ids in the order of their first occurrence |
| `Reconciliation.StoreReconciler.Repair` | rag/storage/reconciliation.py:141-164 | the reported documents are realigned one after the other; the number of those that have a record |
| `Reconciliation.StoreReconciler.PurgeOrphans` | rag/storage/reconciliation.py:166-181 | the listed documents without record are deleted; the number of chunks that are gone |
| `Reconciliation.RealignedEffect` | rag/storage/reconciliation.py:141-147 | repairing only sets statuses, to the desired one, of the listed documents |
| `Reconciliation.RepairLeavesNoDrift` | rag/storage/reconciliation.py:89-164 | in any state a check, a repair and a second check find no drift, and no chunk is lost |
| `Reconciliation.CrashThenRepairRestores` | rag/storage/reconciliation.py:4-17 | after a run stopped anywhere, with updates crashed and retried, repairing makes exactly the chunks of indexed documents searchable, at the recorded version if no update failed on chunks of another one |
| `Reconciliation.PurgeSparesRecordedDocuments` | rag/storage/reconciliation.py:166-181 | purging removes all chunks of listed documents without record and nothing else |
| `Reconciliation.CrashedDeletionGoesUnreported` | rag/storage/reconciliation.py:105-107 | a deletion that crashed between its calls is not drift, and leaves an indexed record incomplete unless it counts no chunks |
| `Reconciliation.StalePurgeGoesUnreported` | rag/storage/reconciliation.py:166-181 | a purge that comes after the document was indexed leaves its record without chunks, which is not drift |
| `Metrics.DcgAtK` | benchmarks/persian/metrics.py:32-37 | the gain accumulated over the first ranks |
| `Metrics.NdcgAtK` | benchmarks/persian/metrics.py:40-46 | the normalized gain, 0 when nothing can be relevant |
| `Metrics.DcgIsAtMostIdeal` | benchmarks/persian/metrics.py:32-46 | the gain is at most the ideal one of its hits, and reaches it exactly when they come first |
| `Metrics.NdcgIsNormalized` | benchmarks/persian/metrics.py:40-46 | between 0 and 1 without duplicates, and 1 exactly when the first ranks are all relevant |
| `Metrics.NdcgIsQuotient` | benchmarks/persian/metrics.py:32-46 | times the greatest possible sum of gains it is the sum of the gains of the relevant ranks |

## Left out

- Rate limiter: `reset`, `enforce`, logging, the concurrency limiter and its two configuration fields.
- Chunker offsets: nothing is claimed of them beyond 0 <= start <= end, because the cursor does not
  advance when a paragraph fits the buffer (rag/ingestion/chunker.py:26-29).
- Text after a closed `</think>` that contains further tags: it is stripped chunk by chunk, and only the
  dependence on the cutting is shown.
- SearchSeesOnlyIndexedDocuments: searches with an explicit list of documents are not covered, because
  the code does not look at the status then.
- CrashThenRepairRestores: speaks of the chunks that are stored; that they are as many as recorded
  needs its stronger condition, because a crashed deletion may have removed them.
- Check: the order in which drifting documents are reported, which is that of the store's listing.
- ArrivalOrderIsIrrelevantIff: where rank or budget may trim the survivors, the condition is sufficient
  but not necessary, because the tied candidates may be trimmed away.
- Document records: only status, version and chunk count; content hashes, dates, scope and failure
  reasons do not take part. The duplicate search before a creation and authorization are not modelled.
- The count of a document's chunks and the call that records it are one step. Only a repair or a purge
  could write in between, and neither touches what the other call writes: it has the same effect after.
- Listing a document's chunks by index: the reconciler only needs their number and statuses.
- A chunk without identifiers is refused by the source; identifiers are never missing here.
- Rolling up sources by document, relevance summaries, stage timings and latencies.
- Two operations at once on one document, and the SQLite and Weaviate back ends.
- Floating-point rounding, infinities and not-a-number scores.
- Persian normalization, lemmatization, block detection, adaptive chunking, extraction and embedding.
- Node registry, HTTP routes, configuration loading, the frontend and the benchmark runners.
