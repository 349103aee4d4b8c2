/**
  The life of a document across the document store and the chunk store, which share no
  transaction: creation, update and deletion (rag/ingestion/pipeline.py,
  rag/ingestion/service.py) are sequences of calls that may fail, crash or be interleaved
  with those of other documents.  One action is one call that changes a store.
 */
module Lifecycle {
  import opened Prelude
  import opened Types
  import opened VectorSearch
  import opened ChunkStore

  datatype Status = Processing | Indexed | Failed | Deleted

  const PROCESSING := "processing"

  /** `DocumentRecord`, reduced to what the lifecycle changes. */
  datatype Record = Record(status: Status, version: int, chunkCount: nat)

  /** Where the operation in flight on a document stands; `prior` is the record an update started from. */
  datatype Pc =
    | Creating                                   // recorded, chunks being built
    | CreatePersisted(count: nat)                // chunks written
    | CreateFailing                              // the build raised
    | CreateFailed                               // recorded as failed
    | CreateIndexed                              // recorded as indexed, not yet published
    | Updating(prior: Record)                    // record read
    | UpdateHidden(prior: Record)                // chunks unpublished
    | UpdateReindexing(prior: Record)            // recorded as processing, chunks being built
    | UpdatePersisted(prior: Record, count: nat) // chunks rewritten
    | UpdateFailing(prior: Record)               // the build raised
    | UpdateRecorded                             // recorded as indexed again, not yet published
    | Deleting                                   // record read
    | DeletedChunks                              // chunks removed

  datatype State = State(docs: map<Id, Record>, store: Store, pcs: map<Id, Pc>)

  const EMPTY := State(map[], Store(map[], map[]), map[])

  datatype Action =
    | BeginCreate(d: Id)
    | BeginUpdate(d: Id)
    | BeginDelete(d: Id)
    | Persist(d: Id, batch: seq<StoredChunk>)
    | FailBuild(d: Id)
    | Proceed(d: Id)
    | Crash(d: Id)
    | Repair(d: Id, read: Status) // the second call of a repair that read this status of the record
    | Purge(d: Id)                // the second call of a purge that found no record

  // ----- Single calls on the two stores

  function SetRecord(s: State, d: Id, r: Record): State {
    s.(docs := s.docs[d := r])
  }

  function At(s: State, d: Id, pc: Pc): State {
    s.(pcs := s.pcs[d := pc])
  }

  function Done(s: State, d: Id): State {
    s.(pcs := s.pcs - {d})
  }

  function Count(s: State, d: Id): nat {
    |IdsOf(s.store, d)|
  }

  function Mark(s: State, d: Id, status: Status): State
    requires d in s.docs
  {
    var count := if status == Failed || status == Deleted then 0 else s.docs[d].chunkCount;
    SetRecord(s, d, s.docs[d].(status := status, chunkCount := count))
  }

  function MarkIndexed(s: State, d: Id, count: nat, version: int): State {
    SetRecord(s, d, Record(Indexed, version, count))
  }

  function Publish(s: State, d: Id): State {
    s.(store := SetStatus(s.store, d, INDEXED))
  }

  function Unpublish(s: State, d: Id): State {
    s.(store := SetStatus(s.store, d, PROCESSING))
  }

  // ----- Actions

  /** The version the chunks being built will carry. */
  function BuildVersion(s: State, d: Id): int
    requires d in s.docs && d in s.pcs
  {
    if s.pcs[d].UpdateReindexing? then s.pcs[d].prior.version + 1 else s.docs[d].version
  }

  /** Where an operation stands once the `n` chunks it built are written. */
  function Written(pc: Pc, n: nat): Pc
    requires pc.Creating? || pc.UpdateReindexing?
  {
    if pc.Creating? then CreatePersisted(n) else UpdatePersisted(pc.prior, n)
  }

  predicate Building(s: State, d: Id) {
    d in s.docs && d in s.pcs && (s.pcs[d].Creating? || s.pcs[d].UpdateReindexing?)
  }

  /** A freshly built batch: one document, one version, not searchable yet, ids never seen before. */
  predicate FreshBatch(store: Store, d: Id, version: int, batch: seq<StoredChunk>) {
    && batch != [] && ValidBatch(d, batch)
    && (forall i :: 0 <= i < |batch| ==>
                      && batch[i].version == version && batch[i].status == Some(PROCESSING)
                      && batch[i].chunkId !in store.chunks)
    && forall i, j :: 0 <= i < j < |batch| ==> batch[i].chunkId != batch[j].chunkId
  }

  /** All chunks of `d` carry `version`. */
  predicate AllVersion(store: Store, d: Id, version: int) {
    forall c :: c in store.chunks && store.chunks[c].documentId == d ==> store.chunks[c].version == version
  }

  predicate Idle(s: State, d: Id) {
    d !in s.pcs && d in s.docs && s.docs[d].status != Deleted
  }

  /**
    How careful callers are.  The code is `Free`: it does not look.  With `Repairs`, a repair
    only publishes what may be shown; with `Versions`, moreover, an update only fails on chunks
    of the version it restores; with `Counts`, moreover, on as many chunks as the record it
    restores says, no deletion of an indexed document crashes between its two calls, and a purge
    finds nothing to delete.
   */
  datatype Care = Free | Repairs | Versions | Counts {
    predicate Versioned() { Versions? || Counts? }
  }

  /** The chunks of `d` are those record `r` speaks of. */
  predicate Carries(care: Care, store: Store, d: Id, r: Record) {
    && (care.Versioned() ==> AllVersion(store, d, r.version))
    && (care.Counts? ==> |IdsOf(store, d)| == r.chunkCount)
  }

  /** Publishing what is stored of `d` exposes nothing, now or later. */
  predicate MayShow(s: State, d: Id)
    requires d in s.docs
  {
    NoChunks(s.store, d) || (s.docs[d].status == Indexed && !(d in s.pcs && s.pcs[d].UpdateHidden?))
  }

  predicate Enabled(care: Care, s: State, a: Action) {
    match a
    case BeginCreate(d) => d !in s.pcs && (d !in s.docs || s.docs[d].status == Deleted)
    case BeginUpdate(d) => Idle(s, d)
    case BeginDelete(d) => Idle(s, d)
    case Persist(d, batch) => Building(s, d) && FreshBatch(s.store, d, BuildVersion(s, d), batch)
    case FailBuild(d) =>
      Building(s, d) && (s.pcs[d].UpdateReindexing? ==> Carries(care, s.store, d, s.pcs[d].prior))
    case Proceed(d) => d in s.docs && d in s.pcs && !Building(s, d)
    case Crash(d) =>
      && d in s.docs && d in s.pcs
      && (care.Counts? && s.pcs[d].DeletedChunks? && s.docs[d].status == Indexed ==> s.docs[d].chunkCount == 0)
    case Repair(d, read) => d in s.docs && (!care.Free? && read == Indexed ==> MayShow(s, d))
    case Purge(d) => care.Counts? ==> NoChunks(s.store, d)
  }

  function Proceeded(s: State, d: Id): State
    requires d in s.docs && d in s.pcs
  {
    match s.pcs[d]
    case CreatePersisted(n) =>
      if Count(s, d) != n then At(s, d, CreateFailing)
      else At(MarkIndexed(s, d, n, s.docs[d].version), d, CreateIndexed)
    case CreateFailing => At(Mark(s, d, Failed), d, CreateFailed)
    case CreateFailed => Done(s.(store := DeleteDocument(s.store, d)), d)
    case CreateIndexed => Done(Publish(s, d), d)
    case Updating(prior) => At(Unpublish(s, d), d, UpdateHidden(prior))
    case UpdateHidden(prior) => At(Mark(s, d, Processing), d, UpdateReindexing(prior))
    case UpdatePersisted(prior, n) =>
      if Count(s, d) != n then At(s, d, UpdateFailing(prior))
      else At(MarkIndexed(s, d, n, prior.version + 1), d, UpdateRecorded)
    case UpdateFailing(prior) => At(MarkIndexed(s, d, prior.chunkCount, prior.version), d, UpdateRecorded)
    case UpdateRecorded => Done(Publish(s, d), d)
    case Deleting => At(s.(store := DeleteDocument(s.store, d)), d, DeletedChunks)
    case DeletedChunks => Done(Mark(s, d, Deleted), d)
    case _ => s
  }

  function Next(s: State, a: Action): State
    requires Enabled(Free, s, a)
  {
    match a
    case BeginCreate(d) => At(SetRecord(s, d, Record(Processing, 1, 0)), d, Creating)
    case BeginUpdate(d) => At(s, d, Updating(s.docs[d]))
    case BeginDelete(d) => At(s, d, Deleting)
    case Persist(d, batch) =>
      At(s.(store := Replace(s.store, d, batch)), d, Written(s.pcs[d], |batch|))
    case FailBuild(d) => At(s, d, if s.pcs[d].Creating? then CreateFailing else UpdateFailing(s.pcs[d].prior))
    case Proceed(d) => Proceeded(s, d)
    case Crash(d) => Done(s, d)
    case Repair(d, read) => if read == Indexed then Publish(s, d) else Unpublish(s, d)
    case Purge(d) => s.(store := DeleteDocument(s.store, d))
  }

  predicate Runs(care: Care, s: State, actions: seq<Action>)
    decreases |actions|
  {
    actions == [] || (Enabled(care, s, actions[0]) && Runs(care, Next(s, actions[0]), actions[1..]))
  }

  function Exec(s: State, actions: seq<Action>): State
    requires Runs(Free, s, actions)
    decreases |actions|
  {
    if actions == [] then s else Exec(Next(s, actions[0]), actions[1..])
  }

  // ----- The invariant

  /** No chunk of `d` is searchable. */
  predicate NoneIndexed(store: Store, d: Id) {
    forall c :: c in store.chunks && store.chunks[c].documentId == d ==> store.chunks[c].status != Some(INDEXED)
  }

  predicate NoChunks(store: Store, d: Id) {
    forall c :: c in store.chunks ==> store.chunks[c].documentId != d
  }

  /** The chunks of `d` are of one version and one status: they were built and published together. */
  ghost predicate Uniform(store: Store, d: Id) {
    forall b, c ::
      b in store.chunks && c in store.chunks && store.chunks[b].documentId == d == store.chunks[c].documentId ==>
        store.chunks[b].version == store.chunks[c].version && store.chunks[b].status == store.chunks[c].status
  }

  predicate Resting(care: Care, store: Store, d: Id, r: Record) {
    && (r.status == Indexed ==> Carries(care, store, d, r))
    && (r.status != Indexed ==> NoneIndexed(store, d))
    && (r.status == Deleted ==> NoChunks(store, d))
  }

  /** What holds of a document whose operation stands at `pc`. */
  predicate InFlight(care: Care, store: Store, d: Id, r: Record, pc: Pc) {
    match pc
    case Creating => r.status == Processing && NoChunks(store, d)
    case CreatePersisted(n) =>
      && r.status == Processing && NoneIndexed(store, d) && AllVersion(store, d, r.version)
      && (|IdsOf(store, d)| == n || (!care.Counts? && NoChunks(store, d)))
    case CreateFailing => r.status == Processing && NoChunks(store, d)
    case CreateFailed => r.status == Failed && NoChunks(store, d)
    case CreateIndexed => r.status == Indexed && Carries(care, store, d, r)
    case Updating(prior) => r == prior && r.status != Deleted && Resting(care, store, d, r)
    case UpdateHidden(prior) =>
      && r == prior && r.status != Deleted && NoneIndexed(store, d)
      && (r.status == Indexed ==> Carries(care, store, d, r))
    case UpdateReindexing(prior) => r.status == Processing && r.version == prior.version && NoneIndexed(store, d)
    case UpdatePersisted(prior, n) =>
      && r.status == Processing && NoneIndexed(store, d) && AllVersion(store, d, prior.version + 1)
      && r.version == prior.version && (|IdsOf(store, d)| == n || (!care.Counts? && NoChunks(store, d)))
    case UpdateFailing(prior) =>
      r.status == Processing && r.version == prior.version && NoneIndexed(store, d) && Carries(care, store, d, prior)
    case UpdateRecorded => r.status == Indexed && Carries(care, store, d, r)
    case Deleting => r.status != Deleted && Resting(care, store, d, r)
    case DeletedChunks => r.status != Deleted && NoChunks(store, d)
  }

  ghost predicate DocInv(care: Care, s: State, d: Id) {
    && Uniform(s.store, d)
    && if d !in s.docs then d !in s.pcs && NoChunks(s.store, d)
       else if d in s.pcs then InFlight(care, s.store, d, s.docs[d], s.pcs[d])
       else Resting(care, s.store, d, s.docs[d])
  }

  ghost predicate Inv(care: Care, s: State) {
    Consistent(s.store) && forall d: Id :: DocInv(care, s, d)
  }

  // ----- One action keeps it

  /** Nothing of document `e` differs. */
  ghost predicate Untouched(s: State, t: State, e: Id) {
    && ChunksOf(t.store, e) == ChunksOf(s.store, e) && IdsOf(t.store, e) == IdsOf(s.store, e)
    && (e in t.docs <==> e in s.docs) && (e in s.docs ==> t.docs[e] == s.docs[e])
    && (e in t.pcs <==> e in s.pcs) && (e in s.pcs ==> t.pcs[e] == s.pcs[e])
  }

  lemma UntouchedKeepsInv(care: Care, s: State, t: State, e: Id)
    requires DocInv(care, s, e) && Untouched(s, t, e)
    ensures DocInv(care, t, e)
  {
    forall c
      ensures c in s.store.chunks && s.store.chunks[c].documentId == e
              <==> c in t.store.chunks && t.store.chunks[c].documentId == e
      ensures c in s.store.chunks && s.store.chunks[c].documentId == e ==> t.store.chunks[c] == s.store.chunks[c]
    {
      assert c in ChunksOf(s.store, e) <==> c in ChunksOf(t.store, e);
      assert c in ChunksOf(s.store, e) ==> ChunksOf(s.store, e)[c] == ChunksOf(t.store, e)[c];
    }
  }

  /** An action on `d` leaves the other documents alone. */
  ghost predicate Local(s: State, t: State, d: Id) {
    Consistent(t.store) && forall e :: e != d ==> Untouched(s, t, e)
  }

  lemma SetStatusIsLocal(s: State, d: Id, status: string)
    requires Consistent(s.store)
    ensures Local(s, s.(store := SetStatus(s.store, d, status)), d)
  {
    SetStatusEffect(s.store, d, status);
  }

  lemma DeleteIsLocal(s: State, d: Id)
    requires Consistent(s.store)
    ensures Local(s, s.(store := DeleteDocument(s.store, d)), d)
  {
    DeleteEffect(s.store, d);
  }

  lemma ReplaceIsLocal(s: State, d: Id, version: int, batch: seq<StoredChunk>)
    requires Consistent(s.store) && FreshBatch(s.store, d, version, batch)
    ensures Local(s, s.(store := Replace(s.store, d, batch)), d)
  {
    ReplaceWithOwnIds(s.store, d, batch);
  }

  lemma NextIsLocal(s: State, a: Action)
    requires Consistent(s.store) && Enabled(Free, s, a)
    ensures Local(s, Next(s, a), a.d)
  {
    hide Untouched, Consistent, SetStatus, Replace, DeleteDocument;
    SetStatusIsLocal(s, a.d, INDEXED);
    SetStatusIsLocal(s, a.d, PROCESSING);
    DeleteIsLocal(s, a.d);
    if a.Persist? {
      ReplaceIsLocal(s, a.d, BuildVersion(s, a.d), a.batch);
    }
    forall e | e != a.d
      ensures Untouched(s, Next(s, a), e)
    {
      StoresDecide(s, s.(store := Next(s, a).store), Next(s, a), e);
    }
  }

  /** Records and counters of `d` do not matter to `e`. */
  lemma StoresDecide(s: State, t: State, u: State, e: Id)
    requires Untouched(s, t, e) || t == s
    requires u.store == t.store && t.docs == s.docs && t.pcs == s.pcs
    requires (e in u.docs <==> e in s.docs) && (e in s.docs ==> u.docs[e] == s.docs[e])
    requires (e in u.pcs <==> e in s.pcs) && (e in s.pcs ==> u.pcs[e] == s.pcs[e])
    ensures Untouched(s, u, e)
  {
  }

  /** The effect of a status on the chunks of `d`. */
  ghost predicate Restatused(before: Store, after: Store, d: Id, status: string) {
    && Uniform(after, d) && IdsOf(after, d) == IdsOf(before, d)
    && (forall v :: AllVersion(before, d, v) <==> AllVersion(after, d, v))
    && (NoChunks(before, d) <==> NoChunks(after, d))
    && (if status == INDEXED then NoneIndexed(after, d) <==> NoChunks(after, d) else NoneIndexed(after, d))
    && (NoChunks(before, d) ==> NoneIndexed(before, d))
  }

  lemma StatusOf(store: Store, d: Id, status: string)
    requires Consistent(store) && Uniform(store, d)
    ensures Restatused(store, SetStatus(store, d, status), d, status)
  {
    SetStatusEffect(store, d, status);
    var t := SetStatus(store, d, status);
    assert forall c :: c in store.chunks <==> c in t.chunks;
  }

  lemma DeletedOf(store: Store, d: Id)
    requires Consistent(store)
    ensures var t := DeleteDocument(store, d); NoChunks(t, d) && Uniform(t, d)
  {
    DeleteEffect(store, d);
    var t := DeleteDocument(store, d);
    forall c | c in t.chunks
      ensures t.chunks[c].documentId != d
    {
      assert c !in ChunksOf(t, d);
    }
  }

  lemma {:induction false} BatchMapOfDistinct(batch: seq<StoredChunk>)
    requires forall i, j :: 0 <= i < j < |batch| ==> batch[i].chunkId != batch[j].chunkId
    ensures |BatchMap(batch)| == |batch|
  {
    if batch != [] {
      var n := |batch| - 1;
      BatchMapOfDistinct(batch[..n]);
      LastIsNew(batch);
      MapGrows(BatchMap(batch[..n]), batch[n].chunkId, batch[n]);
    }
  }

  lemma LastIsNew(batch: seq<StoredChunk>)
    requires batch != [] && forall i, j :: 0 <= i < j < |batch| ==> batch[i].chunkId != batch[j].chunkId
    ensures batch[|batch| - 1].chunkId !in BatchMap(batch[..|batch| - 1])
  {
    hide BatchMap;
    var m := BatchMap(batch[..|batch| - 1]);
    assert forall c :: c in m ==> m[c] in batch[..|batch| - 1] && m[c].chunkId == c;
  }

  lemma MapGrows(m: map<Id, StoredChunk>, k: Id, v: StoredChunk)
    requires k !in m
    ensures |m[k := v]| == |m| + 1
  {
  }

  lemma ReplacedOf(store: Store, d: Id, version: int, batch: seq<StoredChunk>)
    requires Consistent(store) && FreshBatch(store, d, version, batch)
    ensures var t := Replace(store, d, batch);
            Uniform(t, d) && NoneIndexed(t, d) && AllVersion(t, d, version) && |IdsOf(t, d)| == |batch|
  {
    ReplaceWithOwnIds(store, d, batch);
    BatchMapOfDistinct(batch);
    var t := Replace(store, d, batch);
    assert |BatchMap(batch).Keys| == |BatchMap(batch)|;
    forall c | c in t.chunks && t.chunks[c].documentId == d
      ensures t.chunks[c].version == version && t.chunks[c].status == Some(PROCESSING)
    {
      assert c in ChunksOf(t, d) && ChunksOf(t, d)[c] == t.chunks[c];
      var i :| 0 <= i < |batch| && batch[i] == BatchMap(batch)[c];
    }
  }

  lemma ProceedByStatus(care: Care, s: State, d: Id)
    requires Consistent(s.store) && DocInv(care, s, d) && Enabled(care, s, Proceed(d))
    requires s.pcs[d].CreateIndexed? || s.pcs[d].Updating? || s.pcs[d].UpdateRecorded?
    ensures DocInv(care, Proceeded(s, d), d)
  {
    var status := if s.pcs[d].Updating? then PROCESSING else INDEXED;
    assert |INDEXED| != |PROCESSING|;
    StatusOf(s.store, d, status);
    var t, r, pc := SetStatus(s.store, d, status), s.docs[d], s.pcs[d];
    ProceededByStatus(s, d, status);
    hide SetStatus, AllVersion, NoneIndexed, NoChunks, Consistent, IdsOf, Proceeded;
    RestatusedInFlight(care, s.store, t, d, r, pc, status);
    assert Uniform(t, d) && (pc.Updating? ==> NoneIndexed(t, d));
    StatusStep(care, t, d, r, pc);
    hide Uniform, Restatused, InFlight, Resting;
  }

  lemma ProceededByStatus(s: State, d: Id, status: string)
    requires d in s.docs && d in s.pcs && (s.pcs[d].CreateIndexed? || s.pcs[d].Updating? || s.pcs[d].UpdateRecorded?)
    requires status == if s.pcs[d].Updating? then PROCESSING else INDEXED
    ensures var t := s.(store := SetStatus(s.store, d, status));
            Proceeded(s, d) == if s.pcs[d].Updating? then At(t, d, UpdateHidden(s.pcs[d].prior)) else Done(t, d)
  {
    hide SetStatus;
  }

  lemma StatusStep(care: Care, store: Store, d: Id, r: Record, pc: Pc)
    requires InFlight(care, store, d, r, pc)
    ensures pc.CreateIndexed? || pc.UpdateRecorded? ==> Resting(care, store, d, r)
    ensures pc.Updating? && NoneIndexed(store, d) ==> InFlight(care, store, d, r, UpdateHidden(pc.prior))
  {
    hide AllVersion, NoneIndexed, NoChunks, IdsOf;
  }

  lemma ProceedByRecord(care: Care, s: State, d: Id)
    requires Consistent(s.store) && DocInv(care, s, d) && Enabled(care, s, Proceed(d))
    requires s.pcs[d].CreatePersisted? || s.pcs[d].CreateFailing? || s.pcs[d].UpdateHidden? || s.pcs[d].UpdatePersisted?
             || s.pcs[d].UpdateFailing? || s.pcs[d].DeletedChunks?
    ensures DocInv(care, Proceeded(s, d), d)
  {
    EmptyFacts(s.store, d);
    hide AllVersion, NoneIndexed, NoChunks, Uniform, Consistent;
  }

  lemma ProceedByDelete(care: Care, s: State, d: Id)
    requires Consistent(s.store) && DocInv(care, s, d) && Enabled(care, s, Proceed(d))
    requires s.pcs[d].CreateFailed? || s.pcs[d].Deleting?
    ensures DocInv(care, Proceeded(s, d), d)
  {
    DeletedOf(s.store, d);
    EmptyFacts(DeleteDocument(s.store, d), d);
    hide DeleteDocument, AllVersion, NoneIndexed, NoChunks, Uniform, Consistent;
  }

  lemma ProceedKeepsDocInv(care: Care, s: State, d: Id)
    requires Consistent(s.store) && DocInv(care, s, d) && Enabled(care, s, Proceed(d))
    ensures DocInv(care, Proceeded(s, d), d)
  {
    hide DocInv, Proceeded, Consistent;
    match s.pcs[d] {
      case CreateIndexed | Updating(_) | UpdateRecorded => ProceedByStatus(care, s, d);
      case CreateFailed | Deleting => ProceedByDelete(care, s, d);
      case _ => ProceedByRecord(care, s, d);
    }
  }

  /** A document without chunks satisfies everything said of its chunks. */
  lemma EmptyFacts(store: Store, d: Id)
    ensures NoChunks(store, d) ==> NoneIndexed(store, d) && forall v :: AllVersion(store, d, v)
  {
  }

  lemma WrittenInFlight(care: Care, before: Store, after: Store, d: Id, r: Record, pc: Pc, n: nat)
    requires pc.Creating? || pc.UpdateReindexing?
    requires InFlight(care, before, d, r, pc)
    requires NoneIndexed(after, d) && |IdsOf(after, d)| == n
    requires AllVersion(after, d, if pc.UpdateReindexing? then pc.prior.version + 1 else r.version)
    ensures InFlight(care, after, d, r, Written(pc, n))
  {
    hide NoneIndexed, AllVersion, IdsOf;
  }

  lemma PersistKeepsDocInv(care: Care, s: State, d: Id, batch: seq<StoredChunk>)
    requires Consistent(s.store) && DocInv(care, s, d) && Enabled(care, s, Persist(d, batch))
    ensures DocInv(care, Next(s, Persist(d, batch)), d)
  {
    hide Replace, FreshBatch, NoneIndexed, AllVersion, NoChunks, Uniform, Consistent, InFlight, IdsOf;
    ReplacedOf(s.store, d, BuildVersion(s, d), batch);
    WrittenInFlight(care, s.store, Replace(s.store, d, batch), d, s.docs[d], s.pcs[d], |batch|);
  }

  /** A repair keeps the invariant of its document exactly if it does not publish what may not be shown. */
  lemma RepairKeepsDocInvIff(care: Care, s: State, d: Id, read: Status)
    requires Consistent(s.store) && DocInv(care, s, d) && d in s.docs
    ensures DocInv(care, Next(s, Repair(d, read)), d) <==> (read == Indexed ==> MayShow(s, d))
  {
    var status := if read == Indexed then INDEXED else PROCESSING;
    var t := SetStatus(s.store, d, status);
    assert |INDEXED| != |PROCESSING|;
    StatusOf(s.store, d, status);
    assert Next(s, Repair(d, read)) == s.(store := t);
    hide SetStatus, AllVersion, NoneIndexed, NoChunks, Consistent, IdsOf, InFlight, Resting, Next;
    if d in s.pcs {
      RestatusedInFlight(care, s.store, t, d, s.docs[d], s.pcs[d], status);
    } else {
      RestatusedResting(care, s.store, t, d, s.docs[d], status);
    }
    assert Uniform(t, d);
    hide Uniform, Restatused;
  }

  lemma RestatusedResting(care: Care, before: Store, after: Store, d: Id, r: Record, status: string)
    requires Resting(care, before, d, r) && Restatused(before, after, d, status)
    ensures Resting(care, after, d, r) <==> (status == INDEXED ==> NoChunks(before, d) || r.status == Indexed)
  {
    hide AllVersion, NoneIndexed, NoChunks, IdsOf, Uniform;
  }

  lemma RestatusedInFlight(care: Care, before: Store, after: Store, d: Id, r: Record, pc: Pc, status: string)
    requires InFlight(care, before, d, r, pc) && Restatused(before, after, d, status)
    ensures InFlight(care, after, d, r, pc)
       <==> (status == INDEXED ==> NoChunks(before, d) || (r.status == Indexed && !pc.UpdateHidden?))
  {
    hide AllVersion, NoneIndexed, NoChunks, IdsOf, Uniform;
  }

  lemma CrashKeepsDocInv(care: Care, s: State, d: Id)
    requires Consistent(s.store) && DocInv(care, s, d) && Enabled(care, s, Crash(d))
    ensures DocInv(care, Next(s, Crash(d)), d)
  {
    EmptyFacts(s.store, d);
    NoChunksNoIds(s.store, d);
    hide AllVersion, NoneIndexed, NoChunks, Uniform, Consistent, IdsOf;
  }

  lemma NoChunksNoIds(store: Store, d: Id)
    requires Consistent(store)
    ensures NoChunks(store, d) ==> IdsOf(store, d) == {}
  {
    assert forall c :: c in IdsOf(store, d) ==> c in store.chunks && store.chunks[c].documentId == d;
    if IdsOf(store, d) != {} {
      var c :| c in IdsOf(store, d);
    }
  }

  lemma PurgeKeepsDocInv(care: Care, s: State, d: Id)
    requires Consistent(s.store) && DocInv(care, s, d) && Enabled(care, s, Purge(d))
    ensures DocInv(care, Next(s, Purge(d)), d)
  {
    var t := DeleteDocument(s.store, d);
    DeletedOf(s.store, d);
    DeleteEffect(s.store, d);
    EmptyFacts(t, d);
    NoChunksNoIds(s.store, d);
    NoChunksNoIds(t, d);
    assert Next(s, Purge(d)) == s.(store := t);
    hide DeleteDocument, AllVersion, NoneIndexed, NoChunks, Consistent, IdsOf, Next, InFlight, Resting;
    if d in s.docs && d in s.pcs {
      EmptiedInFlight(care, s.store, t, d, s.docs[d], s.pcs[d]);
    } else if d in s.docs {
      EmptiedResting(care, s.store, t, d, s.docs[d]);
    }
    assert Uniform(t, d);
    hide Uniform;
  }

  /** The chunks of `d` are gone; where they are counted, there were none. */
  ghost predicate Emptied(care: Care, before: Store, after: Store, d: Id) {
    && NoChunks(after, d) && NoneIndexed(after, d) && (forall v :: AllVersion(after, d, v))
    && (care.Counts? ==> IdsOf(after, d) == IdsOf(before, d))
  }

  lemma EmptiedResting(care: Care, before: Store, after: Store, d: Id, r: Record)
    requires Resting(care, before, d, r) && Emptied(care, before, after, d)
    ensures Resting(care, after, d, r)
  {
    hide AllVersion, NoneIndexed, NoChunks, IdsOf;
  }

  lemma EmptiedInFlight(care: Care, before: Store, after: Store, d: Id, r: Record, pc: Pc)
    requires InFlight(care, before, d, r, pc) && Emptied(care, before, after, d)
    ensures InFlight(care, after, d, r, pc)
  {
    hide AllVersion, NoneIndexed, NoChunks, IdsOf;
  }

  lemma NextKeepsDocInv(care: Care, s: State, a: Action)
    requires !care.Free? && Consistent(s.store) && DocInv(care, s, a.d) && Enabled(care, s, a)
    ensures DocInv(care, Next(s, a), a.d)
  {
    match a {
      case Proceed(d) => ProceedKeepsDocInv(care, s, d);
      case Persist(d, batch) => PersistKeepsDocInv(care, s, d, batch);
      case Repair(d, read) => RepairKeepsDocInvIff(care, s, d, read);
      case Crash(d) => CrashKeepsDocInv(care, s, d);
      case Purge(d) => PurgeKeepsDocInv(care, s, d);
      case _ =>
        EmptyFacts(s.store, a.d);
        hide AllVersion, NoneIndexed, NoChunks, Uniform, Consistent;
    }
  }

  lemma NextKeepsInv(care: Care, s: State, a: Action)
    requires !care.Free? && Inv(care, s) && Enabled(care, s, a)
    ensures Inv(care, Next(s, a))
  {
    hide DocInv, Untouched, Next, Enabled;
    Weaken(care, s, a);
    NextIsLocal(s, a);
    NextKeepsDocInv(care, s, a);
    forall e: Id | e != a.d
      ensures DocInv(care, Next(s, a), e)
    {
      UntouchedKeepsInv(care, s, Next(s, a), e);
    }
  }

  lemma Weaken(care: Care, s: State, a: Action)
    requires Enabled(care, s, a)
    ensures Enabled(Free, s, a)
  {
  }

  lemma {:induction false} RunKeepsInv(care: Care, s: State, actions: seq<Action>)
    requires !care.Free? && Inv(care, s) && Runs(care, s, actions)
    ensures Runs(Free, s, actions) && Inv(care, Exec(s, actions))
    decreases |actions|
  {
    hide Inv, Enabled, Next;
    if actions != [] {
      Weaken(care, s, actions[0]);
      NextKeepsInv(care, s, actions[0]);
      RunKeepsInv(care, Next(s, actions[0]), actions[1..]);
    }
  }

  lemma EmptyInv(care: Care)
    ensures Inv(care, EMPTY)
  {
  }

  // ----- Main result 1: hidden content is never searchable

  /** A searchable chunk belongs to a document recorded as indexed, which is searchable whole, at one version. */
  ghost predicate Safe(s: State) {
    forall c :: c in s.store.chunks && s.store.chunks[c].status == Some(INDEXED) ==>
                  var d := s.store.chunks[c].documentId;
                  && d in s.docs && s.docs[d].status == Indexed
                  && forall b :: b in s.store.chunks && s.store.chunks[b].documentId == d ==>
                                   && s.store.chunks[b].status == Some(INDEXED)
                                   && s.store.chunks[b].version == s.store.chunks[c].version
  }

  /** The searchable chunks of `d` carry the recorded version. */
  predicate Agrees(s: State, d: Id) {
    d in s.docs ==>
      forall c ::
        c in s.store.chunks && s.store.chunks[c].documentId == d && s.store.chunks[c].status == Some(INDEXED) ==>
          s.store.chunks[c].version == s.docs[d].version
  }

  /** A document at rest that is recorded as indexed has as many chunks as its record says. */
  predicate Complete(s: State, d: Id) {
    d in s.docs && d !in s.pcs && s.docs[d].status == Indexed ==> Count(s, d) == s.docs[d].chunkCount
  }

  lemma InvIsSafe(care: Care, s: State)
    requires Inv(care, s)
    ensures Safe(s)
    ensures care.Versioned() ==> forall d :: Agrees(s, d)
    ensures care.Counts? ==> forall d :: Complete(s, d)
  {
    forall d | care.Counts?
      ensures Complete(s, d)
    {
      assert DocInv(care, s, d);
    }
    forall c | c in s.store.chunks && s.store.chunks[c].status == Some(INDEXED)
      ensures var d := s.store.chunks[c].documentId;
              && d in s.docs && s.docs[d].status == Indexed
              && (care.Versioned() ==> s.store.chunks[c].version == s.docs[d].version)
              && forall b :: b in s.store.chunks && s.store.chunks[b].documentId == d ==>
                               && s.store.chunks[b].status == Some(INDEXED)
                               && s.store.chunks[b].version == s.store.chunks[c].version
    {
      IndexedChunk(care, s, c);
    }
  }

  lemma IndexedChunk(care: Care, s: State, c: Id)
    requires Inv(care, s) && c in s.store.chunks && s.store.chunks[c].status == Some(INDEXED)
    ensures var d := s.store.chunks[c].documentId;
            && d in s.docs && s.docs[d].status == Indexed
            && (care.Versioned() ==> s.store.chunks[c].version == s.docs[d].version)
            && forall b :: b in s.store.chunks && s.store.chunks[b].documentId == d ==>
                             && s.store.chunks[b].status == Some(INDEXED)
                             && s.store.chunks[b].version == s.store.chunks[c].version
  {
    var d := s.store.chunks[c].documentId;
    assert DocInv(care, s, d);
    assert !NoneIndexed(s.store, d) && !NoChunks(s.store, d);
  }

  /**
    At every step of every interleaving of creates, updates and deletes over any documents,
    with failures, crashes, repairs and purges anywhere, only chunks of documents recorded as indexed
    are searchable, and a document is searchable whole and at one version, as long as no repair
    publishes chunks it may not show.  If moreover updates only fail on chunks of the version
    they restore, that version is the recorded one, however many updates crashed and were
    retried; and if they only fail on as many chunks as they record, and no deletion crashes
    halfway, documents recorded as indexed have all their chunks.
   */
  lemma EveryRunIsSafe(care: Care, actions: seq<Action>)
    requires !care.Free? && Runs(care, EMPTY, actions)
    ensures Runs(Free, EMPTY, actions)
    ensures Inv(care, Exec(EMPTY, actions)) && Safe(Exec(EMPTY, actions))
    ensures care.Versioned() ==> forall d :: Agrees(Exec(EMPTY, actions), d)
    ensures care.Counts? ==> forall d :: Complete(Exec(EMPTY, actions), d)
  {
    EmptyInv(care);
    RunKeepsInv(care, EMPTY, actions);
    InvIsSafe(care, Exec(EMPTY, actions));
  }

  /** No action of the run makes an update fail. */
  predicate NoUpdateFails(s: State, actions: seq<Action>)
    requires Runs(Free, s, actions)
    decreases |actions|
  {
    actions == []
    || (&& (actions[0].FailBuild? ==> s.pcs[actions[0].d].Creating?)
        && NoUpdateFails(Next(s, actions[0]), actions[1..]))
  }

  /** Whatever crashes and is retried, the condition on versions only constrains updates that fail. */
  lemma {:induction false} RunsWithoutFailedUpdatesAreVersioned(s: State, actions: seq<Action>)
    requires Runs(Repairs, s, actions) && Runs(Free, s, actions) && NoUpdateFails(s, actions)
    ensures Runs(Versions, s, actions)
    decreases |actions|
  {
    hide Next;
    if actions != [] {
      RunsWithoutFailedUpdatesAreVersioned(Next(s, actions[0]), actions[1..]);
    }
  }

  /** Whoever searches without an explicit list of documents only gets such chunks. */
  lemma SearchSeesOnlyIndexedDocuments(care: Care, actions: seq<Action>, listing: seq<StoredChunk>, scope: Scope,
                                       i: nat)
    requires !care.Free? && Runs(care, EMPTY, actions) && scope.documentIds == None
    requires Runs(Free, EMPTY, actions)
    requires forall c :: c in listing ==>
             c.chunkId in Exec(EMPTY, actions).store.chunks && Exec(EMPTY, actions).store.chunks[c.chunkId] == c
    requires i < |listing| && InPool(listing[i], scope)
    ensures var s := Exec(EMPTY, actions);
            && listing[i].documentId in s.docs && s.docs[listing[i].documentId].status == Indexed
            && (care.Versioned() ==> listing[i].version == s.docs[listing[i].documentId].version)
  {
    EveryRunIsSafe(care, actions);
    assert listing[i] in listing;
    IndexedChunk(care, Exec(EMPTY, actions), listing[i].chunkId);
  }
}
