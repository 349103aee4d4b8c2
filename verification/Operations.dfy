/**
  The operations of rag/ingestion/pipeline.py and rag/ingestion/service.py as runs of the
  lifecycle: what each of them leads to, and what a failed or crashed one leaves behind.
 */
module Operations {
  import opened Prelude
  import opened Types
  import opened VectorSearch
  import opened ChunkStore
  import opened Lifecycle

  // ----- Whole operations

  lemma RunNothing(s: State)
    ensures Runs(Free, s, []) && Exec(s, []) == s
  {
  }

  lemma RunOne(s: State, a: Action, rest: seq<Action>, t: State)
    requires Enabled(Free, s, a) && Next(s, a) == t && Runs(Free, t, rest)
    ensures Runs(Free, s, [a] + rest) && Exec(s, [a] + rest) == Exec(t, rest)
  {
    assert ([a] + rest)[1..] == rest;
  }

  /** Two actions, one after the other. */
  lemma RunTwo(s: State, a: Action, t: State, b: Action, u: State)
    requires Enabled(Free, s, a) && Next(s, a) == t && Enabled(Free, t, b) && Next(t, b) == u
    ensures Runs(Free, s, [a, b]) && Exec(s, [a, b]) == u
  {
    RunNothing(u);
    hide *;
    assert [b] + [] == [b] && [a] + [b] == [a, b];
    RunOne(t, b, [], u);
    RunOne(s, a, [b], t);
  }

  lemma RunThree(s: State, a: Action, t: State, b: Action, u: State, c: Action, v: State)
    requires Enabled(Free, s, a) && Next(s, a) == t && Enabled(Free, t, b) && Next(t, b) == u && Enabled(Free, u, c)
             && Next(u, c) == v
    ensures Runs(Free, s, [a] + [b, c]) && Exec(s, [a] + [b, c]) == v
  {
    hide *;
    RunTwo(t, b, u, c, v);
    RunOne(s, a, [b, c], t);
  }

  /** A first run followed by three more actions. */
  lemma ThenThree(r: State, first: seq<Action>, s: State, a: Action, t: State, b: Action, u: State, c: Action, v: State)
    requires Runs(Free, r, first) && Exec(r, first) == s
    requires Enabled(Free, s, a) && Next(s, a) == t && Enabled(Free, t, b) && Next(t, b) == u && Enabled(Free, u, c)
             && Next(u, c) == v
    ensures Runs(Free, r, first + ([a] + [b, c])) && Exec(r, first + ([a] + [b, c])) == v
  {
    hide *;
    RunThree(s, a, t, b, u, c, v);
    RunsConcat(r, first, [a] + [b, c]);
  }

  lemma ThenTwo(r: State, first: seq<Action>, s: State, a: Action, t: State, b: Action, u: State)
    requires Runs(Free, r, first) && Exec(r, first) == s
    requires Enabled(Free, s, a) && Next(s, a) == t && Enabled(Free, t, b) && Next(t, b) == u
    ensures Runs(Free, r, first + [a, b]) && Exec(r, first + [a, b]) == u
  {
    hide *;
    RunTwo(s, a, t, b, u);
    RunsConcat(r, first, [a, b]);
  }

  lemma {:induction false} RunsConcat(s: State, a: seq<Action>, b: seq<Action>)
    requires Runs(Free, s, a) && Runs(Free, Exec(s, a), b)
    ensures Runs(Free, s, a + b) && Exec(s, a + b) == Exec(Exec(s, a), b)
    decreases |a|
  {
    hide Enabled, Next;
    if a == [] {
      assert a + b == b;
    } else {
      assert (a + b)[1..] == a[1..] + b;
      RunsConcat(Next(s, a[0]), a[1..], b);
    }
  }

  function SuccessfulCreate(d: Id, batch: seq<StoredChunk>): seq<Action> {
    [BeginCreate(d), Persist(d, batch)] + [Proceed(d), Proceed(d)]
  }

  function FailedCreate(d: Id): seq<Action> {
    [BeginCreate(d), FailBuild(d)] + [Proceed(d), Proceed(d)]
  }

  /** An update until its chunks are hidden and its record is out of the indexed status. */
  function StartUpdate(d: Id): seq<Action> {
    [BeginUpdate(d)] + [Proceed(d), Proceed(d)]
  }

  function SuccessfulUpdate(d: Id, batch: seq<StoredChunk>): seq<Action> {
    StartUpdate(d) + ([Persist(d, batch)] + [Proceed(d), Proceed(d)])
  }

  function FailedUpdate(d: Id): seq<Action> {
    StartUpdate(d) + ([FailBuild(d)] + [Proceed(d), Proceed(d)])
  }

  function CrashedUpdate(d: Id, batch: seq<StoredChunk>): seq<Action> {
    StartUpdate(d) + [Persist(d, batch), Crash(d)]
  }

  function Deletion(d: Id): seq<Action> {
    [BeginDelete(d)] + [Proceed(d), Proceed(d)]
  }

  lemma PcsRestored(s: State, d: Id, pc: Pc)
    requires d !in s.pcs
    ensures s.pcs[d := pc] - {d} == s.pcs
  {
  }

  lemma ReindexingBuilds(s: State, d: Id)
    requires Consistent(s.store) && Idle(s, d)
    ensures var t := Reindexing(s, d);
            && Consistent(t.store) && Building(t, d) && BuildVersion(t, d) == s.docs[d].version + 1
            && t.pcs[d] == UpdateReindexing(s.docs[d]) && t.store == SetStatus(s.store, d, PROCESSING)
  {
    SetStatusEffect(s.store, d, PROCESSING);
    hide SetStatus, Consistent;
  }

  /** What an update has written when its chunks are replaced. */
  function Rewritten(s: State, d: Id, batch: seq<StoredChunk>): State
    requires d in s.docs
  {
    State(s.docs[d := s.docs[d].(status := Processing)], Replace(SetStatus(s.store, d, PROCESSING), d, batch),
          s.pcs[d := UpdatePersisted(s.docs[d], |batch|)])
  }

  lemma RewriteStep(s: State, d: Id, batch: seq<StoredChunk>)
    requires Consistent(s.store) && Idle(s, d)
             && FreshBatch(SetStatus(s.store, d, PROCESSING), d, s.docs[d].version + 1, batch)
    ensures Enabled(Free, Reindexing(s, d), Persist(d, batch))
    ensures Next(Reindexing(s, d), Persist(d, batch)) == Rewritten(s, d, batch)
    ensures Count(Rewritten(s, d, batch), d) == |batch|
  {
    assert d in s.docs;
    hide *;
    ReindexingBuilds(s, d);
    PersistStep(Reindexing(s, d), d, batch);
    RewrittenIsNext(s, d, batch);
  }

  lemma RewrittenIsNext(s: State, d: Id, batch: seq<StoredChunk>)
    requires d in s.docs
    ensures At(Reindexing(s, d).(store := Replace(Reindexing(s, d).store, d, batch)), d,
               Written(UpdateReindexing(s.docs[d]), |batch|))
         == Rewritten(s, d, batch)
  {
    hide Replace, SetStatus;
  }

  lemma RecordUpdate(s: State, d: Id, prior: Record, n: nat)
    requires d in s.docs && d in s.pcs && s.pcs[d] == UpdatePersisted(prior, n) && Count(s, d) == n
    ensures Enabled(Free, s, Proceed(d))
    ensures Next(s, Proceed(d)) == At(MarkIndexed(s, d, n, prior.version + 1), d, UpdateRecorded)
  {
    hide IdsOf;
  }

  lemma PublishUpdate(s: State, d: Id)
    requires d in s.docs && d in s.pcs && s.pcs[d] == UpdateRecorded
    ensures Enabled(Free, s, Proceed(d)) && Next(s, Proceed(d)) == Done(Publish(s, d), d)
  {
    hide SetStatus;
  }

  lemma PersistStep(s: State, d: Id, batch: seq<StoredChunk>)
    requires Consistent(s.store) && Building(s, d) && FreshBatch(s.store, d, BuildVersion(s, d), batch)
    ensures Enabled(Free, s, Persist(d, batch))
    ensures Next(s, Persist(d, batch)) == At(s.(store := Replace(s.store, d, batch)), d, Written(s.pcs[d], |batch|))
    ensures Count(Next(s, Persist(d, batch)), d) == |batch|
  {
    hide FreshBatch, Replace, IdsOf, Consistent, Uniform, NoneIndexed, AllVersion;
    ReplacedOf(s.store, d, BuildVersion(s, d), batch);
  }

  lemma SuccessfulCreateResult(s: State, d: Id, batch: seq<StoredChunk>)
    requires Consistent(s.store) && Enabled(Free, s, BeginCreate(d)) && FreshBatch(s.store, d, 1, batch)
    ensures Runs(Free, s, SuccessfulCreate(d, batch))
    ensures Exec(s, SuccessfulCreate(d, batch))
         == State(s.docs[d := Record(Indexed, 1, |batch|)], SetStatus(Replace(s.store, d, batch), d, INDEXED), s.pcs)
  {
    hide Runs, Exec, Replace, SetStatus, FreshBatch, AllVersion, IdsOf, Consistent;
    var s1 := At(SetRecord(s, d, Record(Processing, 1, 0)), d, Creating);
    PersistStep(s1, d, batch);
    var s2 := Next(s1, Persist(d, batch));
    var s3 := At(MarkIndexed(s2, d, |batch|, 1), d, CreateIndexed);
    var s4 := Done(Publish(s3, d), d);
    PcsRestored(s, d, CreateIndexed);
    RunTwo(s, BeginCreate(d), s1, Persist(d, batch), s2);
    RunTwo(s2, Proceed(d), s3, Proceed(d), s4);
    RunsConcat(s, [BeginCreate(d), Persist(d, batch)], [Proceed(d), Proceed(d)]);
  }

  lemma FailedCreateResult(s: State, d: Id)
    requires Enabled(Free, s, BeginCreate(d))
    ensures Runs(Free, s, FailedCreate(d))
    ensures Exec(s, FailedCreate(d)) == State(s.docs[d := Record(Failed, 1, 0)], DeleteDocument(s.store, d), s.pcs)
  {
    hide Runs, Exec, DeleteDocument;
    var s1 := At(SetRecord(s, d, Record(Processing, 1, 0)), d, Creating);
    var s2 := At(s1, d, CreateFailing);
    var s3 := At(Mark(s2, d, Failed), d, CreateFailed);
    var s4 := Done(s3.(store := DeleteDocument(s.store, d)), d);
    PcsRestored(s, d, CreateFailed);
    RunTwo(s, BeginCreate(d), s1, FailBuild(d), s2);
    RunTwo(s2, Proceed(d), s3, Proceed(d), s4);
    RunsConcat(s, [BeginCreate(d), FailBuild(d)], [Proceed(d), Proceed(d)]);
  }

  /** The state an update builds in. */
  function Reindexing(s: State, d: Id): State
    requires d in s.docs
  {
    State(s.docs[d := s.docs[d].(status := Processing)], SetStatus(s.store, d, PROCESSING),
          s.pcs[d := UpdateReindexing(s.docs[d])])
  }

  lemma StartUpdateResult(s: State, d: Id)
    requires Idle(s, d)
    ensures Runs(Free, s, StartUpdate(d)) && Exec(s, StartUpdate(d)) == Reindexing(s, d)
  {
    hide Runs, Exec, SetStatus;
    var r := s.docs[d];
    var s1 := At(s, d, Updating(r));
    var s2 := At(Unpublish(s1, d), d, UpdateHidden(r));
    var s3 := At(Mark(s2, d, Processing), d, UpdateReindexing(r));
    assert s3 == Reindexing(s, d);
    RunTwo(s1, Proceed(d), s2, Proceed(d), s3);
    RunOne(s, BeginUpdate(d), [Proceed(d), Proceed(d)], s1);
  }

  lemma SuccessfulUpdateResult(s: State, d: Id, batch: seq<StoredChunk>)
    requires Consistent(s.store) && Idle(s, d)
             && FreshBatch(SetStatus(s.store, d, PROCESSING), d, s.docs[d].version + 1, batch)
    ensures Runs(Free, s, SuccessfulUpdate(d, batch))
    ensures Exec(s, SuccessfulUpdate(d, batch))
         == State(s.docs[d := Record(Indexed, s.docs[d].version + 1, |batch|)],
                  SetStatus(Replace(SetStatus(s.store, d, PROCESSING), d, batch), d, INDEXED), s.pcs)
  {
    StartUpdateResult(s, d);
    RewriteStep(s, d, batch);
    UpdatedState(s, d, batch);
    hide *;
    UpdateTail(s, d, batch);
  }

  lemma UpdateTail(s: State, d: Id, batch: seq<StoredChunk>)
    requires d in s.docs && Runs(Free, s, StartUpdate(d)) && Exec(s, StartUpdate(d)) == Reindexing(s, d)
    requires Enabled(Free, Reindexing(s, d), Persist(d, batch))
    requires Next(Reindexing(s, d), Persist(d, batch)) == Rewritten(s, d, batch)
             && Count(Rewritten(s, d, batch), d) == |batch|
    ensures Runs(Free, s, SuccessfulUpdate(d, batch))
    ensures Exec(s, SuccessfulUpdate(d, batch))
         == Done(Publish(At(MarkIndexed(Rewritten(s, d, batch), d, |batch|, s.docs[d].version + 1), d,
                            UpdateRecorded), d), d)
  {
    hide Replace, SetStatus, AllVersion, FreshBatch, IdsOf, Runs, Exec;
    var s4 := Rewritten(s, d, batch);
    RecordUpdate(s4, d, s.docs[d], |batch|);
    var s5 := At(MarkIndexed(s4, d, |batch|, s.docs[d].version + 1), d, UpdateRecorded);
    PublishUpdate(s5, d);
    assert SuccessfulUpdate(d, batch) == StartUpdate(d) + ([Persist(d, batch)] + [Proceed(d), Proceed(d)]);
    hide *;
    ThenThree(s, StartUpdate(d), Reindexing(s, d), Persist(d, batch), s4, Proceed(d), s5, Proceed(d),
              Done(Publish(s5, d), d));
  }

  lemma UpdatedState(s: State, d: Id, batch: seq<StoredChunk>)
    requires Idle(s, d)
    ensures Done(Publish(At(MarkIndexed(Rewritten(s, d, batch), d, |batch|, s.docs[d].version + 1), d,
                            UpdateRecorded), d), d)
         == State(s.docs[d := Record(Indexed, s.docs[d].version + 1, |batch|)],
                  SetStatus(Replace(SetStatus(s.store, d, PROCESSING), d, batch), d, INDEXED), s.pcs)
  {
    hide Replace, SetStatus;
  }

  lemma FailedUpdateResult(s: State, d: Id)
    requires Idle(s, d)
    ensures Runs(Free, s, FailedUpdate(d))
    ensures Exec(s, FailedUpdate(d))
         == State(s.docs[d := Record(Indexed, s.docs[d].version, s.docs[d].chunkCount)],
                  SetStatus(SetStatus(s.store, d, PROCESSING), d, INDEXED), s.pcs)
  {
    StartUpdateResult(s, d);
    FailedState(s, d);
    hide *;
    FailureTail(s, d);
  }

  lemma FailureTail(s: State, d: Id)
    requires d in s.docs && Runs(Free, s, StartUpdate(d)) && Exec(s, StartUpdate(d)) == Reindexing(s, d)
    ensures Runs(Free, s, FailedUpdate(d))
    ensures Exec(s, FailedUpdate(d)) == FailedOver(s, d)
  {
    hide SetStatus, Runs, Exec;
    var r, s3 := s.docs[d], Reindexing(s, d);
    var s4 := At(s3, d, UpdateFailing(r));
    var s5 := At(MarkIndexed(s4, d, r.chunkCount, r.version), d, UpdateRecorded);
    assert FailedUpdate(d) == StartUpdate(d) + ([FailBuild(d)] + [Proceed(d), Proceed(d)]);
    assert Enabled(Free, s3, FailBuild(d)) && Next(s3, FailBuild(d)) == s4;
    assert Enabled(Free, s4, Proceed(d)) && Next(s4, Proceed(d)) == s5;
    PublishUpdate(s5, d);
    hide *;
    ThenThree(s, StartUpdate(d), s3, FailBuild(d), s4, Proceed(d), s5, Proceed(d), FailedOver(s, d));
  }

  /** The state after the last call of a failed update. */
  ghost function FailedOver(s: State, d: Id): State
    requires d in s.docs
  {
    var r := s.docs[d];
    var s4 := At(Reindexing(s, d), d, UpdateFailing(r));
    Done(Publish(At(MarkIndexed(s4, d, r.chunkCount, r.version), d, UpdateRecorded), d), d)
  }

  lemma FailedState(s: State, d: Id)
    requires Idle(s, d)
    ensures FailedOver(s, d)
         == State(s.docs[d := Record(Indexed, s.docs[d].version, s.docs[d].chunkCount)],
                  SetStatus(SetStatus(s.store, d, PROCESSING), d, INDEXED), s.pcs)
  {
    hide SetStatus;
  }

  lemma CrashedUpdateResult(s: State, d: Id, batch: seq<StoredChunk>)
    requires Consistent(s.store) && Idle(s, d)
             && FreshBatch(SetStatus(s.store, d, PROCESSING), d, s.docs[d].version + 1, batch)
    ensures Runs(Free, s, CrashedUpdate(d, batch))
    ensures Exec(s, CrashedUpdate(d, batch))
         == State(s.docs[d := s.docs[d].(status := Processing)],
                  Replace(SetStatus(s.store, d, PROCESSING), d, batch), s.pcs)
  {
    StartUpdateResult(s, d);
    RewriteStep(s, d, batch);
    CrashedState(s, d, batch);
    hide *;
    CrashTail(s, d, batch);
  }

  lemma CrashTail(s: State, d: Id, batch: seq<StoredChunk>)
    requires d in s.docs && Runs(Free, s, StartUpdate(d)) && Exec(s, StartUpdate(d)) == Reindexing(s, d)
    requires Enabled(Free, Reindexing(s, d), Persist(d, batch))
             && Next(Reindexing(s, d), Persist(d, batch)) == Rewritten(s, d, batch)
    ensures Runs(Free, s, CrashedUpdate(d, batch))
    ensures Exec(s, CrashedUpdate(d, batch)) == Done(Rewritten(s, d, batch), d)
  {
    hide Replace, SetStatus, AllVersion, FreshBatch, IdsOf, Runs, Exec;
    var s4 := Rewritten(s, d, batch);
    assert Enabled(Free, s4, Crash(d)) && Next(s4, Crash(d)) == Done(s4, d);
    assert CrashedUpdate(d, batch) == StartUpdate(d) + [Persist(d, batch), Crash(d)];
    hide *;
    ThenTwo(s, StartUpdate(d), Reindexing(s, d), Persist(d, batch), s4, Crash(d), Done(s4, d));
  }

  lemma CrashedState(s: State, d: Id, batch: seq<StoredChunk>)
    requires Idle(s, d)
    ensures Done(Rewritten(s, d, batch), d)
         == State(s.docs[d := s.docs[d].(status := Processing)],
                  Replace(SetStatus(s.store, d, PROCESSING), d, batch), s.pcs)
  {
    hide Replace, SetStatus;
  }

  lemma DeletionResult(s: State, d: Id)
    requires Idle(s, d)
    ensures Runs(Free, s, Deletion(d))
    ensures Exec(s, Deletion(d))
         == State(s.docs[d := s.docs[d].(status := Deleted, chunkCount := 0)], DeleteDocument(s.store, d), s.pcs)
  {
    hide Runs, Exec, DeleteDocument;
    var s1 := At(s, d, Deleting);
    var s2 := At(s1.(store := DeleteDocument(s.store, d)), d, DeletedChunks);
    var s3 := Done(Mark(s2, d, Deleted), d);
    PcsRestored(s, d, DeletedChunks);
    RunTwo(s1, Proceed(d), s2, Proceed(d), s3);
    RunOne(s, BeginDelete(d), [Proceed(d), Proceed(d)], s1);
  }

  // ----- Main result 1: exactly when a failed update agrees with the record

  /**
    A failed update restores the record, even one that was not indexed, and publishes the
    chunks that are there.  It leaves the document in agreement exactly when its chunks carried
    the recorded version before, and complete exactly when they were as many as recorded.
   */
  lemma FailedUpdateAgreesIff(s: State, d: Id)
    requires Consistent(s.store) && Idle(s, d)
    ensures Runs(Free, s, FailedUpdate(d))
    ensures var t := Exec(s, FailedUpdate(d));
            && t.docs == s.docs[d := Record(Indexed, s.docs[d].version, s.docs[d].chunkCount)]
            && (forall c :: c in ChunksOf(t.store, d) <==> c in ChunksOf(s.store, d))
            && (forall c :: c in ChunksOf(t.store, d) ==> ChunksOf(t.store, d)[c].status == Some(INDEXED))
            && (Agrees(t, d) <==> AllVersion(s.store, d, s.docs[d].version))
            && (Complete(t, d) <==> Count(s, d) == s.docs[d].chunkCount)
  {
    FailedUpdateResult(s, d);
    Republished(s.store, d, s.docs[d].version);
    hide Runs, Exec, SetStatus, AllVersion, ChunksOf, IdsOf;
  }

  lemma Republished(store: Store, d: Id, version: int)
    requires Consistent(store)
    ensures var t := SetStatus(SetStatus(store, d, PROCESSING), d, INDEXED);
            var shown := t.chunks;
            && (AllVersion(store, d, version)
                <==> forall c :: c in shown && shown[c].documentId == d && shown[c].status == Some(INDEXED) ==>
                                   shown[c].version == version)
            && IdsOf(t, d) == IdsOf(store, d)
            && (forall c :: c in ChunksOf(t, d) <==> c in ChunksOf(store, d))
            && (forall c :: c in ChunksOf(t, d) ==> ChunksOf(t, d)[c].status == Some(INDEXED))
  {
    var hidden := SetStatus(store, d, PROCESSING);
    var shown := SetStatus(hidden, d, INDEXED);
    SetStatusEffect(store, d, PROCESSING);
    SetStatusEffect(hidden, d, INDEXED);
    assert forall c :: c in store.chunks <==> c in shown.chunks;
    hide SetStatus;
  }

  // ----- Main result 2: how an update that crashed is exposed by one that fails

  function Sample(id: Id, d: Id, version: int): StoredChunk {
    StoredChunk(id, d, "company", "department", version, 0, "text", Some(Vector([1], true, [1.0])), Some("model"),
                Some(1), Some(PROCESSING))
  }

  lemma SampleBatch(store: Store, d: Id, id: Id, version: int)
    requires id !in store.chunks
    ensures FreshBatch(store, d, version, [Sample(id, d, version)])
    ensures BatchMap([Sample(id, d, version)]).Keys == {id}
  {
    assert [Sample(id, d, version)][..0] == [];
  }

  /** An update that crashes once its chunks are rewritten leaves chunks that are not of the recorded version. */
  lemma CrashedUpdateTears(s: State, d: Id, batch: seq<StoredChunk>)
    requires Consistent(s.store) && Idle(s, d)
             && FreshBatch(SetStatus(s.store, d, PROCESSING), d, s.docs[d].version + 1, batch)
    ensures Runs(Free, s, CrashedUpdate(d, batch))
    ensures var t := Exec(s, CrashedUpdate(d, batch));
            Consistent(t.store) && Idle(t, d) && !AllVersion(t.store, d, t.docs[d].version)
  {
    var hidden := SetStatus(s.store, d, PROCESSING);
    HidingKeepsConsistent(s.store, d);
    hide Runs, Exec, Replace, SetStatus, FreshBatch, AllVersion, Consistent, CrashedUpdate;
    NewVersionShows(hidden, d, s.docs[d].version + 1, batch);
    TornIsIdle(s, d, Replace(hidden, d, batch));
    hide Idle;
    CrashedUpdateResult(s, d, batch);
  }

  lemma TornIsIdle(s: State, d: Id, store: Store)
    requires Idle(s, d)
    ensures var t := State(s.docs[d := s.docs[d].(status := Processing)], store, s.pcs);
            Idle(t, d) && t.docs[d].version == s.docs[d].version
  {
  }

  lemma HidingKeepsConsistent(store: Store, d: Id)
    requires Consistent(store)
    ensures Consistent(SetStatus(store, d, PROCESSING))
  {
    hide *;
    SetStatusEffect(store, d, PROCESSING);
  }

  lemma NewVersionShows(store: Store, d: Id, version: int, batch: seq<StoredChunk>)
    requires Consistent(store) && FreshBatch(store, d, version, batch)
    ensures var t := Replace(store, d, batch); Consistent(t) && forall v :: AllVersion(t, d, v) ==> v == version
  {
    ReplaceWithOwnIds(store, d, batch);
    ReplacedOf(store, d, version, batch);
    var c := batch[0].chunkId;
    assert c in BatchMap(batch);
    assert c in ChunksOf(Replace(store, d, batch), d);
    hide Replace;
  }

  /** A document is created, an update of it crashes once its chunks are rewritten, the next update fails. */
  function CrashThenFailure(d: Id): seq<Action> {
    SuccessfulCreate(d, [Sample("a", d, 1)]) + (CrashedUpdate(d, [Sample("b", d, 2)]) + FailedUpdate(d))
  }

  /**
    Starting from empty stores this leaves searchable chunks of version 2 under a record of
    version 1.
   */
  lemma CrashThenFailureDisagrees(d: Id)
    ensures Runs(Free, EMPTY, CrashThenFailure(d)) && !Agrees(Exec(EMPTY, CrashThenFailure(d)), d)
  {
    var first, second := SuccessfulCreate(d, [Sample("a", d, 1)]), CrashedUpdate(d, [Sample("b", d, 2)]);
    SampleBatch(EMPTY.store, d, "a", 1);
    SuccessfulCreateResult(EMPTY, d, [Sample("a", d, 1)]);
    var s := Exec(EMPTY, first);
    CreatedSample(d);
    SampleBatch(Reindexing(s, d).store, d, "b", 2);
    CrashedUpdateTears(s, d, [Sample("b", d, 2)]);
    var t := Exec(s, second);
    FailedUpdateAgreesIff(t, d);
    RunsConcat(s, second, FailedUpdate(d));
    RunsConcat(EMPTY, first, second + FailedUpdate(d));
    hide *;
  }

  lemma CreatedSample(d: Id)
    ensures var store := SetStatus(Replace(EMPTY.store, d, [Sample("a", d, 1)]), d, INDEXED);
            Consistent(store) && "b" !in store.chunks && "b" !in SetStatus(store, d, PROCESSING).chunks
  {
    SampleBatch(EMPTY.store, d, "a", 1);
    ReplaceWithOwnIds(EMPTY.store, d, [Sample("a", d, 1)]);
    var store := Replace(EMPTY.store, d, [Sample("a", d, 1)]);
    assert "b"[0] != "a"[0];
    SetStatusEffect(store, d, INDEXED);
    SetStatusEffect(SetStatus(store, d, INDEXED), d, PROCESSING);
  }

  /** A creation that crashes once its chunks are written. */
  function CrashedCreate(d: Id, batch: seq<StoredChunk>): seq<Action> {
    [BeginCreate(d)] + [Persist(d, batch), Crash(d)]
  }

  lemma CrashedCreateResult(s: State, d: Id, batch: seq<StoredChunk>)
    requires Consistent(s.store) && Enabled(Free, s, BeginCreate(d)) && FreshBatch(s.store, d, 1, batch)
    ensures Runs(Free, s, CrashedCreate(d, batch))
    ensures Exec(s, CrashedCreate(d, batch))
            == State(s.docs[d := Record(Processing, 1, 0)], Replace(s.store, d, batch), s.pcs)
  {
    hide Runs, Exec, Replace, SetStatus, FreshBatch, AllVersion, IdsOf, Consistent;
    var s1 := At(SetRecord(s, d, Record(Processing, 1, 0)), d, Creating);
    PersistStep(s1, d, batch);
    var s2 := Next(s1, Persist(d, batch));
    PcsRestored(s, d, CreatePersisted(|batch|));
    RunThree(s, BeginCreate(d), s1, Persist(d, batch), s2, Crash(d), Done(s2, d));
  }

  lemma CrashedCreateIsIncomplete(s: State, d: Id, batch: seq<StoredChunk>)
    requires Consistent(s.store) && Enabled(Free, s, BeginCreate(d)) && FreshBatch(s.store, d, 1, batch)
    ensures Runs(Free, s, CrashedCreate(d, batch))
    ensures var t := Exec(s, CrashedCreate(d, batch));
            Consistent(t.store) && Idle(t, d) && Count(t, d) != t.docs[d].chunkCount
  {
    hide Replace, FreshBatch, Consistent, Runs, Exec, CrashedCreate, IdsOf;
    CrashedCreateResult(s, d, batch);
    StoredBatch(s.store, d, 1, batch);
  }

  /** If the next update fails, the chunks become searchable under a record that counts none. */
  lemma CrashedCreateThenFailureIsIncomplete(s: State, d: Id, batch: seq<StoredChunk>)
    requires Consistent(s.store) && Enabled(Free, s, BeginCreate(d)) && FreshBatch(s.store, d, 1, batch)
    ensures Runs(Free, s, CrashedCreate(d, batch) + FailedUpdate(d))
    ensures !Complete(Exec(s, CrashedCreate(d, batch) + FailedUpdate(d)), d)
  {
    hide *;
    CrashedCreateIsIncomplete(s, d, batch);
    FailedUpdateAgreesIff(Exec(s, CrashedCreate(d, batch)), d);
    RunsConcat(s, CrashedCreate(d, batch), FailedUpdate(d));
  }

  lemma StoredBatch(store: Store, d: Id, version: int, batch: seq<StoredChunk>)
    requires Consistent(store) && FreshBatch(store, d, version, batch)
    ensures Consistent(Replace(store, d, batch)) && |IdsOf(Replace(store, d, batch), d)| == |batch| > 0
  {
    ReplaceWithOwnIds(store, d, batch);
    ReplacedOf(store, d, version, batch);
    hide Replace, IdsOf, Consistent;
  }
}
