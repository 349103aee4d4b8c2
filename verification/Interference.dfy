/**
  Repairs and purges (rag/storage/reconciliation.py) that come between the calls of an
  operation in flight, or act on what they read before it began.
 */
module Interference {
  import opened Types
  import opened VectorSearch
  import opened ChunkStore
  import opened Lifecycle
  import opened Operations

  // ----- Main result 1: when repairing is safe

  /**
    A repair, whatever status it read and whatever operation is in flight on the document,
    keeps the invariant of the whole system exactly if it does not publish what may not be
    shown; otherwise a searchable chunk belongs to a document that is not recorded as indexed,
    at once or after the next call of the operation.  For a repair whose reading is up to date
    this only concerns an update between its first two calls.
   */
  lemma RepairIsSafeIff(care: Care, s: State, d: Id, read: Status)
    requires Inv(care, s) && d in s.docs
    ensures Inv(care, Next(s, Repair(d, read))) <==> (read == Indexed ==> MayShow(s, d))
    ensures read == Indexed && !MayShow(s, d) ==>
              var t := Next(s, Repair(d, read));
              !Safe(t) || (Enabled(Free, t, Proceed(d)) && !Safe(Next(t, Proceed(d))))
    ensures read == s.docs[d].status ==>
              ((read == Indexed ==> MayShow(s, d)) <==>
               !(d in s.pcs && s.pcs[d].UpdateHidden? && s.docs[d].status == Indexed && !NoChunks(s.store, d)))
  {
    var t := Next(s, Repair(d, read));
    assert DocInv(care, s, d);
    RepairKeepsDocInvIff(care, s, d, read);
    NextIsLocal(s, Repair(d, read));
    if read == Indexed && !MayShow(s, d) {
      ShowingExposes(s, d);
    }
    hide DocInv, Untouched, Next, MayShow, Safe;
    forall e: Id | e != d
      ensures DocInv(care, t, e)
    {
      UntouchedKeepsInv(care, s, t, e);
    }
  }

  lemma Exposed(s: State, d: Id)
    requires d in s.docs && s.docs[d].status != Indexed && !NoneIndexed(s.store, d)
    ensures !Safe(s)
  {
  }

  lemma ShowingExposes(s: State, d: Id)
    requires Consistent(s.store) && d in s.docs && !MayShow(s, d)
    ensures var t := Next(s, Repair(d, Indexed));
            !Safe(t) || (Enabled(Free, t, Proceed(d)) && !Safe(Next(t, Proceed(d))))
  {
    var t := Publish(s, d);
    assert Next(s, Repair(d, Indexed)) == t;
    if s.docs[d].status == Indexed {
      RepairMustWait(s, d);
      assert Enabled(Free, t, Proceed(d)) && Next(t, Proceed(d)) == Proceeded(t, d);
      hide Safe, Proceeded, NoChunks, NoneIndexed;
      Exposed(Proceeded(t, d), d);
    } else {
      PublishedShows(s.store, d);
      hide Safe, NoChunks, NoneIndexed;
      Exposed(t, d);
    }
  }

  lemma PublishedShows(store: Store, d: Id)
    requires Consistent(store)
    ensures NoneIndexed(SetStatus(store, d, INDEXED), d) <==> NoChunks(store, d)
  {
    SetStatusEffect(store, d, INDEXED);
    assert forall c :: c in store.chunks <==> c in SetStatus(store, d, INDEXED).chunks;
    hide SetStatus;
  }

  /**
    Repairing a document whose update has hidden the chunks but not yet changed the record
    publishes them, and the update then leaves them searchable under a record that is being
    processed, unless there are none.
   */
  lemma RepairMustWait(s: State, d: Id)
    requires Consistent(s.store) && d in s.docs && d in s.pcs && s.pcs[d].UpdateHidden? && s.docs[d].status == Indexed
    ensures var t := Proceeded(Publish(s, d), d);
            && t.docs[d].status == Processing
            && (NoneIndexed(t.store, d) <==> NoChunks(s.store, d))
  {
    PublishedShows(s.store, d);
    hide SetStatus, NoneIndexed, NoChunks;
    assert Proceeded(Publish(s, d), d).store == Publish(s, d).store;
  }

  /** An update whose first two calls a repair comes between. */
  function RepairedUpdate(d: Id): seq<Action> {
    [BeginUpdate(d), Proceed(d)] + [Repair(d, Indexed), Proceed(d)]
  }

  /** From empty stores, a creation and such an update leave a searchable chunk of a document being processed. */
  lemma RepairedUpdateExposes(d: Id)
    ensures var actions := SuccessfulCreate(d, [Sample("a", d, 1)]) + RepairedUpdate(d);
            Runs(Free, EMPTY, actions) && !Safe(Exec(EMPTY, actions))
  {
    var first := SuccessfulCreate(d, [Sample("a", d, 1)]);
    SampleBatch(EMPTY.store, d, "a", 1);
    SuccessfulCreateResult(EMPTY, d, [Sample("a", d, 1)]);
    CreatedSample(d);
    var s := Exec(EMPTY, first);
    hide Runs, Exec, SuccessfulCreate, Replace, SetStatus, FreshBatch, Consistent, Safe;
    UpdateRepaired(s, d);
    hide *;
    RunsConcat(EMPTY, first, RepairedUpdate(d));
  }

  /** The state of an update between its first two calls. */
  function Hidden(s: State, d: Id): State
    requires d in s.docs
  {
    At(Unpublish(At(s, d, Updating(s.docs[d])), d), d, UpdateHidden(s.docs[d]))
  }

  lemma HiddenResult(s: State, d: Id)
    requires Idle(s, d)
    ensures Runs(Free, s, [BeginUpdate(d), Proceed(d)]) && Exec(s, [BeginUpdate(d), Proceed(d)]) == Hidden(s, d)
  {
    hide SetStatus, Runs, Exec;
    RunTwo(s, BeginUpdate(d), At(s, d, Updating(s.docs[d])), Proceed(d), Hidden(s, d));
  }

  lemma UpdateRepaired(s: State, d: Id)
    requires Consistent(s.store) && Idle(s, d) && s.docs[d].status == Indexed && !NoChunks(s.store, d)
    ensures Runs(Free, s, RepairedUpdate(d)) && !Safe(Exec(s, RepairedUpdate(d)))
  {
    var s2 := Hidden(s, d);
    var s3 := Publish(s2, d);
    var s4 := Proceeded(s3, d);
    HidingKeepsConsistent(s.store, d);
    HidingKeepsChunks(s.store, d);
    HiddenResult(s, d);
    hide SetStatus, Consistent, Safe, Runs, Exec, NoChunks, NoneIndexed;
    RunTwo(s2, Repair(d, Indexed), s3, Proceed(d), s4);
    RepairMustWait(s2, d);
    hide Proceeded, Enabled, Next, Idle;
    Exposed(s4, d);
    RunsConcat(s, [BeginUpdate(d), Proceed(d)], [Repair(d, Indexed), Proceed(d)]);
  }

  lemma HidingKeepsChunks(store: Store, d: Id)
    requires Consistent(store)
    ensures NoChunks(SetStatus(store, d, PROCESSING), d) ==> NoChunks(store, d)
  {
    SetStatusEffect(store, d, PROCESSING);
    assert forall c :: c in store.chunks ==> c in SetStatus(store, d, PROCESSING).chunks;
    hide SetStatus;
  }

  // ----- Main result 2: when a purge in flight is harmless

  /**
    A purge that found no record and deletes afterwards never exposes anything: it keeps the
    invariant.  It is harmless exactly if the document has no chunks by then, as is the case
    while it still has no record.
   */
  lemma PurgeIsHarmlessIff(care: Care, s: State, d: Id)
    requires Inv(care, s)
    ensures !care.Counts? && !care.Free? ==> Inv(care, Next(s, Purge(d)))
    ensures Next(s, Purge(d)).store.chunks == s.store.chunks <==> NoChunks(s.store, d)
    ensures d !in s.docs ==> NoChunks(s.store, d)
  {
    assert DocInv(care, s, d);
    PurgeRemoves(s.store, d);
    assert Next(s, Purge(d)).store == DeleteDocument(s.store, d);
    hide DeleteDocument, DocInv, NoChunks, Next;
    if !care.Counts? && !care.Free? {
      NextKeepsInv(care, s, Purge(d));
    }
  }

  lemma PurgeRemoves(store: Store, d: Id)
    requires Consistent(store)
    ensures DeleteDocument(store, d).chunks == store.chunks <==> NoChunks(store, d)
  {
    DeletedOf(store, d);
    NoChunksNoIds(store, d);
    if !NoChunks(store, d) {
      var c :| c in store.chunks && store.chunks[c].documentId == d;
      assert c !in DeleteDocument(store, d).chunks by {
        hide DeleteDocument;
      }
    }
  }

  /**
    A creation whose chunks are purged before they are counted notices and fails; nothing of
    it is left.  Once they are counted it does not notice.
   */
  lemma PurgedCreationFails(s: State, d: Id)
    requires Consistent(s.store) && d in s.docs && d in s.pcs && s.pcs[d].CreatePersisted? && s.pcs[d].count > 0
    ensures var actions := [Purge(d)] + ([Proceed(d)] + [Proceed(d), Proceed(d)]);
            && Runs(Free, s, actions)
            && var t := Exec(s, actions);
            && t.docs == s.docs[d := s.docs[d].(status := Failed, chunkCount := 0)]
            && NoChunks(t.store, d) && d !in t.pcs
  {
    var s1 := s.(store := DeleteDocument(s.store, d));
    var s2 := At(s1, d, CreateFailing);
    var s3 := At(Mark(s2, d, Failed), d, CreateFailed);
    var s4 := Done(s3.(store := DeleteDocument(s3.store, d)), d);
    PurgedCount(s.store, d);
    hide DeleteDocument, Runs, Exec, NoChunks, Consistent, IdsOf;
    assert Enabled(Free, s, Purge(d)) && Next(s, Purge(d)) == s1;
    assert Enabled(Free, s1, Proceed(d)) && Next(s1, Proceed(d)) == s2;
    assert Enabled(Free, s2, Proceed(d)) && Next(s2, Proceed(d)) == s3;
    assert Enabled(Free, s3, Proceed(d)) && Next(s3, Proceed(d)) == s4;
    hide Enabled, Next;
    RunThree(s1, Proceed(d), s2, Proceed(d), s3, Proceed(d), s4);
    RunOne(s, Purge(d), [Proceed(d)] + [Proceed(d), Proceed(d)], s1);
  }

  lemma PurgedCount(store: Store, d: Id)
    requires Consistent(store)
    ensures var t := DeleteDocument(store, d);
            Consistent(t) && IdsOf(t, d) == {} && NoChunks(DeleteDocument(t, d), d)
  {
    DeleteEffect(store, d);
    DeletedOf(store, d);
    NoChunksNoIds(DeleteDocument(store, d), d);
    hide DeleteDocument, NoChunks, IdsOf, Consistent;
    DeletedOf(DeleteDocument(store, d), d);
  }
}
