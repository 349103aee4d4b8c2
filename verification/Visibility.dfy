/**
  The other half of what the pipeline promises about visibility (rag/ingestion/pipeline.py,
  `_publish`): a document that is recorded as indexed does not stay hidden.
 */
module Visibility {
  import opened Prelude
  import opened Types
  import opened VectorSearch
  import opened ChunkStore
  import opened Lifecycle

  /** No operation on `d` is between changing the record and the chunks. */
  predicate Settled(s: State, d: Id) {
    d !in s.pcs || s.pcs[d].Updating? || s.pcs[d].Deleting? || s.pcs[d].DeletedChunks?
  }

  predicate Shown(store: Store, d: Id) {
    forall c :: c in store.chunks && store.chunks[c].documentId == d ==> store.chunks[c].status == Some(INDEXED)
  }

  /** If recorded as indexed and settled, all chunks of `d` are searchable. */
  predicate Displayed(s: State, d: Id) {
    d in s.docs && s.docs[d].status == Indexed && Settled(s, d) ==> Shown(s.store, d)
  }

  /**
    What leaves an indexed document hidden: a crash before its chunks are published, or a
    repair that writes what it read before the document was indexed.
   */
  predicate Hides(s: State, a: Action) {
    match a
    case Crash(d) => d in s.docs && s.docs[d].status == Indexed && !Settled(s, d) && !Shown(s.store, d)
    case Repair(d, read) =>
      d in s.docs && s.docs[d].status == Indexed && Settled(s, d) && read != Indexed && !NoChunks(s.store, d)
    case _ => false
  }

  /** And nothing else does. */
  lemma HidesIff(s: State, a: Action)
    requires Consistent(s.store) && Enabled(Free, s, a) && Displayed(s, a.d)
    ensures Displayed(Next(s, a), a.d) <==> !Hides(s, a)
  {
    hide Shown, NoChunks, SetStatus, DeleteDocument, Replace, FreshBatch, Consistent, IdsOf, AllVersion;
    match a {
      case Proceed(d) => ProceedDisplays(s, d);
      case Repair(d, _) => ShownAfter(s.store, d);
      case Purge(d) => ShownAfter(s.store, d);
      case Crash(_) =>
      case _ =>
    }
  }

  lemma ProceedDisplays(s: State, d: Id)
    requires Consistent(s.store) && Enabled(Free, s, Proceed(d)) && Displayed(s, d)
    ensures Displayed(Next(s, Proceed(d)), d)
  {
    ShownAfter(s.store, d);
    ProceededStore(s, d);
    hide Shown, SetStatus, DeleteDocument, Consistent, IdsOf, Proceeded;
  }

  /** Once settled, `d` has been published, deleted, or marked as deleted. */
  lemma ProceededStore(s: State, d: Id)
    requires d in s.docs && d in s.pcs && !Building(s, d)
    ensures var t := Proceeded(s, d);
            Settled(t, d) ==>
              || t.store == SetStatus(s.store, d, INDEXED) || t.store == DeleteDocument(s.store, d)
              || (d in t.docs && t.docs[d].status == Deleted)
  {
    hide SetStatus, DeleteDocument, IdsOf;
  }

  lemma ShownAfter(store: Store, d: Id)
    requires Consistent(store)
    ensures Shown(SetStatus(store, d, INDEXED), d)
    ensures Shown(SetStatus(store, d, PROCESSING), d) <==> NoChunks(store, d)
    ensures Shown(DeleteDocument(store, d), d)
  {
    SetStatusEffect(store, d, INDEXED);
    SetStatusEffect(store, d, PROCESSING);
    DeletedOf(store, d);
    assert |INDEXED| != |PROCESSING|;
    assert forall c :: c in store.chunks <==> c in SetStatus(store, d, PROCESSING).chunks;
    hide SetStatus, DeleteDocument;
  }

  lemma UntouchedDisplayed(s: State, t: State, e: Id)
    requires Displayed(s, e) && Untouched(s, t, e)
    ensures Displayed(t, e)
  {
    if Shown(s.store, e) {
      forall c | c in t.store.chunks && t.store.chunks[c].documentId == e
        ensures t.store.chunks[c].status == Some(INDEXED)
      {
        assert c in ChunksOf(t.store, e) && ChunksOf(s.store, e)[c] == t.store.chunks[c];
      }
    }
  }

  /** No action of the run hides an indexed document. */
  predicate NothingHides(s: State, actions: seq<Action>)
    requires Runs(Free, s, actions)
    decreases |actions|
  {
    actions == [] || (!Hides(s, actions[0]) && NothingHides(Next(s, actions[0]), actions[1..]))
  }

  lemma {:induction false} RunsKeepDisplayed(s: State, actions: seq<Action>)
    requires Consistent(s.store) && (forall d: Id :: Displayed(s, d))
    requires Runs(Free, s, actions) && NothingHides(s, actions)
    ensures forall d: Id :: Displayed(Exec(s, actions), d)
    decreases |actions|
  {
    hide Displayed, Next, Enabled, Hides, Untouched, Consistent;
    if actions != [] {
      var a := actions[0];
      var t := Next(s, a);
      NextIsLocal(s, a);
      HidesIff(s, a);
      forall d: Id | d != a.d
        ensures Displayed(t, d)
      {
        UntouchedDisplayed(s, t, d);
      }
      RunsKeepDisplayed(t, actions[1..]);
    }
  }

  /** Nothing crashes, and repairs write what they just read. */
  predicate Orderly(s: State, actions: seq<Action>)
    requires Runs(Free, s, actions)
    decreases |actions|
  {
    actions == []
    || (&& !actions[0].Crash?
        && (actions[0].Repair? ==> actions[0].read == s.docs[actions[0].d].status)
        && Orderly(Next(s, actions[0]), actions[1..]))
  }

  lemma {:induction false} OrderlyRunsHideNothing(s: State, actions: seq<Action>)
    requires Runs(Free, s, actions) && Orderly(s, actions)
    ensures NothingHides(s, actions)
    decreases |actions|
  {
    hide Next;
    if actions != [] {
      OrderlyRunsHideNothing(Next(s, actions[0]), actions[1..]);
    }
  }

  /**
    In every run in which nothing hides an indexed document, in particular in every run without
    a crash and without a repair that acts on a stale reading, each document at rest that is
    recorded as indexed has all its chunks searchable.
   */
  lemma IndexedDocumentsAreShown(actions: seq<Action>)
    requires Runs(Free, EMPTY, actions)
    ensures Orderly(EMPTY, actions) ==> NothingHides(EMPTY, actions)
    ensures NothingHides(EMPTY, actions) ==>
              var s := Exec(EMPTY, actions);
              forall d :: d in s.docs && d !in s.pcs && s.docs[d].status == Indexed ==> Shown(s.store, d)
  {
    if Orderly(EMPTY, actions) {
      OrderlyRunsHideNothing(EMPTY, actions);
    }
    if NothingHides(EMPTY, actions) {
      RunsKeepDisplayed(EMPTY, actions);
      var s := Exec(EMPTY, actions);
      hide Exec, Shown, NothingHides;
      forall d | d in s.docs && d !in s.pcs && s.docs[d].status == Indexed
        ensures Shown(s.store, d)
      {
        assert Displayed(s, d);
      }
    }
  }
}
