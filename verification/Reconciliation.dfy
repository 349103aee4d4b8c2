/**
  The reconciler of rag/storage/reconciliation.py: it compares the document records with the
  status copied onto the chunks, and realigns the chunks.
 */
module Reconciliation {
  import opened Prelude
  import opened Types
  import opened Ordering
  import opened VectorSearch
  import opened ChunkStore
  import opened Lifecycle
  import opened Operations
  import opened DocumentStore

  const MIXED := "mixed"

  datatype Drift = Drift(documentId: Id, documentStatus: Status, chunkStatus: Option<string>, chunkCount: nat)

  datatype Report = Report(checkedDocuments: nat, drifted: seq<Drift>, orphanedDocumentIds: seq<Id>)

  type Docs = map<Id, Record>

  // ----- Specification

  function StatusesOf(store: Store, d: Id): set<Option<string>> {
    set c | c in store.chunks && store.chunks[c].documentId == d :: store.chunks[c].status
  }

  /** The status all chunks share, or "mixed". */
  ghost function Observed(statuses: set<Option<string>>): Option<string>
    requires statuses != {}
  {
    var one :| one in statuses;
    if |statuses| == 1 then one else Some(MIXED)
  }

  ghost predicate Drifts(docs: Docs, store: Store, d: Id) {
    && d in docs && StatusesOf(store, d) != {}
    && var observed := Observed(StatusesOf(store, d));
    (observed == Some(INDEXED)) != (docs[d].status == Indexed) || observed == Some(MIXED)
  }

  function DesiredStatus(r: Record): string {
    if r.status == Indexed then INDEXED else PROCESSING
  }

  /** The statuses of the listed documents realigned one after the other; unknown documents are skipped. */
  function Realigned(docs: Docs, store: Store, ids: seq<Id>): Store {
    if ids == [] then store
    else
      var before := Realigned(docs, store, ids[..|ids| - 1]);
      var d := ids[|ids| - 1];
      if d in docs then SetStatus(before, d, DesiredStatus(docs[d])) else before
  }

  function Ids(drifted: seq<Drift>): (r: seq<Id>)
    ensures |r| == |drifted| && forall i :: 0 <= i < |r| ==> r[i] == drifted[i].documentId
  {
    seq(|drifted|, i requires 0 <= i < |drifted| => drifted[i].documentId)
  }

  function Purged(docs: Docs, store: Store, ids: seq<Id>): Store {
    if ids == [] then store
    else
      var before := Purged(docs, store, ids[..|ids| - 1]);
      var d := ids[|ids| - 1];
      if d in docs then before else DeleteDocument(before, d)
  }

  /** The ids without record, in the order of their first occurrences. */
  function FirstUnknown(docs: Docs, ids: seq<Id>): seq<Id> {
    if ids == [] then []
    else
      var before := FirstUnknown(docs, ids[..|ids| - 1]);
      var d := ids[|ids| - 1];
      if d in docs || d in before then before else before + [d]
  }

  /** What `drifted` says: each drifting document of `ids` once, as it is. */
  ghost predicate Reports(docs: Docs, store: Store, ids: set<Id>, drifted: seq<Drift>) {
    && (forall d :: d in Ids(drifted) <==> d in ids && Drifts(docs, store, d))
    && (forall x :: x in drifted ==>
                      && x.documentId in docs && x.documentStatus == docs[x.documentId].status
                      && StatusesOf(store, x.documentId) != {}
                      && x.chunkStatus == Observed(StatusesOf(store, x.documentId))
                      && x.chunkCount == |IdsOf(store, x.documentId)|)
    && forall i, j :: 0 <= i < j < |drifted| ==> Ids(drifted)[i] != Ids(drifted)[j]
  }

  lemma NothingReported(docs: Docs, store: Store, ids: set<Id>)
    requires ids == {}
    ensures Reports(docs, store, ids, [])
  {
  }

  lemma ReportsNext(docs: Docs, store: Store, ids: set<Id>, drifted: seq<Drift>, d: Id, drift: Option<Drift>)
    requires Reports(docs, store, ids, drifted) && d in docs && d !in ids
    requires drift.Some? <==> Drifts(map[d := Record(docs[d].status, 0, 0)], store, d)
    requires drift.Some? ==>
               && StatusesOf(store, d) != {}
               && drift.value == Drift(d, docs[d].status, Observed(StatusesOf(store, d)), |IdsOf(store, d)|)
    ensures Reports(docs, store, ids + {d}, if drift.Some? then drifted + [drift.value] else drifted)
  {
    assert Drifts(docs, store, d) <==> drift.Some?;
    hide Drifts, Observed, StatusesOf, IdsOf;
    if drift.Some? {
      assert Ids(drifted + [drift.value]) == Ids(drifted) + [d];
      assert d !in Ids(drifted);
    }
  }

  function Recorded(docs: Docs): Id -> bool {
    (d: Id) => d in docs
  }

  lemma DeletedCount(store: Store, d: Id)
    requires Consistent(store)
    ensures |DeleteDocument(store, d).chunks| == |store.chunks| - |IdsOf(store, d)|
  {
    ListedIdsAreStored(store, d);
    hide Consistent, IdsOf;
    SizeAfterRemoval(store.chunks, IdsOf(store, d));
  }

  lemma ListedIdsAreStored(store: Store, d: Id)
    requires Consistent(store)
    ensures IdsOf(store, d) <= store.chunks.Keys
  {
  }

  lemma SizeAfterRemoval<K, V>(m: map<K, V>, gone: set<K>)
    requires gone <= m.Keys
    ensures |m - gone| == |m| - |gone|
  {
    assert (m - gone).Keys == m.Keys - gone;
    assert |m| == |m.Keys| && |m - gone| == |(m - gone).Keys|;
  }

  lemma ObservedMeans(statuses: set<Option<string>>)
    requires statuses != {}
    ensures |statuses| == 1 ==> statuses == {Observed(statuses)}
    ensures |statuses| != 1 ==> Observed(statuses) == Some(MIXED)
    ensures forall x :: statuses == {x} ==> Observed(statuses) == x
  {
    var one :| one in statuses;
    if |statuses| == 1 {
      assert |statuses - {one}| == 0;
      assert statuses == {one};
    }
  }

  // ----- The class

  class StoreReconciler {
    const documents: InMemoryDocumentStore
    const chunkStore: InMemoryChunkStore

    constructor (documents: InMemoryDocumentStore, chunkStore: InMemoryChunkStore)
      ensures this.documents == documents && this.chunkStore == chunkStore
    {
      this.documents, this.chunkStore := documents, chunkStore;
    }

    method ListByDocumentId(d: Id) returns (chunks: seq<StoredChunk>)
      requires Consistent(chunkStore.View())
      ensures forall c :: c in chunks <==> c in ChunksOf(chunkStore.View(), d).Values
      ensures |chunks| == |IdsOf(chunkStore.View(), d)|
    {
      var ids := if d in chunkStore.byDocument then chunkStore.byDocument[d] else {};
      var todo := ids;
      chunks := [];
      while todo != {}
        invariant todo <= ids
        invariant |chunks| + |todo| == |ids|
        invariant forall c :: c in ids - todo ==> chunkStore.chunks[c] in chunks
        invariant forall c :: c in chunks ==> c.chunkId in ids && chunkStore.chunks[c.chunkId] == c
        decreases todo
      {
        var c :| c in todo;
        chunks := chunks + [chunkStore.chunks[c]];
        todo := todo - {c};
      }
      ghost var store := chunkStore.View();
      forall c | c in ChunksOf(store, d).Values
        ensures c in chunks
      {
        assert c.chunkId in ids - todo;
      }
      forall c | c in chunks
        ensures c in ChunksOf(store, d).Values
      {
        assert c.chunkId in ChunksOf(store, d) && ChunksOf(store, d)[c.chunkId] == c;
      }
    }

    method Check(extraDocumentIds: seq<Id> := []) returns (report: Report)
      requires Consistent(chunkStore.View())
      ensures report.checkedDocuments == |documents.records|
      ensures Reports(documents.records, chunkStore.View(), documents.records.Keys, report.drifted)
      ensures report.orphanedDocumentIds == FirstUnknown(documents.records, extraDocumentIds)
      ensures forall d :: d in report.orphanedDocumentIds <==> d in extraDocumentIds && d !in documents.records
      ensures forall i, j :: 0 <= i < j < |report.orphanedDocumentIds| ==>
              report.orphanedDocumentIds[i] != report.orphanedDocumentIds[j]
    {
      var docs := documents.records;
      ghost var store := chunkStore.View();
      var drifted: seq<Drift> := [];
      var todo := docs.Keys;
      NothingReported(docs, store, docs.Keys - todo);
      hide Reports, Drifts, Observed, StatusesOf, Consistent;
      while todo != {}
        invariant todo <= docs.Keys
        invariant Reports(docs, store, docs.Keys - todo, drifted)
        decreases todo
      {
        var d :| d in todo;
        var drift := CheckDocument(d, docs[d].status);
        ReportsNext(docs, store, docs.Keys - todo, drifted, d, drift);
        assert docs.Keys - todo + {d} == docs.Keys - (todo - {d});
        todo := todo - {d};
        if drift.Some? {
          drifted := drifted + [drift.value];
        }
      }
      assert docs.Keys - todo == docs.Keys;
      var orphans: seq<Id> := [];
      for i := 0 to |extraDocumentIds|
        invariant orphans == FirstUnknown(docs, extraDocumentIds[..i])
        invariant forall d :: d in orphans <==> d in extraDocumentIds[..i] && d !in docs
        invariant forall j, k :: 0 <= j < k < |orphans| ==> orphans[j] != orphans[k]
      {
        assert extraDocumentIds[..i + 1] == extraDocumentIds[..i] + [extraDocumentIds[i]];
        assert extraDocumentIds[..i + 1][..i] == extraDocumentIds[..i];
        if extraDocumentIds[i] !in docs && extraDocumentIds[i] !in orphans {
          orphans := orphans + [extraDocumentIds[i]];
        }
      }
      assert extraDocumentIds[..|extraDocumentIds|] == extraDocumentIds;
      report := Report(|docs.Keys|, drifted, orphans);
    }

    /** The body of the loop of `check`. */
    method CheckDocument(d: Id, status: Status) returns (drift: Option<Drift>)
      requires Consistent(chunkStore.View())
      ensures drift.Some? <==> Drifts(map[d := Record(status, 0, 0)], chunkStore.View(), d)
      ensures drift.Some? ==>
                && StatusesOf(chunkStore.View(), d) != {}
                && drift.value == Drift(d, status, Observed(StatusesOf(chunkStore.View(), d)),
                                        |IdsOf(chunkStore.View(), d)|)
    {
      var chunks := ListByDocumentId(d);
      ghost var store := chunkStore.View();
      var statuses := set c | c in chunks :: c.status;
      assert statuses == StatusesOf(store, d) by {
        forall c | c in store.chunks && store.chunks[c].documentId == d
          ensures store.chunks[c] in chunks
        {
          assert ChunksOf(store, d)[c] in ChunksOf(store, d).Values;
        }
      }
      if |chunks| == 0 {
        assert statuses == {};
        return None;
      }
      assert chunks[0].status in statuses;
      var observed := if |statuses| == 1 then chunks[0].status else Some(MIXED);
      ObservedMeans(statuses);
      if (observed == Some(INDEXED)) != (status == Indexed) || observed == Some(MIXED) {
        return Some(Drift(d, status, observed, |chunks|));
      }
      return None;
    }

    method Repair(report: Report) returns (repaired: nat)
      modifies chunkStore
      ensures chunkStore.View() == Realigned(documents.records, old(chunkStore.View()), Ids(report.drifted))
      ensures repaired == |Filter(Ids(report.drifted), Recorded(documents.records))|
    {
      repaired := 0;
      var docs := documents.records;
      ghost var ids, start := Ids(report.drifted), chunkStore.View();
      for i := 0 to |report.drifted|
        invariant chunkStore.View() == Realigned(docs, start, ids[..i])
        invariant repaired == |Filter(ids[..i], Recorded(docs))|
      {
        assert ids[..i + 1][..i] == ids[..i] && ids[..i + 1] == ids[..i] + [ids[i]];
        FilterSnoc(ids[..i], ids[i], Recorded(docs));
        var d := report.drifted[i].documentId;
        if d !in docs {
          continue;
        }
        var _ := chunkStore.SetDocumentStatus(d, DesiredStatus(docs[d]));
        repaired := repaired + 1;
      }
      assert ids[..|ids|] == ids;
    }

    method PurgeOrphans(documentIds: seq<Id>) returns (deleted: nat)
      modifies chunkStore
      ensures chunkStore.View() == Purged(documents.records, old(chunkStore.View()), documentIds)
      ensures Consistent(old(chunkStore.View())) ==>
                deleted == |old(chunkStore.View()).chunks| - |chunkStore.View().chunks|
    {
      deleted := 0;
      var docs := documents.records;
      ghost var start := chunkStore.View();
      for i := 0 to |documentIds|
        invariant chunkStore.View() == Purged(docs, start, documentIds[..i])
        invariant Consistent(start) ==> deleted == |start.chunks| - |chunkStore.View().chunks|
      {
        assert documentIds[..i + 1][..i] == documentIds[..i];
        if Consistent(start) {
          PurgeSparesRecordedDocuments(docs, start, documentIds[..i]);
          DeletedCount(chunkStore.View(), documentIds[i]);
        }
        hide Consistent, DeleteDocument;
        if documentIds[i] in docs {
          continue;
        }
        var count := chunkStore.DeleteByDocumentId(documentIds[i]);
        deleted := deleted + count;
      }
      assert documentIds[..|documentIds|] == documentIds;
    }
  }

  // ----- What realigning does

  /** Only statuses change: those of the listed documents that have a record, to the desired one. */
  lemma {:induction false} RealignedEffect(docs: Docs, store: Store, ids: seq<Id>)
    requires Consistent(store)
    ensures var t := Realigned(docs, store, ids);
            && Consistent(t) && t.chunks.Keys == store.chunks.Keys && t.byDocument == store.byDocument
            && forall c :: c in store.chunks ==>
                             var d := store.chunks[c].documentId;
                             && t.chunks[c] == (if d in ids && d in docs
                                                then store.chunks[c].(status := Some(DesiredStatus(docs[d])))
                                                else store.chunks[c])
                             && (d in ids && d in docs ==>
                                   var wanted := if docs[d].status == Indexed then "indexed" else "processing";
                                   t.chunks[c].status == Some(wanted))
  {
    if ids != [] {
      var n := |ids| - 1;
      assert ids == ids[..n] + [ids[n]];
      RealignedEffect(docs, store, ids[..n]);
      var before := Realigned(docs, store, ids[..n]);
      if ids[n] in docs {
        SetStatusEffect(before, ids[n], DesiredStatus(docs[ids[n]]));
      }
      hide SetStatus, Consistent, DesiredStatus;
    }
  }

  /** The chunks of `d` say what the record of `d` says. */
  predicate Aligned(docs: Docs, store: Store, d: Id) {
    d in docs ==>
      forall c :: c in store.chunks && store.chunks[c].documentId == d ==>
                    (store.chunks[c].status == Some(INDEXED) <==> docs[d].status == Indexed)
  }

  lemma NoDriftIsAligned(docs: Docs, store: Store, d: Id)
    requires !Drifts(docs, store, d)
    ensures Aligned(docs, store, d)
  {
    if d in docs && StatusesOf(store, d) != {} {
      ObservedMeans(StatusesOf(store, d));
      forall c | c in store.chunks && store.chunks[c].documentId == d
        ensures store.chunks[c].status == Some(INDEXED) <==> docs[d].status == Indexed
      {
        assert store.chunks[c].status in StatusesOf(store, d);
      }
    } else {
      assert forall c :: c in store.chunks && store.chunks[c].documentId == d ==>
             store.chunks[c].status in StatusesOf(store, d);
    }
  }

  lemma DesiredDoesNotDrift(docs: Docs, store: Store, d: Id)
    requires d in docs
    requires forall c :: c in store.chunks && store.chunks[c].documentId == d ==>
             store.chunks[c].status == Some(DesiredStatus(docs[d]))
    ensures !Drifts(docs, store, d)
  {
    var statuses := StatusesOf(store, d);
    assert |INDEXED| == 7 && |PROCESSING| == 10 && |MIXED| == 5;
    if statuses != {} {
      var one :| one in statuses;
      assert statuses == {Some(DesiredStatus(docs[d]))};
      ObservedMeans(statuses);
    }
  }

  /**
    A document drifts exactly when it has a record and chunks, and these do not all carry one
    status, or are searchable although it is not recorded as indexed, or the other way round.
    A status spelled "mixed" counts as a mixture.
   */
  lemma DriftsIff(docs: Docs, store: Store, d: Id)
    ensures Drifts(docs, store, d) <==>
              && d in docs
              && exists b, c ::
                   && b in store.chunks && c in store.chunks
                   && store.chunks[b].documentId == d == store.chunks[c].documentId
                   && (|| store.chunks[b].status != store.chunks[c].status
                       || store.chunks[b].status == Some("mixed")
                       || (store.chunks[b].status == Some("indexed")) != (docs[d].status == Indexed))
  {
    var statuses := StatusesOf(store, d);
    if d in docs && statuses != {} {
      ObservedMeans(statuses);
      var one :| one in statuses;
      forall c | c in store.chunks && store.chunks[c].documentId == d
        ensures store.chunks[c].status in statuses
      {
      }
      if |statuses| == 1 {
        var b :| b in store.chunks && store.chunks[b].documentId == d && store.chunks[b].status == one;
        assert statuses == {one};
      } else {
        TwoStatuses(statuses, one);
        var other :| other in statuses && other != one;
        var b :| b in store.chunks && store.chunks[b].documentId == d && store.chunks[b].status == one;
        var c :| c in store.chunks && store.chunks[c].documentId == d && store.chunks[c].status == other;
      }
    } else if d in docs {
      assert forall c :: c in store.chunks && store.chunks[c].documentId == d ==> store.chunks[c].status in statuses;
    }
    hide Observed;
  }

  lemma TwoStatuses(statuses: set<Option<string>>, one: Option<string>)
    requires one in statuses && |statuses| != 1
    ensures exists other :: other in statuses && other != one
  {
    var others := statuses - {one};
    assert |statuses| == |others| + 1;
    assert others != {};
    var other :| other in others;
  }

  // ----- Main results

  /**
    Repairing what a check reported deletes nothing and changes only statuses, and a second
    check then finds no drift, whatever the state of the stores was.
   */
  lemma RepairLeavesNoDrift(docs: Docs, store: Store, ids: seq<Id>)
    requires Consistent(store) && forall d :: d in ids <==> Drifts(docs, store, d)
    ensures var t := Realigned(docs, store, ids);
            && Consistent(t) && t.chunks.Keys == store.chunks.Keys
            && (forall c :: c in store.chunks ==> t.chunks[c].(status := store.chunks[c].status) == store.chunks[c])
            && forall d :: !Drifts(docs, t, d) && Aligned(docs, t, d)
  {
    RealignedEffect(docs, store, ids);
    var t := Realigned(docs, store, ids);
    hide Realigned, Drifts, Aligned, Consistent, DesiredStatus;
    forall d
      ensures !Drifts(docs, t, d) && Aligned(docs, t, d)
    {
      RealignedDoesNotDrift(docs, store, t, ids, d);
      NoDriftIsAligned(docs, t, d);
    }
  }

  lemma RealignedDoesNotDrift(docs: Docs, store: Store, t: Store, ids: seq<Id>, d: Id)
    requires d in ids <==> Drifts(docs, store, d)
    requires t.chunks.Keys == store.chunks.Keys
    requires forall c :: c in store.chunks ==>
                           var e := store.chunks[c].documentId;
                           t.chunks[c] == if e in ids && e in docs
                                          then store.chunks[c].(status := Some(DesiredStatus(docs[e])))
                                          else store.chunks[c]
    ensures !Drifts(docs, t, d)
  {
    if d in ids {
      hide Observed;
      DesiredDoesNotDrift(docs, t, d);
    } else {
      assert StatusesOf(t, d) == StatusesOf(store, d);
    }
  }

  /**
    If a run stops anywhere, checking and repairing restores agreement: every chunk of a
    document recorded as indexed is searchable at the recorded version, no other document has
    a searchable chunk, and no chunk was lost.  Updates may have crashed and been retried; none
    may have failed on chunks of another version than the one it restored.
   */
  lemma CrashThenRepairRestores(care: Care, actions: seq<Action>, ids: seq<Id>)
    requires care.Versioned() && Runs(care, EMPTY, actions)
    requires Runs(Free, EMPTY, actions)
    requires var s := Exec(EMPTY, actions); forall d :: d in ids <==> Drifts(s.docs, s.store, d)
    ensures var s := Exec(EMPTY, actions);
            var t := Realigned(s.docs, s.store, ids);
            && t.chunks.Keys == s.store.chunks.Keys
            && (forall d :: !Drifts(s.docs, t, d))
            && (care.Counts? ==>
                  forall d :: d in s.docs && d !in s.pcs && s.docs[d].status == Indexed ==>
                    |IdsOf(t, d)| == s.docs[d].chunkCount)
            && forall c :: c in t.chunks ==>
                             var d := t.chunks[c].documentId;
                             && d in s.docs
                             && (t.chunks[c].status == Some(INDEXED) <==> s.docs[d].status == Indexed)
                             && (s.docs[d].status == Indexed ==> t.chunks[c].version == s.docs[d].version)
  {
    EveryRunIsSafe(care, actions);
    var s := Exec(EMPTY, actions);
    RealignedEffect(s.docs, s.store, ids);
    RepairLeavesNoDrift(s.docs, s.store, ids);
    var t := Realigned(s.docs, s.store, ids);
    forall d | care.Counts? && d in s.docs && d !in s.pcs && s.docs[d].status == Indexed
      ensures |IdsOf(t, d)| == s.docs[d].chunkCount
    {
      assert Complete(s, d);
    }
    hide Realigned, Exec, Drifts;
    forall c | c in t.chunks
      ensures var d := t.chunks[c].documentId;
              && d in s.docs && (t.chunks[c].status == Some(INDEXED) <==> s.docs[d].status == Indexed)
              && (s.docs[d].status == Indexed ==> t.chunks[c].version == s.docs[d].version)
    {
      var d := s.store.chunks[c].documentId;
      assert Aligned(s.docs, t, d);
      RecordedVersion(care, s, c);
    }
  }

  /** Searchable or not, the chunks of a document recorded as indexed carry its version. */
  lemma RecordedVersion(care: Care, s: State, c: Id)
    requires care.Versioned() && Inv(care, s) && c in s.store.chunks
    ensures var d := s.store.chunks[c].documentId;
            d in s.docs && (s.docs[d].status == Indexed ==> s.store.chunks[c].version == s.docs[d].version)
  {
    var d := s.store.chunks[c].documentId;
    assert DocInv(care, s, d);
    assert !NoChunks(s.store, d);
  }

  /** Purging never touches a document that has a record. */
  lemma {:induction false} PurgeSparesRecordedDocuments(docs: Docs, store: Store, ids: seq<Id>)
    requires Consistent(store)
    ensures var t := Purged(docs, store, ids);
            && Consistent(t)
            && forall d :: ChunksOf(t, d) == if d in ids && d !in docs then map[] else ChunksOf(store, d)
  {
    if ids != [] {
      var n := |ids| - 1;
      assert ids == ids[..n] + [ids[n]];
      PurgeSparesRecordedDocuments(docs, store, ids[..n]);
      DeleteEffect(Purged(docs, store, ids[..n]), ids[n]);
      hide DeleteDocument, ChunksOf, Consistent;
    }
  }

  /**
    A deletion that crashes between its two calls leaves the record as it was and no chunk; a
    check does not report it, so a document recorded as indexed may have lost its content.
   */
  lemma CrashedDeletionGoesUnreported(s: State, d: Id)
    requires Consistent(s.store) && Idle(s, d)
    ensures var actions := [BeginDelete(d)] + [Proceed(d), Crash(d)];
            && Runs(Free, s, actions)
            && var t := Exec(s, actions);
            && t.docs == s.docs && ChunksOf(t.store, d) == map[] && !Drifts(t.docs, t.store, d)
            && (Complete(t, d) <==> s.docs[d].status != Indexed || s.docs[d].chunkCount == 0)
  {
    var s1 := At(s, d, Deleting);
    var s2 := At(s1.(store := DeleteDocument(s.store, d)), d, DeletedChunks);
    DeleteEffect(s.store, d);
    assert StatusesOf(s2.store, d) == {} by {
      assert forall c :: c in s2.store.chunks && s2.store.chunks[c].documentId == d ==> c in ChunksOf(s2.store, d);
    }
    hide Runs, Exec, DeleteDocument;
    RunThree(s, BeginDelete(d), s1, Proceed(d), s2, Crash(d), Done(s2, d));
  }

  /**
    A purge that found no record, and deletes once the document has been created and indexed,
    leaves the record without chunks, which a check does not report either.
   */
  lemma StalePurgeGoesUnreported(s: State, d: Id)
    requires Consistent(s.store) && Idle(s, d)
    ensures var t := Next(s, Purge(d));
            && t.docs == s.docs && ChunksOf(t.store, d) == map[] && !Drifts(t.docs, t.store, d)
            && (Complete(t, d) <==> s.docs[d].status != Indexed || s.docs[d].chunkCount == 0)
  {
    var t := Next(s, Purge(d));
    DeleteEffect(s.store, d);
    assert t.store == DeleteDocument(s.store, d);
    assert forall c :: c in t.store.chunks && t.store.chunks[c].documentId == d ==> c in ChunksOf(t.store, d);
    NoChunksNoIds(t.store, d);
    hide DeleteDocument, Consistent;
    assert StatusesOf(t.store, d) == {};
  }
}
