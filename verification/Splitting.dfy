/** Splitting the change queue (river/sync.go, `SplitQueue`): the documents are visited in no particular order and
    handed to one of two fresh batches, which end up as the two parts of the queue. */
module Splitting {
  import opened Types
  import opened Batch

  datatype DocKey = DocKey(index: string, docID: DocID)

  ghost predicate Placed(part: Changes, b: Changes, isReady: DocumentChange -> bool, want: bool, seen: set<DocKey>,
                         i: string, d: DocID)
  {
    && (Holds(part, i, d) <==> DocKey(i, d) in seen && Holds(b, i, d) && isReady(DocAt(b, i, d)) == want)
    && (Holds(part, i, d) && Holds(b, i, d) ==> DocAt(part, i, d) == DocAt(b, i, d))
  }

  /** The visited documents with the wanted outcome are in the part, as they were in the queue. */
  ghost predicate PartSoFar(part: Changes, b: Changes, isReady: DocumentChange -> bool, want: bool, seen: set<DocKey>) {
    WellKept(part) && forall i, d :: Placed(part, b, isReady, want, seen, i, d)
  }

  lemma NothingPlaced(b: Changes, isReady: DocumentChange -> bool, want: bool)
    ensures PartSoFar(map[], b, isReady, want, {})
  {
  }

  lemma KeptDoc(b: Changes, i: string, d: DocID)
    requires WellKept(b) && Holds(b, i, d)
    ensures DocKept(DocAt(b, i, d), i, d)
  {
    assert IndexKept(b[i], i);
  }

  /** A document that is not there yet is added as it is. */
  lemma AddedDoc(b: Changes, dc: DocumentChange, i: string, d: DocID)
    requires !Holds(b, dc.index, dc.docID)
    ensures Holds(WithDoc(b, dc), i, d) <==> Holds(b, i, d) || (i == dc.index && d == dc.docID)
    ensures Holds(WithDoc(b, dc), i, d) ==>
              DocAt(WithDoc(b, dc), i, d) == if i == dc.index && d == dc.docID then dc else DocAt(b, i, d)
  {
  }

  lemma AddedDocIsKept(b: Changes, dc: DocumentChange)
    requires WellKept(b) && !Holds(b, dc.index, dc.docID) && DocKept(dc, dc.index, dc.docID)
    ensures WellKept(WithDoc(b, dc))
  {
    var next, i := WithDoc(b, dc), dc.index;
    hide DocKept;
    assert dc.docID in next[i].changedDocs;
    if i in b {
      assert IndexKept(b[i], i);
    }
    assert IndexKept(next[i], i);
  }

  lemma OneMorePlaced(part: Changes, b: Changes, isReady: DocumentChange -> bool, want: bool, seen: set<DocKey>, key: DocKey)
    requires PartSoFar(part, b, isReady, want, seen) && WellKept(b) && Holds(b, key.index, key.docID) && key !in seen
    ensures var doc := DocAt(b, key.index, key.docID);
            PartSoFar(if isReady(doc) == want then WithDoc(part, doc) else part, b, isReady, want, seen + {key})
  {
    var doc := DocAt(b, key.index, key.docID);
    KeptDoc(b, key.index, key.docID);
    assert Placed(part, b, isReady, want, seen, key.index, key.docID);
    hide DocAt, Holds, WellKept;
    if isReady(doc) == want {
      AddedDocIsKept(part, doc);
      forall i, d ensures Placed(WithDoc(part, doc), b, isReady, want, seen + {key}, i, d) {
        hide WithDoc;
        assert Placed(part, b, isReady, want, seen, i, d);
        AddedDoc(part, doc, i, d);
      }
    } else {
      forall i, d ensures Placed(part, b, isReady, want, seen + {key}, i, d) {
        assert Placed(part, b, isReady, want, seen, i, d);
      }
    }
  }

  /** Once every document was visited, the part is the one the specification names. */
  lemma AllPlaced(part: Changes, b: Changes, isReady: DocumentChange -> bool, want: bool, seen: set<DocKey>)
    requires PartSoFar(part, b, isReady, want, seen) && WellKept(b)
    requires forall i, d :: Holds(b, i, d) ==> DocKey(i, d) in seen
    ensures part == Part(b, isReady, want)
  {
    PartIsKept(b, isReady, want);
    var spec := Part(b, isReady, want);
    hide Part, Holds, DocAt, WellKept;
    forall i, d
      ensures Holds(part, i, d) <==> Holds(spec, i, d)
      ensures Holds(part, i, d) ==> DocAt(part, i, d) == DocAt(spec, i, d)
    {
      PartKeepsDocs(b, isReady, want, i, d);
      assert Placed(part, b, isReady, want, seen, i, d);
    }
    SameChanges(part, spec);
  }

  ghost function KeysOf(b: Changes, i: string, ids: set<DocID>): set<DocKey> {
    set d | d in ids :: DocKey(i, d)
  }

  /** Visits the documents of one index. */
  method SplitIndex(docBatch: IndexChangeSet, isReady: DocumentChange -> bool, ready: BatchedChangeSet,
                    notReady: BatchedChangeSet, ghost b: Changes, ghost seen0: set<DocKey>)
    requires WellKept(b) && docBatch.index in b && docBatch == b[docBatch.index] && ready != notReady
    requires forall key :: key in seen0 ==> key.index != docBatch.index
    requires PartSoFar(ready.changes, b, isReady, true, seen0) && PartSoFar(notReady.changes, b, isReady, false, seen0)
    modifies ready, notReady
    ensures PartSoFar(ready.changes, b, isReady, true, seen0 + KeysOf(b, docBatch.index, docBatch.changedDocs.Keys))
    ensures PartSoFar(notReady.changes, b, isReady, false, seen0 + KeysOf(b, docBatch.index, docBatch.changedDocs.Keys))
  {
    var rest := docBatch.changedDocs.Keys;
    ghost var visited, seen := {}, seen0;
    ghost var index := docBatch.index;
    assert seen0 + KeysOf(b, index, {}) == seen0;
    hide PartSoFar, WellKept;
    while rest != {}
      invariant rest !! visited && rest + visited == docBatch.changedDocs.Keys
      invariant seen == seen0 + KeysOf(b, index, visited)
      invariant PartSoFar(ready.changes, b, isReady, true, seen) && PartSoFar(notReady.changes, b, isReady, false, seen)
      decreases rest
    {
      var d :| d in rest;
      var doc := docBatch.changedDocs[d];
      assert Holds(b, index, d) && DocAt(b, index, d) == doc && DocKey(index, d) !in seen;
      hide Holds, DocAt, WithDoc;
      OneMorePlaced(ready.changes, b, isReady, true, seen, DocKey(index, d));
      OneMorePlaced(notReady.changes, b, isReady, false, seen, DocKey(index, d));
      if isReady(doc) {
        ready.AddDocumentChange(doc);
      } else {
        notReady.AddDocumentChange(doc);
      }
      assert KeysOf(b, index, visited + {d}) == KeysOf(b, index, visited) + {DocKey(index, d)};
      rest, visited, seen := rest - {d}, visited + {d}, seen + {DocKey(index, d)};
    }
    assert visited == docBatch.changedDocs.Keys;
  }

  /** The two parts of a queue: whole documents, on the side their test says. */
  method SplitChanges(queue: Changes, isReady: DocumentChange -> bool)
    returns (ready: BatchedChangeSet, notReady: BatchedChangeSet)
    requires WellKept(queue)
    ensures fresh(ready) && fresh(notReady) && ready != notReady
    ensures ready.changes == Part(queue, isReady, true) && notReady.changes == Part(queue, isReady, false)
  {
    ready := new BatchedChangeSet("staged");
    notReady := new BatchedChangeSet("queue");
    var rest := queue.Keys;
    ghost var seen: set<DocKey> := {};
    NothingPlaced(queue, isReady, true);
    NothingPlaced(queue, isReady, false);
    while rest != {}
      invariant rest <= queue.Keys && fresh(ready) && fresh(notReady) && ready != notReady
      invariant forall i, d :: Holds(queue, i, d) && i !in rest ==> DocKey(i, d) in seen
      invariant forall key :: key in seen ==> key.index !in rest
      invariant PartSoFar(ready.changes, queue, isReady, true, seen)
      invariant PartSoFar(notReady.changes, queue, isReady, false, seen)
      decreases rest
    {
      var i :| i in rest;
      assert queue[i].index == i by { assert IndexKept(queue[i], i); }
      hide PartSoFar, WellKept;
      SplitIndex(queue[i], isReady, ready, notReady, queue, seen);
      seen := seen + KeysOf(queue, i, queue[i].changedDocs.Keys);
      rest := rest - {i};
    }
    AllPlaced(ready.changes, queue, isReady, true, seen);
    AllPlaced(notReady.changes, queue, isReady, false, seen);
  }
}
