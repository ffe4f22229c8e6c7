/** Row changes grouped by index and document (river/batch.go). */
module Batch {
  import opened Types

  datatype DocumentChange = DocumentChange(changes: seq<TableRowChange>, docID: DocID, index: string, firstTS: int, lastTS: int)

  datatype IndexChangeSet = IndexChangeSet(changedDocs: map<DocID, DocumentChange>, index: string)

  type Changes = map<string, IndexChangeSet>

  /** Start value of the running minimum over event ids: the largest 64-bit number. */
  const NO_EVENT_ID := 0xffff_ffff_ffff_ffff

  /* ---------- adding ---------- */

  function Merged(current: DocumentChange, latest: DocumentChange): DocumentChange {
    current.(changes := current.changes + latest.changes,
             lastTS := if current.lastTS < latest.lastTS then latest.lastTS else current.lastTS)
  }

  function WithDoc(b: Changes, dc: DocumentChange): Changes {
    if dc.index in b then
      var docs := b[dc.index].changedDocs;
      b[dc.index := b[dc.index].(changedDocs :=
        docs[dc.docID := if dc.docID in docs then Merged(docs[dc.docID], dc) else dc])]
    else b[dc.index := IndexChangeSet(map[dc.docID := dc], dc.index)]
  }

  function SingleChange(c: TableRowChange): DocumentChange {
    DocumentChange([c], c.docID, c.index, c.ts, c.ts)
  }

  function WithRow(b: Changes, c: TableRowChange): Changes {
    WithDoc(b, SingleChange(c))
  }

  predicate Holds(b: Changes, index: string, d: DocID) {
    index in b && d in b[index].changedDocs
  }

  function DocAt(b: Changes, index: string, d: DocID): DocumentChange
    requires Holds(b, index, d)
  {
    b[index].changedDocs[d]
  }

  /** The changes kept for one document of one index, oldest first. */
  function RowsFor(b: Changes, index: string, d: DocID): seq<TableRowChange> {
    if Holds(b, index, d) then DocAt(b, index, d).changes else []
  }

  ghost predicate DocKept(dc: DocumentChange, index: string, d: DocID) {
    && dc.index == index && dc.docID == d && dc.changes != []
    && forall k :: 0 <= k < |dc.changes| ==> dc.changes[k].index == index && dc.changes[k].docID == d
  }

  ghost predicate IndexKept(ics: IndexChangeSet, index: string) {
    && ics.index == index && ics.changedDocs != map[]
    && forall d :: d in ics.changedDocs ==> DocKept(ics.changedDocs[d], index, d)
  }

  /** Every entry sits under its own index and document, and no entry is empty. */
  ghost predicate WellKept(b: Changes) {
    forall i :: i in b ==> IndexKept(b[i], i)
  }

  lemma RowStaysKept(b: Changes, c: TableRowChange)
    requires WellKept(b)
    ensures WellKept(WithRow(b, c))
  {
    var next := WithRow(b, c);
    assert c.docID in next[c.index].changedDocs;
    forall d | d in next[c.index].changedDocs ensures DocKept(next[c.index].changedDocs[d], c.index, d) {
      if c.index in b && d in b[c.index].changedDocs {
        assert DocKept(b[c.index].changedDocs[d], c.index, d);
      }
    }
    assert IndexKept(next[c.index], c.index);
  }

  /** Adding a row change appends it to the list of its own document and touches no other list. */
  lemma AddedRow(b: Changes, c: TableRowChange, index: string, d: DocID)
    requires WellKept(b)
    ensures RowsFor(WithRow(b, c), index, d)
         == RowsFor(b, index, d) + if index == c.index && d == c.docID then [c] else []
    ensures Holds(b, index, d) ==>
              Holds(WithRow(b, c), index, d) && DocAt(WithRow(b, c), index, d).firstTS == DocAt(b, index, d).firstTS
  {
    var next := WithRow(b, c);
    if index == c.index && Holds(b, index, d) {
      assert IndexKept(b[index], index) && DocKept(b[index].changedDocs[d], index, d);
    }
  }

  /* ---------- the lowest event id ---------- */

  ghost function DocEventIDs(dc: DocumentChange): set<nat> {
    set k | 0 <= k < |dc.changes| :: dc.changes[k].eventID
  }

  ghost function IndexEventIDs(ics: IndexChangeSet): set<nat> {
    set d, e | d in ics.changedDocs && e in DocEventIDs(ics.changedDocs[d]) :: e
  }

  ghost function EventIDs(b: Changes): set<nat> {
    set i, e | i in b && e in IndexEventIDs(b[i]) :: e
  }

  ghost function Least(s: set<nat>): (m: nat)
    requires s != {}
    ensures m in s && forall x :: x in s ==> m <= x
  {
    var x :| x in s;
    var rest := s - {x};
    assert s == rest + {x};
    if rest == {} then x
    else
      var m := Least(rest);
      if m < x then m else x
  }

  /** The event whose predecessors are all applied: the lowest id in the batch, or the last one if none is
      found below the start value of the minimum. */
  ghost function FirstSeen(b: Changes, lastID: nat): nat {
    var seen := set e | e in EventIDs(b) && e < NO_EVENT_ID;
    if seen == {} then lastID else Least(seen)
  }

  lemma EventIDsAre(b: Changes, e: nat)
    ensures e in EventIDs(b) <==>
            exists i, d, k :: Holds(b, i, d) && 0 <= k < |RowsFor(b, i, d)| && RowsFor(b, i, d)[k].eventID == e
  {
    if e in EventIDs(b) {
      var i :| i in b && e in IndexEventIDs(b[i]);
      var d :| d in b[i].changedDocs && e in DocEventIDs(b[i].changedDocs[d]);
      var k :| 0 <= k < |b[i].changedDocs[d].changes| && b[i].changedDocs[d].changes[k].eventID == e;
      assert Holds(b, i, d) && RowsFor(b, i, d)[k].eventID == e;
    }
    if i, d, k :| Holds(b, i, d) && 0 <= k < |RowsFor(b, i, d)| && RowsFor(b, i, d)[k].eventID == e {
      assert e in DocEventIDs(b[i].changedDocs[d]);
      assert e in IndexEventIDs(b[i]);
    }
  }

  /** The result is the true minimum unless every id equals the start value. */
  lemma FirstSeenIsMinimum(b: Changes, lastID: nat)
    ensures EventIDs(b) == {} ==> FirstSeen(b, lastID) == lastID
    ensures (exists e :: e in EventIDs(b) && e < NO_EVENT_ID) ==>
              FirstSeen(b, lastID) in EventIDs(b) && forall e :: e in EventIDs(b) ==> FirstSeen(b, lastID) <= e
  {
    var seen := set e | e in EventIDs(b) && e < NO_EVENT_ID;
    if e :| e in EventIDs(b) && e < NO_EVENT_ID {
      assert e in seen;
      assert FirstSeen(b, lastID) == Least(seen);
      forall e | e in EventIDs(b) ensures FirstSeen(b, lastID) <= e {
        assert e < NO_EVENT_ID ==> e in seen;
      }
    }
  }

  /* ---------- splitting ---------- */

  /** The documents for which the test has the wanted outcome. */
  ghost function Part(b: Changes, isReady: DocumentChange -> bool, want: bool): Changes {
    map i | i in b && (exists d :: d in b[i].changedDocs && isReady(b[i].changedDocs[d]) == want) ::
      IndexChangeSet(map d | d in b[i].changedDocs && isReady(b[i].changedDocs[d]) == want :: b[i].changedDocs[d], i)
  }

  /** Splitting keeps whole documents together: each list ends up, unchanged, on exactly one side. */
  lemma PartKeepsDocs(b: Changes, isReady: DocumentChange -> bool, want: bool, index: string, d: DocID)
    ensures Holds(Part(b, isReady, want), index, d) <==> Holds(b, index, d) && isReady(DocAt(b, index, d)) == want
    ensures Holds(Part(b, isReady, want), index, d) ==> DocAt(Part(b, isReady, want), index, d) == DocAt(b, index, d)
  {
  }

  lemma PartIsKept(b: Changes, isReady: DocumentChange -> bool, want: bool)
    requires WellKept(b)
    ensures WellKept(Part(b, isReady, want))
  {
    var part := Part(b, isReady, want);
    forall i | i in part ensures IndexKept(part[i], i) {
      assert IndexKept(b[i], i);
      var d :| d in b[i].changedDocs && isReady(b[i].changedDocs[d]) == want;
      assert d in part[i].changedDocs;
      forall k | k in part[i].changedDocs ensures DocKept(part[i].changedDocs[k], i, k) {
        assert DocKept(b[i].changedDocs[k], i, k);
      }
    }
  }

  lemma PartEventIDs(b: Changes, isReady: DocumentChange -> bool, want: bool)
    ensures EventIDs(Part(b, isReady, want)) <= EventIDs(b)
  {
    forall e | e in EventIDs(Part(b, isReady, want)) ensures e in EventIDs(b) {
      EventIDsAre(Part(b, isReady, want), e);
      var i, d, k :| Holds(Part(b, isReady, want), i, d) && 0 <= k < |RowsFor(Part(b, isReady, want), i, d)|
                     && RowsFor(Part(b, isReady, want), i, d)[k].eventID == e;
      PartKeepsDocs(b, isReady, want, i, d);
      assert Holds(b, i, d) && RowsFor(b, i, d)[k].eventID == e;
      EventIDsAre(b, e);
    }
  }

  lemma SomeDoc(b: Changes, i: string)
    requires i in b && IndexKept(b[i], i)
    ensures exists d :: Holds(b, i, d)
  {
    assert b[i].changedDocs.Keys != {};
    var d :| d in b[i].changedDocs.Keys;
    assert Holds(b, i, d);
  }

  /** Keyed extensionality for batches without empty entries. */
  lemma SameChanges(a: Changes, b: Changes)
    requires WellKept(a) && WellKept(b)
    requires forall i, d :: Holds(a, i, d) <==> Holds(b, i, d)
    requires forall i, d :: Holds(a, i, d) ==> DocAt(a, i, d) == DocAt(b, i, d)
    ensures a == b
  {
    forall i ensures i in a <==> i in b {
      if i in a {
        SomeDoc(a, i);
      }
      if i in b {
        SomeDoc(b, i);
      }
    }
    forall i | i in a ensures a[i] == b[i] {
      forall d ensures d in a[i].changedDocs <==> d in b[i].changedDocs {
        assert Holds(a, i, d) <==> Holds(b, i, d);
      }
      forall d | d in a[i].changedDocs ensures a[i].changedDocs[d] == b[i].changedDocs[d] {
        assert Holds(a, i, d);
        assert DocAt(a, i, d) == DocAt(b, i, d);
      }
      assert a[i].changedDocs == b[i].changedDocs;
    }
  }

  /* ---------- the change queue as an object ---------- */

  class BatchedChangeSet {
    var changes: Changes
    const name: string

    constructor (name: string)
      ensures changes == map[] && this.name == name
    {
      this.name, changes := name, map[];
    }

    method AddDocumentChange(dc: DocumentChange)
      modifies this
      ensures changes == WithDoc(old(changes), dc)
    {
      if dc.index in changes {
        var ics := changes[dc.index];
        if dc.docID in ics.changedDocs {
          var merged := MergeWith(ics.changedDocs[dc.docID], dc);
          changes := changes[dc.index := ics.(changedDocs := ics.changedDocs[dc.docID := merged])];
        } else {
          changes := changes[dc.index := ics.(changedDocs := ics.changedDocs[dc.docID := dc])];
        }
      } else {
        changes := changes[dc.index := IndexChangeSet(map[dc.docID := dc], dc.index)];
      }
    }

    static method MergeWith(current: DocumentChange, latest: DocumentChange) returns (merged: DocumentChange)
      ensures merged.changes == current.changes + latest.changes
      ensures merged.docID == current.docID && merged.index == current.index && merged.firstTS == current.firstTS
      ensures merged.lastTS in {current.lastTS, latest.lastTS}
      ensures merged.lastTS >= current.lastTS && merged.lastTS >= latest.lastTS
    {
      merged := current.(changes := current.changes + latest.changes);
      if merged.lastTS < latest.lastTS {
        merged := merged.(lastTS := latest.lastTS);
      }
    }

    method AddRowChange(c: TableRowChange)
      modifies this
      ensures changes == WithRow(old(changes), c)
    {
      AddDocumentChange(DocumentChange([c], c.docID, c.index, c.ts, c.ts));
    }

    /** A running minimum over all changes, visited in no particular order. */
    method FirstSeenPositionEventID(lastID: nat) returns (id: nat)
      ensures id == FirstSeen(changes, lastID)
    {
      id := NO_EVENT_ID;
      var found := false;
      ghost var seen: set<nat> := {};
      var indexes := changes.Keys;
      while indexes != {}
        invariant indexes <= changes.Keys
        invariant seen == set i, e | i in changes && i !in indexes && e in IndexEventIDs(changes[i]) :: e
        invariant RunningMinimum(id, found, seen)
        decreases indexes
      {
        hide IndexEventIDs, RunningMinimum;
        var i :| i in indexes;
        id, found := LowerOverIndex(changes[i], id, found, seen);
        seen := seen + IndexEventIDs(changes[i]);
        indexes := indexes - {i};
      }
      assert seen == EventIDs(changes);
      MinimumIsFirstSeen(changes, id, found, lastID);
      if !found {
        id := lastID;
      }
    }

    static method LowerOverIndex(ics: IndexChangeSet, id0: nat, found0: bool, ghost seen0: set<nat>)
      returns (id: nat, found: bool)
      requires RunningMinimum(id0, found0, seen0)
      ensures RunningMinimum(id, found, seen0 + IndexEventIDs(ics))
    {
      id, found := id0, found0;
      ghost var seen := seen0;
      var ids := ics.changedDocs.Keys;
      while ids != {}
        invariant ids <= ics.changedDocs.Keys
        invariant seen == seen0 + set d, e | d in ics.changedDocs && d !in ids && e in DocEventIDs(ics.changedDocs[d]) :: e
        invariant RunningMinimum(id, found, seen)
        decreases ids
      {
        hide DocEventIDs, RunningMinimum;
        var d :| d in ids;
        id, found := LowerOverDoc(ics.changedDocs[d], id, found, seen);
        seen := seen + DocEventIDs(ics.changedDocs[d]);
        ids := ids - {d};
      }
      assert seen == seen0 + IndexEventIDs(ics);
    }

    static method LowerOverDoc(doc: DocumentChange, id0: nat, found0: bool, ghost seen0: set<nat>)
      returns (id: nat, found: bool)
      requires RunningMinimum(id0, found0, seen0)
      ensures RunningMinimum(id, found, seen0 + DocEventIDs(doc))
    {
      id, found := id0, found0;
      ghost var seen := seen0;
      for k := 0 to |doc.changes|
        invariant seen == seen0 + set j | 0 <= j < k :: doc.changes[j].eventID
        invariant RunningMinimum(id, found, seen)
      {
        if id > doc.changes[k].eventID {
          id := doc.changes[k].eventID;
          found := true;
        }
        seen := seen + {doc.changes[k].eventID};
      }
      assert seen == seen0 + DocEventIDs(doc);
    }
  }

  lemma MinimumIsFirstSeen(b: Changes, id: nat, found: bool, lastID: nat)
    requires RunningMinimum(id, found, EventIDs(b))
    ensures FirstSeen(b, lastID) == if found then id else lastID
  {
    FirstSeenIsMinimum(b, lastID);
  }

  ghost predicate RunningMinimum(id: nat, found: bool, seen: set<nat>) {
    if found then id in seen && id < NO_EVENT_ID && forall e :: e in seen ==> id <= e
    else id == NO_EVENT_ID && forall e :: e in seen ==> e >= NO_EVENT_ID
  }
}
