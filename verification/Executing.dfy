/** What the synchronisation loop applies (river/sync.go, river/batch.go): the queued changes can be applied, and what the log
    counts as applied was executed on the search servers, batch after batch. */
module Executing {
  import opened Types
  import opened ChangeSet
  import opened Batch
  import opened Server
  import opened Indexing
  import opened Sync
  import opened SyncSafety

  /** The columns and column maps of every table, by index. */
  type Schemas = map<string, Schema>

  /** The change carries the columns that its index keeps of its table, and rows of that width. */
  ghost predicate Sized(schema: Schema, c: TableRowChange) {
    && c.tableName in schema
    && c.columns == schema[c.tableName].columns
    && |c.oldRow| == |c.newRow| == |c.columns| <= ROW_ARRAY_LENGTH
  }

  ghost predicate SizedIn(schemas: Schemas, c: TableRowChange) {
    c.index in schemas && Sized(schemas[c.index], c)
  }

  ghost predicate AllSized(schemas: Schemas, received: seq<Message>) {
    forall k :: 0 <= k < |received| && received[k].RowMsg? ==> SizedIn(schemas, received[k].change)
  }

  ghost predicate ChangesSized(schema: Schema, changes: seq<TableRowChange>) {
    forall k :: 0 <= k < |changes| ==> Sized(schema, changes[k])
  }

  /* ---------- sized changes can be folded ---------- */

  ghost predicate DiffsSized(schema: Schema, diffs: DocDiffs) {
    forall t :: t in diffs ==>
      t in schema && diffs[t].columns == schema[t].columns && DiffsFit(diffs[t].changes, |diffs[t].columns|)
  }

  lemma AddKeepsSized(schema: Schema, diffs: DocDiffs, c: TableRowChange)
    requires DiffsSized(schema, diffs) && Sized(schema, c)
    ensures DiffsSized(schema, AddToDoc(diffs, c))
  {
    if c.tableName in diffs {
      assert DiffsFit(diffs[c.tableName].changes, |diffs[c.tableName].columns|);
    }
  }

  lemma {:induction false} SizedFold(schema: Schema, changes: seq<TableRowChange>)
    requires ChangesSized(schema, changes)
    ensures DiffsSized(schema, DocFold(changes))
  {
    if changes != [] {
      hide Sized, DiffsSized, AddToDoc;
      assert Sized(schema, Last(changes));
      SizedFold(schema, Front(changes));
      AddKeepsSized(schema, DocFold(Front(changes)), Last(changes));
    } else {
      assert DocFold([]) == map[];
    }
  }

  lemma SizedChangesFit(schema: Schema, changes: seq<TableRowChange>)
    requires ChangesSized(schema, changes)
    ensures AllDiffsFit(PruneTables(DocFold(changes)))
  {
    SizedFold(schema, changes);
    var diffs := DocFold(changes);
    hide DocFold, ChangesSized;
    forall t | t in PruneTables(diffs) ensures DiffsFit(PruneTables(diffs)[t].changes, |PruneTables(diffs)[t].columns|) {
      assert DiffsFit(diffs[t].changes, |diffs[t].columns|);
    }
  }

  /* ---------- what is queued was received ---------- */

  lemma {:induction false} ArrivalsSized(schemas: Schemas, received: seq<Message>)
    requires AllSized(schemas, received)
    ensures forall k :: 0 <= k < |Arrivals(received)| ==> SizedIn(schemas, Arrivals(received)[k])
  {
    if received != [] {
      assert AllSized(schemas, Front(received));
      ArrivalsSized(schemas, Front(received));
      assert Last(received) == received[|received| - 1];
      hide EventCount, AllSized;
    }
  }

  lemma {:induction false} OfDocSized(schemas: Schemas, changes: seq<TableRowChange>, i: string, d: DocID)
    requires forall k :: 0 <= k < |changes| ==> SizedIn(schemas, changes[k])
    ensures OfDoc(changes, i, d) != [] ==> i in schemas && ChangesSized(schemas[i], OfDoc(changes, i, d))
  {
    if changes != [] {
      hide Sized;
      OfDocSized(schemas, Front(changes), i, d);
      assert SizedIn(schemas, Last(changes));
    }
  }

  /** The list of a queued document can be folded. */
  lemma QueuedIsSized(s: State, schemas: Schemas, i: string, d: DocID)
    requires Inv(s) && AllSized(schemas, s.log.received) && Holds(s.q.queue, i, d)
    ensures FoldFitsFor(DocAt(s.q.queue, i, d)) && DocAt(s.q.queue, i, d).index == i
  {
    assert Accounted(Arrivals(s.log.received), s.log.applied, s.log.unfinished, s.q.queue, i, d);
    assert IndexKept(s.q.queue[i], i) && DocKept(DocAt(s.q.queue, i, d), i, d);
    var changes := DocAt(s.q.queue, i, d).changes;
    hide Arrivals, OfDoc, AppliedTo, AllSized, Inv, DocFold, PruneTables, AllDiffsFit;
    ArrivalsSized(schemas, s.log.received);
    OfDocSized(schemas, Arrivals(s.log.received), i, d);
    var all := OfDoc(Arrivals(s.log.received), i, d);
    assert changes == all[|all| - |changes|..];
    assert ChangesSized(schemas[i], changes) by { hide Sized; }
    SizedChangesFit(schemas[i], changes);
  }

  ghost predicate HaveParts(sources: map<string, DataSource>) {
    forall i :: i in sources ==> sources[i].cfg.parts > 0
  }

  /** The queue can be applied. */
  lemma QueueCanBeApplied(s: State, schemas: Schemas, sources: map<string, DataSource>)
    requires Inv(s) && AllSized(schemas, s.log.received) && HaveParts(sources)
    ensures SourcesFit(s.q.queue, sources)
  {
    var b := s.q.queue;
    assert WellKept(b);
    forall i | i in b ensures SourceFits(b[i], sources) && b[i].index == i {
      assert IndexKept(b[i], i);
      forall d | d in b[i].changedDocs ensures FoldFitsFor(b[i].changedDocs[d]) {
        assert Holds(b, i, d);
        QueuedIsSized(s, schemas, i, d);
      }
      hide Inv, WellKept, AllSized, FoldFitsFor;
    }
    hide Inv, WellKept, AllSized, SourceFits;
  }

  /** So can any part of it. */
  lemma PartCanBeApplied(b: Changes, isReady: DocumentChange -> bool, want: bool, sources: map<string, DataSource>)
    requires SourcesFit(b, sources)
    ensures SourcesFit(Part(b, isReady, want), sources)
  {
    var part := Part(b, isReady, want);
    forall i | i in part ensures SourceFits(part[i], sources) && part[i].index == i {
      assert SourceFits(b[i], sources) && b[i].index == i;
      hide FoldFitsFor;
    }
  }

  /* ---------- what is applied was executed ---------- */

  /** Applying every index of the batch in some order, as this database answered, took the servers from one state to the
      other. */
  ghost predicate IsExecuted(b: Changes, sources: map<string, DataSource>, database: Database, before: Cluster, after: Cluster) {
    SourcesFit(b, sources) && DatabaseFits(database) && AppliedFrom(b, sources, database, b.Keys, before, after)
  }

  /** Each batch of the list in turn, with its own database, took the servers from one state to the next. */
  ghost predicate Executed(applied: seq<Changes>, sources: map<string, DataSource>, databases: seq<Database>,
                           states: seq<Cluster>)
  {
    && |databases| == |applied| && |states| == |applied| + 1
    && forall k :: 0 <= k < |applied| ==> IsExecuted(applied[k], sources, databases[k], states[k], states[k + 1])
  }

  lemma ExecutedMore(applied: seq<Changes>, sources: map<string, DataSource>, databases: seq<Database>, states: seq<Cluster>,
                     b: Changes, database: Database, after: Cluster)
    requires Executed(applied, sources, databases, states) && IsExecuted(b, sources, database, Last(states), after)
    ensures Executed(applied + [b], sources, databases + [database], states + [after])
  {
    hide IsExecuted;
  }

  /** The indexes that a failed batch reports as done were executed. */
  lemma DoneIsExecuted(b: Changes, sources: map<string, DataSource>, database: Database, done: set<string>,
                       before: Cluster, after: Cluster)
    requires SourcesFit(b, sources) && DatabaseFits(database) && done <= b.Keys
    requires AppliedFrom(b, sources, database, done, before, after)
    ensures IsExecuted(Restrict(b, done), sources, database, before, after)
  {
    var part := Restrict(b, done);
    assert part.Keys == done;
    assert SourcesFit(part, sources) by { hide SourceFits; }
    var order, states :| AppliedInTurn(b, sources, database, order, states) &&
      states[0] == before && Last(states) == after && forall i :: i in order <==> i in done;
    hide SourceFits, IndexApplied, DatabaseFits;
    forall k | 0 <= k < |order|
      ensures order[k] in part && IndexApplied(part[order[k]], sources, database, states[k], states[k + 1])
    {
      assert order[k] in order;
    }
    assert AppliedInTurn(part, sources, database, order, states);
    hide AppliedInTurn, SourcesFit, Restrict;
    assert AppliedFrom(part, sources, database, part.Keys, before, after);
  }

  /** The log once the outcome of a batch is known. */
  function LogAfter(log: Log, staged: Changes, result: BatchResult): Log {
    match result
    case BatchApplied => ApplyBatch(log, staged)
    case BatchFailed(done) => FailBatch(log, staged, done)
  }

  /** What the methods that apply a batch promise about its outcome. */
  ghost predicate OutcomeFits(b: Changes, sources: map<string, DataSource>, database: Database, result: BatchResult,
                              before: Cluster, after: Cluster)
  {
    && SourcesFit(b, sources) && DatabaseFits(database)
    && match result
       case BatchApplied => AppliedFrom(b, sources, database, b.Keys, before, after)
       case BatchFailed(done) => done < b.Keys && FailedAfter(b, sources, database, done, before, after)
  }

  method ApplyBatchTo(b: Changes, sources: map<string, DataSource>, database: Database, servers: Cluster)
    returns (after: Cluster, result: BatchResult)
    requires SourcesFit(b, sources) && DatabaseFits(database)
    ensures OutcomeFits(b, sources, database, result, servers, after)
  {
    hide SourcesFit, DatabaseFits, AppliedFrom, FailedAfter;
    after, result := DoBatch(b, sources, database, servers);
  }

  lemma StateBefore(b: Changes, sources: map<string, DataSource>, database: Database, done: set<string>,
                    before: Cluster, after: Cluster) returns (mid: Cluster)
    requires SourcesFit(b, sources) && DatabaseFits(database) && FailedAfter(b, sources, database, done, before, after)
    ensures AppliedFrom(b, sources, database, done, before, mid)
  {
    var state, i :| AppliedFrom(b, sources, database, done, before, state) && i in b && i !in done &&
      IndexFailed(b[i], sources, database, state, after);
    mid := state;
  }

  /** Whatever the outcome, what the log counts as applied was executed. */
  lemma OutcomeIsExecuted(log: Log, staged: Changes, sources: map<string, DataSource>, database: Database, result: BatchResult,
                          databases: seq<Database>, states: seq<Cluster>, after: Cluster) returns (next: seq<Cluster>)
    requires Executed(log.applied, sources, databases, states)
    requires OutcomeFits(staged, sources, database, result, Last(states), after)
    ensures Executed(LogAfter(log, staged, result).applied, sources, databases + [database], next) && states <= next
    ensures result.BatchApplied? ==> next == states + [after]
  {
    hide AppliedFrom, SourcesFit, DatabaseFits, Restrict, IndexFailed;
    match result
    case BatchApplied =>
      assert IsExecuted(staged, sources, database, Last(states), after);
      hide IsExecuted;
      ExecutedMore(log.applied, sources, databases, states, staged, database, after);
      next := states + [after];
    case BatchFailed(done) =>
      var mid := StateBefore(staged, sources, database, done, Last(states), after);
      hide IsExecuted;
      DoneIsExecuted(staged, sources, database, done, Last(states), mid);
      ExecutedMore(log.applied, sources, databases, states, Restrict(staged, done), database, mid);
      next := states + [mid];
  }

  /** A state of a run whose queue can be split and applied. */
  lemma FlushIsReady(s: State, schemas: Schemas, sources: map<string, DataSource>)
    requires Inv(s) && AllSized(schemas, s.log.received) && HaveParts(sources)
    ensures WellKept(s.q.queue) && SourcesFit(s.q.queue, sources)
  {
    QueueCanBeApplied(s, schemas, sources);
    hide SourcesFit, WellKept, AllSized, Conserved, WindowFits, SavedFits;
  }
}
