/** Resuming, down to the search servers (river/sync.go, river/batch.go): a change that the saved position covers is part of a
    batch that was executed. */
module Resuming {
  import opened Types
  import opened Batch
  import opened Master
  import opened Sync
  import opened Server
  import opened Indexing
  import opened Executing
  import opened Handler
  import opened Following

  /** The change is in an applied batch that took the servers from one state to the next. */
  ghost predicate ExecutedIn(applied: seq<Changes>, sources: map<string, DataSource>, databases: seq<Database>,
                             states: seq<Cluster>, c: TableRowChange, k: nat)
  {
    && k < |applied| && |databases| == |applied| && |states| == |applied| + 1
    && c in RowsFor(applied[k], c.index, c.docID) && IsExecuted(applied[k], sources, databases[k], states[k], states[k + 1])
  }

  /** The row change received as message `n`, stamped with the number of events before it. */
  function StampedAt(received: seq<Message>, n: nat): TableRowChange
    requires n < |received| && received[n].RowMsg?
  {
    received[n].change.(eventID := EventCount(received[..n]))
  }

  lemma {:induction false} AppliedInBatch(applied: seq<Changes>, index: string, d: DocID, rank: nat) returns (k: nat)
    requires rank < |AppliedTo(applied, index, d)|
    ensures k < |applied| && AppliedTo(applied, index, d)[rank] in RowsFor(applied[k], index, d)
  {
    var prior := AppliedTo(Front(applied), index, d);
    if rank < |prior| {
      k := AppliedInBatch(Front(applied), index, d, rank);
    } else {
      k := |applied| - 1;
      assert AppliedTo(applied, index, d)[rank] == RowsFor(Last(applied), index, d)[rank - |prior|];
    }
  }

  /** What the log shows as applied was executed. */
  lemma AppliedIsExecuted(log: Log, n: nat, sources: map<string, DataSource>, databases: seq<Database>,
                          states: seq<Cluster>)
    requires IsApplied(log, n) && Executed(log.applied, sources, databases, states)
    ensures n < |log.received| && log.received[n].RowMsg?
    ensures exists k :: ExecutedIn(log.applied, sources, databases, states, StampedAt(log.received, n), k)
  {
    var c := StampedAt(log.received, n);
    var rank := |OfDoc(Arrivals(log.received[..n]), c.index, c.docID)|;
    hide OfDoc, Arrivals, AppliedTo, EventCount, IsExecuted, RowsFor;
    var k := AppliedInBatch(log.applied, c.index, c.docID, rank);
    assert ExecutedIn(log.applied, sources, databases, states, c, k);
  }

  /** No change is lost on resume, on the servers. In any session whose applied batches were executed one after the other, as
      the loop leaves them, each row change at or before the saved position was received and is in an executed batch. */
  lemma ResumedChangesAreExecuted(setup: Setup, cfg: Config, m: Checkpoint, startedAt: int, calls: seq<Call>, inputs: seq<Input>,
                                  n: nat, sources: map<string, DataSource>, databases: seq<Database>,
                          states: seq<Cluster>)
    requires Session(setup, cfg, m, startedAt, calls, inputs)
    requires Executed(Run(cfg, Init(m, startedAt), inputs).log.applied, sources, databases, states)
    requires n < |Produced(setup, StartProducer(m), calls).sent|
    requires var message := Produced(setup, StartProducer(m), calls).sent[n];
             message.SentRow? && AtOrBefore(message.at, PositionOf(Run(cfg, Init(m, startedAt), inputs).master))
    ensures var log := Run(cfg, Init(m, startedAt), inputs).log;
            && n < |log.received| && log.received[n].RowMsg?
            && exists k :: ExecutedIn(log.applied, sources, databases, states, StampedAt(log.received, n), k)
  {
    hide Run, Produced, Session, IsApplied, Executed, ExecutedIn, EventCount, StampedAt;
    NoLostChange(setup, cfg, m, startedAt, calls, inputs, n);
    AppliedIsExecuted(Run(cfg, Init(m, startedAt), inputs).log, n, sources, databases, states);
  }

  /* ---------- each applied batch follows its database ---------- */

  /** When batch `k` was fed, and its indexes stood as before it, they stand as after it. */
  ghost predicate FollowsAt(applied: seq<Changes>, sources: map<string, DataSource>, databases: seq<Database>,
                            states: seq<Cluster>, feeds: map<string, Feed>, k: nat)
    requires k < |applied| == |databases| && |states| == |applied| + 1
  {
    BatchIsFed(applied[k], sources, databases[k], feeds) &&
    AllStanding(applied[k], sources, databases[k], feeds, [], states[k]) ==>
      forall i :: i in applied[k] ==> StandsAfter(applied[k], sources, databases[k], feeds, states[k + 1], i)
  }

  /** After each batch that the loop counts as applied, every document of the batch is indexed as a full reindex would for its
      rows after the batch, outside the one failing case of partial updates, provided the database that was queried for this
      batch answered as of those rows. */
  lemma ExecutedBatchesFollow(applied: seq<Changes>, sources: map<string, DataSource>, databases: seq<Database>,
                              states: seq<Cluster>, feeds: map<string, Feed>, k: nat)
    requires Executed(applied, sources, databases, states) && k < |applied|
    ensures FollowsAt(applied, sources, databases, states, feeds, k)
  {
    assert IsExecuted(applied[k], sources, databases[k], states[k], states[k + 1]);
    hide BatchIsFed, AllStanding, AppliedFrom, SourcesFit, DatabaseFits, StandsAfter, StandsBefore;
    if BatchIsFed(applied[k], sources, databases[k], feeds) &&
       AllStanding(applied[k], sources, databases[k], feeds, [], states[k])
    {
      BatchFollowsDatabase(applied[k], sources, databases[k], feeds, applied[k].Keys, states[k], states[k + 1]);
    }
  }
}
