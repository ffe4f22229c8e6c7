/** A whole batch (river/batch.go, `doBatch`): applying it brings every index it touches to where a full reindex would. */
module Following {
  import opened Types
  import opened ChangeSet
  import opened Batch
  import opened Sql
  import opened Conventions
  import opened QueryBatch
  import opened Server
  import opened Reindex
  import opened Indexing

  /** What an index is fed with: the tables behind it, its source query, and for each document its rows before the batch. */
  datatype Feed = Feed(schema: Schema, query: Query, fields: seq<string>, batch: IndexBatch)

  ghost predicate FeedFits(feed: Feed) {
    && QueryFits(feed.query, feed.fields) && FieldDetermined(feed.schema, feed.query, feed.fields)
    && MapsKnown(feed.schema, feed.fields) && BatchFits(feed.schema, feed.batch)
  }

  ghost predicate SameHistories(docs: map<DocID, DocumentChange>, batch: IndexBatch) {
    batch.Keys == docs.Keys && forall d :: d in docs ==> batch[d].history == docs[d].changes
  }

  /** The database answers for an index as of the state after the batch. */
  ghost predicate Answers(database: Database, index: string, source: DataSource, feed: Feed)
    requires FeedFits(feed)
  {
    forall ids :: ListsChanged(ids, AttrsFor(feed.schema, feed.batch)) && ids != [] ==>
      AnswersFor(database(index, ids), source, feed, ids)
  }

  ghost predicate AnswersFor(result: Option<ResultSet>, source: DataSource, feed: Feed, ids: seq<DocID>) {
    && CanFetch(result, source) && ResultFits(result.value) && result.value.fields == feed.fields
    && ByID(feed.fields, result.value.rows) == FetchAfter(feed.query, feed.batch, ids)
  }

  ghost predicate IndexFits(ics: IndexChangeSet, sources: map<string, DataSource>, database: Database, feed: Feed) {
    && SourceFits(ics, sources) && ics.index in sources && DatabaseFits(database)
    && FeedFits(feed) && SameHistories(ics.changedDocs, feed.batch) && Answers(database, ics.index, sources[ics.index], feed)
  }

  /** Every document is indexed as a full reindex would for its rows before the batch. */
  ghost predicate IndexedBefore(cluster: Cluster, index: string, cfg: SourceConfig, feed: Feed)
    requires cfg.parts > 0
  {
    forall d :: d in feed.batch ==> IsIndexed(cluster, index, cfg, feed.query, feed.fields, d, feed.batch[d].rows)
  }

  /** Each document is indexed as a full reindex would for its rows after the batch, if and only if it is not one that appears
      for the first time through attributes alone. */
  ghost predicate IndexedAfter(cluster: Cluster, index: string, cfg: SourceConfig, feed: Feed)
    requires cfg.parts > 0 && FeedFits(feed)
  {
    forall d :: d in feed.batch ==> DocIndexedAfter(cluster, index, cfg, feed, d)
  }

  ghost predicate DocIndexedAfter(cluster: Cluster, index: string, cfg: SourceConfig, feed: Feed, d: DocID)
    requires cfg.parts > 0 && FeedFits(feed) && d in feed.batch
  {
    BatchAt(feed.schema, feed.batch, d);
    IsIndexed(cluster, index, cfg, feed.query, feed.fields, d, RowsAfter(feed.batch[d])) <==>
      !AppearsByAttributesOnly(feed.query, cfg, ChangedAttrs(feed.batch[d].history), d, feed.batch[d])
  }

  /** Only shards of the index may differ. */
  ghost predicate OthersStay(before: Cluster, after: Cluster, index: string, parts: nat) {
    && after.Keys == before.Keys
    && forall name :: name in before && IsNoShard(index, parts, parts, name) ==> after[name] == before[name]
  }

  /* ---------- one index ---------- */

  lemma {:induction false} NoTextsForNothing(index: string, fields: seq<string>, rows: Fetched, attrs: map<DocID, set<string>>,
                                             cfg: SourceConfig, n: nat)
    requires FetchFits(fields, rows) && cfg.parts > 0
    ensures BatchTexts(index, fields, rows, attrs, cfg, [], n) == []
  {
    hide ShardTexts, FetchFits, IndexChunkName;
    if n > 0 {
      NoTextsForNothing(index, fields, rows, attrs, cfg, n - 1);
      NoShardTexts(IndexChunkName(index, cfg.parts, n - 1), fields, rows, attrs, cfg, n - 1);
      BatchTextsStep(index, fields, rows, attrs, cfg, [], n - 1);
      hide BatchTexts;
    }
  }

  lemma NoShardTexts(index: string, fields: seq<string>, rows: Fetched, attrs: map<DocID, set<string>>, cfg: SourceConfig,
                     chunk: nat)
    requires FetchFits(fields, rows) && cfg.parts > 0
    ensures ShardTexts(index, fields, rows, attrs, cfg, [], chunk) == []
  {
    assert DataFits(DataOf(fields, rows));
    hide FetchFits, DataOf, ReplaceText, DeleteText, UpdateText, DataFits;
    assert ListsFor([], attrs, DataOf(fields, rows), cfg, chunk) == QueryLists([], [], []);
    hide ListsFor;
  }

  /** Executing an index touches its own shards only. */
  lemma AfterBatchTouchesOwn(cluster: Cluster, index: string, cfg: SourceConfig, feed: Feed, ids: seq<DocID>)
    requires FeedFits(feed) && cfg.parts > 0 && IndexExists(cluster, index, cfg.parts)
    requires ListsChanged(ids, AttrsFor(feed.schema, feed.batch))
    ensures var reply := AfterBatch(feed.schema, cluster, index, cfg, feed.query, feed.fields, feed.batch, ids);
            reply.ok && OthersStay(cluster, reply.cluster, index, cfg.parts)
  {
    var rows, attrs := FetchAfter(feed.query, feed.batch, ids), AttrsFor(feed.schema, feed.batch);
    hide FieldDetermined, ChangedAttrs, RowsAfter, QueryFits, FetchFits, FetchAfter, AttrsFor, RunTexts, BatchTexts, MapsKnown,
      FieldsKnown, IndexExists, IndexChunkName, ListsChanged, BatchFits, Known, ShardDone;
    FetchAfterFits(feed.query, feed.fields, feed.batch, ids);
    AttrsAreKnown(feed.schema, feed.fields, feed.batch, ids);
    ShardsRun(cluster, index, feed.fields, rows, attrs, cfg, ids, cfg.parts);
  }

  /** What an applied index did, in terms of the theorem about following the database. */
  lemma AppliedIsAfterBatch(ics: IndexChangeSet, sources: map<string, DataSource>, database: Database, feed: Feed,
                            before: Cluster, after: Cluster) returns (ids: seq<DocID>)
    requires IndexFits(ics, sources, database, feed) && IndexApplied(ics, sources, database, before, after)
    ensures FeedFits(feed) && ics.index in sources && sources[ics.index].cfg.parts > 0
    ensures ListsChanged(ids, AttrsFor(feed.schema, feed.batch))
    ensures AfterBatch(feed.schema, before, ics.index, sources[ics.index].cfg, feed.query, feed.fields, feed.batch, ids)
         == Reply(after, true)
  {
    var source, docs := sources[ics.index], ics.changedDocs;
    ids :| ListedAndSent(ics, source, database, before, after, ids);
    hide FieldDetermined, ChangedAttrs, RowsAfter, QueryFits, FetchAfter, AttrsFor, RunTexts, BatchTexts, MapsKnown, ListsChanged,
      BatchFits, Known, AttrsByDoc, CanFetch, ResultFits, ByID, AllFoldsFit, SentTexts, AfterBatch;
    QueuedChangesAreBatch(feed.schema, docs, feed.batch);
    if ids == [] {
      EmptyAfterBatch(before, ics.index, source.cfg, feed);
    } else {
      assert AnswersFor(database(ics.index, ids), source, feed, ids);
      LoopRunsBatch(feed.schema, before, ics.index, source, feed.query, feed.fields, docs, feed.batch, ids,
                    database(ics.index, ids).value);
    }
  }

  lemma EmptyAfterBatch(cluster: Cluster, index: string, cfg: SourceConfig, feed: Feed)
    requires FeedFits(feed) && cfg.parts > 0 && ListsChanged([], AttrsFor(feed.schema, feed.batch))
    ensures AfterBatch(feed.schema, cluster, index, cfg, feed.query, feed.fields, feed.batch, []) == Reply(cluster, true)
  {
    hide FieldDetermined, RowsAfter, QueryFits, FetchFits, FetchAfter, AttrsFor, RunTexts, BatchTexts, MapsKnown, ListsChanged,
      BatchFits;
    FetchAfterFits(feed.query, feed.fields, feed.batch, []);
    NoTextsForNothing(index, feed.fields, FetchAfter(feed.query, feed.batch, []), AttrsFor(feed.schema, feed.batch), cfg,
                      cfg.parts);
    NothingRuns(cluster);
  }

  lemma FeedIsFollowed(cluster: Cluster, index: string, cfg: SourceConfig, feed: Feed, ids: seq<DocID>)
    requires FeedFits(feed) && cfg.parts > 0 && IndexExists(cluster, index, cfg.parts)
    requires ListsChanged(ids, AttrsFor(feed.schema, feed.batch)) && IndexedBefore(cluster, index, cfg, feed)
    ensures IndexedAfter(AfterBatch(feed.schema, cluster, index, cfg, feed.query, feed.fields, feed.batch, ids).cluster,
                         index, cfg, feed)
  {
    hide FieldDetermined, ChangedAttrs, RowsAfter, QueryFits, AttrsFor, MapsKnown, ListsChanged, AfterBatch, IndexExists,
      IsIndexed, AppearsByAttributesOnly, StaysPut, DocBatchFits;
    IndexFollowsDatabase(feed.schema, cluster, index, cfg, feed.query, feed.fields, feed.batch, ids);
  }

  lemma FeedOf(ics: IndexChangeSet, sources: map<string, DataSource>, database: Database, feed: Feed)
    requires IndexFits(ics, sources, database, feed)
    ensures SourceFits(ics, sources) && DatabaseFits(database) && FeedFits(feed)
    ensures ics.index in sources && sources[ics.index].cfg.parts > 0
  {
    hide FeedFits, Answers, SameHistories, DatabaseFits, AllFoldsFit;
  }

  /** Applying one index brings its documents up to date and leaves all other shards alone. */
  lemma IndexIsFollowed(ics: IndexChangeSet, sources: map<string, DataSource>, database: Database, feed: Feed,
                        before: Cluster, after: Cluster)
    requires IndexFits(ics, sources, database, feed) && SourceFits(ics, sources) && DatabaseFits(database) && FeedFits(feed)
    requires IndexApplied(ics, sources, database, before, after)
    requires ics.index in sources && sources[ics.index].cfg.parts > 0
    requires IndexExists(before, ics.index, sources[ics.index].cfg.parts)
    requires IndexedBefore(before, ics.index, sources[ics.index].cfg, feed)
    ensures IndexedAfter(after, ics.index, sources[ics.index].cfg, feed)
    ensures OthersStay(before, after, ics.index, sources[ics.index].cfg.parts)
  {
    hide FeedFits, IndexFits, AttrsFor, ListsChanged, AfterBatch, IndexExists, IndexedBefore, IndexedAfter, IndexApplied,
      SourceFits, OthersStay, DatabaseFits;
    var cfg := sources[ics.index].cfg;
    var ids := AppliedIsAfterBatch(ics, sources, database, feed, before, after);
    AfterBatchTouchesOwn(before, ics.index, cfg, feed, ids);
    FeedIsFollowed(before, ics.index, cfg, feed, ids);
  }

  /** An index that fits cannot fail. */
  lemma IndexDoesNotFail(ics: IndexChangeSet, sources: map<string, DataSource>, database: Database, feed: Feed,
                         before: Cluster, after: Cluster)
    requires IndexFits(ics, sources, database, feed) && IndexExists(before, ics.index, sources[ics.index].cfg.parts)
    ensures !IndexFailed(ics, sources, database, before, after)
  {
    var source, docs := sources[ics.index], ics.changedDocs;
    if IndexFailed(ics, sources, database, before, after) {
      var ids :| ListedAndFailed(ics, source, database, before, after, ids);
      hide FieldDetermined, ChangedAttrs, RowsAfter, QueryFits, FetchAfter, AttrsFor, RunTexts, BatchTexts, MapsKnown,
        ListsChanged, BatchFits, Known, AttrsByDoc, CanFetch, ResultFits, ByID, AllFoldsFit, SentTexts, AfterBatch,
        IndexExists, OthersStay;
      QueuedChangesAreBatch(feed.schema, docs, feed.batch);
      assert AnswersFor(database(ics.index, ids), source, feed, ids);
      LoopRunsBatch(feed.schema, before, ics.index, source, feed.query, feed.fields, docs, feed.batch, ids,
                    database(ics.index, ids).value);
      AfterBatchTouchesOwn(before, ics.index, source.cfg, feed, ids);
      assert false;
    }
  }

  /* ---------- independent indexes ---------- */

  ghost predicate DisjointShards(i: string, partsI: nat, j: string, partsJ: nat) {
    forall c :: 0 <= c < partsI ==> IsNoShard(j, partsJ, partsJ, IndexChunkName(i, partsI, c))
  }

  /** A document of one index is where it was when only shards of another index changed. */
  lemma OtherIndexStays(before: Cluster, after: Cluster, i: string, cfg: SourceConfig, j: string, parts: nat,
                        query: Query, fields: seq<string>, d: DocID, rows: DocRows)
    requires cfg.parts > 0 && OthersStay(before, after, j, parts) && DisjointShards(i, cfg.parts, j, parts)
    ensures IsIndexed(after, i, cfg, query, fields, d, rows) <==> IsIndexed(before, i, cfg, query, fields, d, rows)
  {
    hide IsNoShard, IndexChunkName, Reindexed;
    var name := IndexChunkName(i, cfg.parts, IndexChunk(d, cfg.parts));
    assert IsNoShard(j, parts, parts, name);
  }

  lemma OtherIndexExists(before: Cluster, after: Cluster, i: string, parts: nat, j: string, otherParts: nat)
    requires OthersStay(before, after, j, otherParts) && IndexExists(before, i, parts)
    ensures IndexExists(after, i, parts)
  {
    hide IndexChunkName, IsName, IsNoShard;
  }

  /* ---------- the whole batch ---------- */

  /** Every index of a batch fits, and no two share a shard. */
  ghost predicate BatchIsFed(changes: Changes, sources: map<string, DataSource>, database: Database, feeds: map<string, Feed>) {
    && DatabaseFits(database) && SourcesFit(changes, sources) && feeds.Keys == changes.Keys
    && (forall i :: i in changes ==> IndexFits(changes[i], sources, database, feeds[i]))
    && forall i, j :: i in changes && j in changes && i != j ==>
         DisjointShards(i, sources[i].cfg.parts, j, sources[j].cfg.parts)
  }

  /** Where one index stands when some indexes of a batch were applied. */
  ghost predicate Standing(changes: Changes, sources: map<string, DataSource>, database: Database, feeds: map<string, Feed>,
                           done: seq<string>, cluster: Cluster, i: string)
    requires BatchIsFed(changes, sources, database, feeds) && i in changes
  {
    assert IndexFits(changes[i], sources, database, feeds[i]) && changes[i].index == i;
    && IndexExists(cluster, i, sources[i].cfg.parts)
    && (i in done ==> IndexedAfter(cluster, i, sources[i].cfg, feeds[i]))
    && (i !in done ==> IndexedBefore(cluster, i, sources[i].cfg, feeds[i]))
  }

  lemma FedAt(changes: Changes, sources: map<string, DataSource>, database: Database, feeds: map<string, Feed>, i: string)
    requires BatchIsFed(changes, sources, database, feeds) && i in changes
    ensures i in feeds && IndexFits(changes[i], sources, database, feeds[i]) && changes[i].index == i
    ensures SourceFits(changes[i], sources) && DatabaseFits(database) && FeedFits(feeds[i])
    ensures i in sources && sources[i].cfg.parts > 0
  {
    assert changes[i].index == i && IndexFits(changes[i], sources, database, feeds[i]);
    hide IndexFits, DisjointShards, SourceFits, DatabaseFits, FeedFits;
    FeedOf(changes[i], sources, database, feeds[i]);
  }

  lemma FedPair(changes: Changes, sources: map<string, DataSource>, database: Database, feeds: map<string, Feed>, i: string,
                j: string)
    requires BatchIsFed(changes, sources, database, feeds) && i in changes && j in changes && i != j
    ensures i in sources && j in sources && DisjointShards(i, sources[i].cfg.parts, j, sources[j].cfg.parts)
  {
    FedAt(changes, sources, database, feeds, i);
    FedAt(changes, sources, database, feeds, j);
    hide IndexFits, DisjointShards, SourceFits, DatabaseFits, FeedFits;
  }

  lemma StandingMeans(changes: Changes, sources: map<string, DataSource>, database: Database, feeds: map<string, Feed>,
                      done: seq<string>, cluster: Cluster, i: string)
    requires BatchIsFed(changes, sources, database, feeds) && i in changes
    ensures i in feeds && FeedFits(feeds[i]) && i in sources && sources[i].cfg.parts > 0
    ensures Standing(changes, sources, database, feeds, done, cluster, i) <==>
              && IndexExists(cluster, i, sources[i].cfg.parts)
              && (if i in done then IndexedAfter(cluster, i, sources[i].cfg, feeds[i])
                  else IndexedBefore(cluster, i, sources[i].cfg, feeds[i]))
  {
    FedAt(changes, sources, database, feeds, i);
    hide IndexFits, DisjointShards, SourceFits, DatabaseFits, FeedFits, IndexExists, IndexedAfter, IndexedBefore, BatchIsFed;
  }

  /** Applying one more index moves it and no other. */
  lemma StandingStep(changes: Changes, sources: map<string, DataSource>, database: Database, feeds: map<string, Feed>,
                     done: seq<string>, before: Cluster, after: Cluster, j: string, i: string)
    requires BatchIsFed(changes, sources, database, feeds) && i in changes && j in changes && j !in done
    requires Standing(changes, sources, database, feeds, done, before, j)
    requires Standing(changes, sources, database, feeds, done, before, i)
    requires SourceFits(changes[j], sources) && DatabaseFits(database)
    requires IndexApplied(changes[j], sources, database, before, after)
    ensures Standing(changes, sources, database, feeds, done + [j], after, i)
  {
    hide BatchIsFed, IndexFits, IndexApplied, IndexExists, OthersStay, DisjointShards, SourceFits, DatabaseFits, IndexedAfter,
      IndexedBefore, Standing, FeedFits;
    FedAt(changes, sources, database, feeds, i);
    FedAt(changes, sources, database, feeds, j);
    StandingMeans(changes, sources, database, feeds, done, before, i);
    StandingMeans(changes, sources, database, feeds, done, before, j);
    StandingMeans(changes, sources, database, feeds, done + [j], after, i);
    IndexIsFollowed(changes[j], sources, database, feeds[j], before, after);
    OtherIndexExists(before, after, i, sources[i].cfg.parts, j, sources[j].cfg.parts);
    if i != j {
      FedPair(changes, sources, database, feeds, i, j);
      IndexStandsStill(before, after, i, sources[i].cfg, j, sources[j].cfg.parts, feeds[i]);
    }
  }

  lemma IndexStandsStill(before: Cluster, after: Cluster, i: string, cfg: SourceConfig, j: string, parts: nat, feed: Feed)
    requires cfg.parts > 0 && OthersStay(before, after, j, parts) && DisjointShards(i, cfg.parts, j, parts)
    requires FeedFits(feed)
    ensures IndexedBefore(before, i, cfg, feed) ==> IndexedBefore(after, i, cfg, feed)
    ensures IndexedAfter(before, i, cfg, feed) ==> IndexedAfter(after, i, cfg, feed)
  {
    hide FeedFits, IsIndexed, OthersStay, DisjointShards, SourceFits, DatabaseFits, Answers, AppearsByAttributesOnly,
      ChangedAttrs, RowsAfter;
    forall d | d in feed.batch
      ensures IsIndexed(after, i, cfg, feed.query, feed.fields, d, feed.batch[d].rows)
          <==> IsIndexed(before, i, cfg, feed.query, feed.fields, d, feed.batch[d].rows)
      ensures DocIndexedAfter(after, i, cfg, feed, d) <==> DocIndexedAfter(before, i, cfg, feed, d)
    {
      OtherIndexStays(before, after, i, cfg, j, parts, feed.query, feed.fields, d, feed.batch[d].rows);
      OtherIndexStays(before, after, i, cfg, j, parts, feed.query, feed.fields, d, RowsAfter(feed.batch[d]));
    }
    hide DocIndexedAfter;
  }

  ghost predicate AllStanding(changes: Changes, sources: map<string, DataSource>, database: Database, feeds: map<string, Feed>,
                              done: seq<string>, cluster: Cluster)
    requires BatchIsFed(changes, sources, database, feeds)
  {
    forall i :: i in changes ==> Standing(changes, sources, database, feeds, done, cluster, i)
  }

  lemma {:induction false} OrderIsFollowed(changes: Changes, sources: map<string, DataSource>, database: Database,
                                           feeds: map<string, Feed>, order: seq<string>, states: seq<Cluster>)
    requires BatchIsFed(changes, sources, database, feeds)
    requires AppliedInTurn(changes, sources, database, order, states)
    requires AllStanding(changes, sources, database, feeds, [], states[0])
    ensures AllStanding(changes, sources, database, feeds, order, Last(states))
  {
    hide BatchIsFed, AllStanding, IndexApplied, SourcesFit, DatabaseFits, SourceFits, AppliedInTurn;
    FedBatchFits(changes, sources, database, feeds);
    if order == [] {
      OneState(changes, sources, database, states);
    } else {
      TurnBefore(changes, sources, database, order, states);
      OrderIsFollowed(changes, sources, database, feeds, Front(order), Front(states));
      AllStandingStep(changes, sources, database, feeds, Front(order), Last(Front(states)), Last(states), Last(order));
      assert Front(order) + [Last(order)] == order;
    }
  }

  lemma FedBatchFits(changes: Changes, sources: map<string, DataSource>, database: Database, feeds: map<string, Feed>)
    requires BatchIsFed(changes, sources, database, feeds)
    ensures SourcesFit(changes, sources) && DatabaseFits(database)
  {
  }

  lemma OneState(changes: Changes, sources: map<string, DataSource>, database: Database, states: seq<Cluster>)
    requires SourcesFit(changes, sources) && DatabaseFits(database) && AppliedInTurn(changes, sources, database, [], states)
    ensures |states| == 1
  {
  }

  lemma AllStandingStep(changes: Changes, sources: map<string, DataSource>, database: Database, feeds: map<string, Feed>,
                        done: seq<string>, before: Cluster, after: Cluster, j: string)
    requires BatchIsFed(changes, sources, database, feeds) && j in changes && j !in done
    requires AllStanding(changes, sources, database, feeds, done, before)
    requires SourceFits(changes[j], sources) && DatabaseFits(database)
    requires IndexApplied(changes[j], sources, database, before, after)
    ensures AllStanding(changes, sources, database, feeds, done + [j], after)
  {
    hide BatchIsFed, Standing, IndexApplied, DatabaseFits, SourceFits;
    forall i | i in changes ensures Standing(changes, sources, database, feeds, done + [j], after, i) {
      StandingStep(changes, sources, database, feeds, done, before, after, j, i);
    }
  }

  lemma TurnBefore(changes: Changes, sources: map<string, DataSource>, database: Database, order: seq<string>,
                   states: seq<Cluster>)
    requires SourcesFit(changes, sources) && DatabaseFits(database) && order != []
    requires AppliedInTurn(changes, sources, database, order, states)
    ensures |states| == |order| + 1
    ensures AppliedInTurn(changes, sources, database, Front(order), Front(states))
    ensures Last(order) in changes && Last(order) !in Front(order) && SourceFits(changes[Last(order)], sources)
    ensures IndexApplied(changes[Last(order)], sources, database, Last(Front(states)), Last(states))
    ensures Front(states)[0] == states[0]
  {
    hide IndexApplied, DatabaseFits, SourceFits;
  }

  /** The whole batch follows the database. For any indexes that share no shard, each fed by its own query and histories:
      applying some of them, in whatever order, brings exactly those up to date, as far as the one failing case of partial
      updates allows, and leaves the documents of the others as they were. */
  lemma BatchFollowsDatabase(changes: Changes, sources: map<string, DataSource>, database: Database, feeds: map<string, Feed>,
                             done: set<string>, before: Cluster, after: Cluster)
    requires BatchIsFed(changes, sources, database, feeds)
    requires AllStanding(changes, sources, database, feeds, [], before)
    requires AppliedFrom(changes, sources, database, done, before, after)
    ensures forall i :: i in changes && i in done ==> StandsAfter(changes, sources, database, feeds, after, i)
    ensures forall i :: i in changes && i !in done ==> StandsBefore(changes, sources, database, feeds, after, i)
  {
    var order, states :| AppliedInTurn(changes, sources, database, order, states) &&
      states[0] == before && Last(states) == after && forall i :: i in order <==> i in done;
    hide BatchIsFed, AppliedInTurn, Standing, StandsAfter, StandsBefore;
    OrderIsFollowed(changes, sources, database, feeds, order, states);
    forall i | i in changes
      ensures i in done ==> StandsAfter(changes, sources, database, feeds, after, i)
      ensures i !in done ==> StandsBefore(changes, sources, database, feeds, after, i)
    {
      assert Standing(changes, sources, database, feeds, order, after, i);
      StandsAs(changes, sources, database, feeds, order, after, i);
    }
  }

  lemma StandsAs(changes: Changes, sources: map<string, DataSource>, database: Database, feeds: map<string, Feed>,
                 done: seq<string>, cluster: Cluster, i: string)
    requires BatchIsFed(changes, sources, database, feeds) && i in changes
    requires Standing(changes, sources, database, feeds, done, cluster, i)
    ensures i in done ==> StandsAfter(changes, sources, database, feeds, cluster, i)
    ensures i !in done ==> StandsBefore(changes, sources, database, feeds, cluster, i)
  {
    StandingMeans(changes, sources, database, feeds, done, cluster, i);
    FedAt(changes, sources, database, feeds, i);
    hide BatchIsFed, Standing, IndexedAfter, IndexedBefore, IndexExists, FeedFits, IndexFits, SourceFits;
  }

  ghost predicate StandsAfter(changes: Changes, sources: map<string, DataSource>, database: Database, feeds: map<string, Feed>,
                              cluster: Cluster, i: string)
    requires BatchIsFed(changes, sources, database, feeds) && i in changes
  {
    FedAt(changes, sources, database, feeds, i);
    IndexExists(cluster, i, sources[i].cfg.parts) && IndexedAfter(cluster, i, sources[i].cfg, feeds[i])
  }

  ghost predicate StandsBefore(changes: Changes, sources: map<string, DataSource>, database: Database, feeds: map<string, Feed>,
                               cluster: Cluster, i: string)
    requires BatchIsFed(changes, sources, database, feeds) && i in changes
  {
    FedAt(changes, sources, database, feeds, i);
    IndexExists(cluster, i, sources[i].cfg.parts) && IndexedBefore(cluster, i, sources[i].cfg, feeds[i])
  }

  /** Such a batch cannot fail. */
  lemma BatchDoesNotFail(changes: Changes, sources: map<string, DataSource>, database: Database, feeds: map<string, Feed>,
                         done: set<string>, before: Cluster, after: Cluster)
    requires BatchIsFed(changes, sources, database, feeds)
    requires AllStanding(changes, sources, database, feeds, [], before)
    ensures !FailedAfter(changes, sources, database, done, before, after)
  {
    if FailedAfter(changes, sources, database, done, before, after) {
      var mid, i :| AppliedFrom(changes, sources, database, done, before, mid) && i in changes && i !in done &&
        IndexFailed(changes[i], sources, database, mid, after);
      hide IndexFailed, IndexExists, IndexFits, IndexedAfter, IndexedBefore, AppliedFrom;
      BatchFollowsDatabase(changes, sources, database, feeds, done, before, mid);
      assert StandsBefore(changes, sources, database, feeds, mid, i);
      FedAt(changes, sources, database, feeds, i);
      IndexDoesNotFail(changes[i], sources, database, feeds[i], mid, after);
      assert false;
    }
  }
}
