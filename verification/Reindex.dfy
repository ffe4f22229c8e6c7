/** The pipeline from row changes to the search index: detecting changed fields and updating only those documents
    and fields leaves the index as a full reindex would. */
module Reindex {
  import opened Types
  import opened ChangeSet
  import opened Sql
  import opened Conventions
  import opened QueryBatch
  import opened Server

  /* ---------- one document, given what was fetched ---------- */

  function FetchedAs(fields: seq<string>, rows: Fetched, d: DocID): Option<Doc>
    requires d in rows ==> |rows[d]| == |fields|
  {
    if d in rows then Some(FetchedDoc(fields, rows[d])) else None
  }

  /** The document holds no foreign field, and every field outside the changed ones as fetched. */
  ghost predicate AgreesOutside(doc: Doc, fetched: Doc, changed: set<string>) {
    doc.Keys <= fetched.Keys && forall f :: f in fetched && f !in changed ==> f in doc && doc[f] == fetched[f]
  }

  lemma PatchCompletesIff(doc: Doc, fetched: Doc, changed: set<string>, patch: Doc)
    requires patch == map f | f in fetched && f in changed :: fetched[f]
    ensures doc + patch == fetched <==> AgreesOutside(doc, fetched, changed)
  {
    if doc + patch == fetched {
      forall f | f in fetched && f !in changed ensures f in doc && doc[f] == fetched[f] {
        assert f in doc + patch && f !in patch;
      }
      forall f | f in doc ensures f in fetched {
        assert f in doc + patch;
      }
    }
  }

  /** Exactly when a listed document ends up as the database has it: always, except that a document updated in
      its attributes alone must already be there and agree outside the changed fields. */
  lemma DocumentIsFetchedIff(before: Option<Doc>, fields: seq<string>, rows: Fetched, attrs: map<DocID, set<string>>,
                             cfg: SourceConfig, d: DocID)
    requires FetchFits(fields, rows) && d in attrs
    ensures DocAfter(before, fields, rows, attrs, cfg, d) == FetchedAs(fields, rows, d) <==>
            (d in rows && attrs[d] <= cfg.attrFields ==>
               before.Some? && AgreesOutside(before.value, FetchedDoc(fields, rows[d]), attrs[d]))
  {
    if d in rows && before.Some? {
      PatchIsPart(fields, rows[d], attrs[d]);
      PatchCompletesIff(before.value, FetchedDoc(fields, rows[d]), attrs[d], FetchedPatch(fields, rows[d], attrs[d]));
    }
    hide FetchedDoc, FetchedPatch, HasID, RowID, AgreesOutside;
  }

  /** Incremental update refines full reindex. All statements of a batch succeed; every listed document ends up in
      its shard as the database has it if and only if, when it was updated in attributes alone, it was there
      before and agreed outside the changed fields; every other document of every index stays as it was. */
  lemma IncrementalRefinesReindex(cluster: Cluster, index: string, fields: seq<string>, rows: Fetched,
                                  attrs: map<DocID, set<string>>, cfg: SourceConfig, ids: seq<DocID>)
    requires FetchFits(fields, rows) && cfg.parts > 0 && IndexExists(cluster, index, cfg.parts)
    requires Known(ids, attrs) && Distinct(ids) && FieldsKnown(fields, attrs, ids)
    ensures var reply := RunTexts(cluster, BatchTexts(index, fields, rows, attrs, cfg, ids, cfg.parts));
            && reply.ok
            && (forall d :: d in ids ==> BroughtUpToDate(cluster, reply.cluster, index, fields, rows, attrs, cfg, d))
            && (forall name, d :: name in cluster && !IsTarget(index, cfg, ids, name, d) ==>
                                    StaysPut(cluster, reply.cluster, name, d))
  {
    ShardsRun(cluster, index, fields, rows, attrs, cfg, ids, cfg.parts);
    var after := RunTexts(cluster, BatchTexts(index, fields, rows, attrs, cfg, ids, cfg.parts)).cluster;
    hide RunTexts, BatchTexts, ShardsDone, FetchFits, FieldsKnown, FetchedDoc, AgreesOutside, ShardOf, DocAfter, FetchedAs,
      IndexExists, IndexChunkName, DocIn;
    forall d | d in ids ensures BroughtUpToDate(cluster, after, index, fields, rows, attrs, cfg, d) {
      ListedDocument(cluster, after, index, fields, rows, attrs, cfg, ids, d);
      DocumentIsFetchedIff(DocIn(ShardOf(cluster, index, cfg, d), d), fields, rows, attrs, cfg, d);
    }
    forall name, d | name in cluster && !IsTarget(index, cfg, ids, name, d)
      ensures StaysPut(cluster, after, name, d)
    {
      OtherDocument(cluster, after, index, fields, rows, attrs, cfg, ids, name, d);
    }
  }

  ghost predicate BroughtUpToDate(before: Cluster, after: Cluster, index: string, fields: seq<string>, rows: Fetched,
                                  attrs: map<DocID, set<string>>, cfg: SourceConfig, d: DocID)
    requires FetchFits(fields, rows) && cfg.parts > 0 && d in attrs
  {
    var prior := DocIn(ShardOf(before, index, cfg, d), d);
    DocIn(ShardOf(after, index, cfg, d), d) == FetchedAs(fields, rows, d) <==>
      (d in rows && attrs[d] <= cfg.attrFields ==>
         prior.Some? && AgreesOutside(prior.value, FetchedDoc(fields, rows[d]), attrs[d]))
  }

  predicate IsTarget(index: string, cfg: SourceConfig, ids: seq<DocID>, name: string, d: DocID)
    requires cfg.parts > 0
  {
    d in ids && name == IndexChunkName(index, cfg.parts, IndexChunk(d, cfg.parts))
  }

  ghost predicate StaysPut(before: Cluster, after: Cluster, name: string, d: DocID)
    requires name in before
  {
    name in after && DocIn(after[name], d) == DocIn(before[name], d)
  }

  /* ---------- a batch of changes, given a query over the rows ---------- */

  /** The source query of an index: the result row of a document as a function of its table rows. */
  type Query = (DocID, DocRows) -> Option<seq<Literal>>

  ghost predicate QueryFits(query: Query, fields: seq<string>) {
    && Distinct(fields) && (forall k :: 0 <= k < |fields| ==> IsName(fields[k])) && fields != []
    && forall d, rows :: query(d, rows).Some? ==>
         HasID(fields, query(d, rows).value) && RowID(fields, query(d, rows).value) == d
  }

  ghost predicate SameFields(schema: Schema, fields: seq<string>, a: DocRows, b: DocRows) {
    forall k :: 0 <= k < |fields| ==> SameField(schema, a, b, fields[k])
  }

  /** What the column maps promise about the query: a result field depends only on the rows projected to the
      columns that feed it, and whether there is a row at all only on all fields together. */
  ghost predicate FieldDetermined(schema: Schema, query: Query, fields: seq<string>) {
    forall d, a, b :: SameQueryRow(schema, query, fields, d, a, b)
  }

  ghost predicate SameQueryRow(schema: Schema, query: Query, fields: seq<string>, d: DocID, a: DocRows, b: DocRows) {
    && (SameFields(schema, fields, a, b) ==> query(d, a) == query(d, b))
    && (query(d, a).Some? && query(d, b).Some? && |query(d, a).value| == |query(d, b).value| == |fields| ==>
          forall k :: 0 <= k < |fields| && SameField(schema, a, b, fields[k]) ==>
                        query(d, a).value[k] == query(d, b).value[k])
  }

  /** The document a full reindex would put in the index. */
  function Reindexed(query: Query, fields: seq<string>, d: DocID, rows: DocRows): Option<Doc> {
    match query(d, rows)
    case None => None
    case Some(row) => if |row| == |fields| then Some(FetchedDoc(fields, row)) else None
  }

  /** The fields of an index that the column maps mention are result columns. */
  ghost predicate MapsKnown(schema: Schema, fields: seq<string>) {
    forall t, col, attr :: t in schema && col in schema[t].columnMap && attr in schema[t].columnMap[col] ==> attr in fields
  }

  lemma ReportedAreMapped(schema: Schema, rows: DocRows, history: seq<TableRowChange>, fields: seq<string>)
    requires DocHistoryFits(schema, rows, history) && MapsKnown(schema, fields)
    requires AllDiffsFit(PruneTables(DocFold(history)))
    ensures forall attr :: attr in ChangedAttrs(history) ==> attr in fields
  {
    forall attr | attr in ChangedAttrs(history) ensures attr in fields {
      var t :| t in PruneTables(DocFold(history)) && attr in TableAttrs(PruneTables(DocFold(history))[t]);
      DocFoldByTable(schema, history, t);
    }
  }

  lemma DeterminedAt(schema: Schema, query: Query, fields: seq<string>, d: DocID, a: DocRows, b: DocRows)
    requires FieldDetermined(schema, query, fields)
    ensures SameQueryRow(schema, query, fields, d, a, b)
  {
  }

  lemma QueryRowFits(query: Query, fields: seq<string>, d: DocID, rows: DocRows)
    requires QueryFits(query, fields) && query(d, rows).Some?
    ensures |query(d, rows).value| == |fields| && Distinct(fields)
    ensures HasID(fields, query(d, rows).value) && RowID(fields, query(d, rows).value) == d
  {
    hide IsName;
  }

  lemma UnreportedFields(schema: Schema, fields: seq<string>, rows: DocRows, history: seq<TableRowChange>)
    requires DocHistoryFits(schema, rows, history) && AllDiffsFit(PruneTables(DocFold(history)))
    requires ChangedAttrs(history) == {}
    ensures SameFields(schema, fields, rows, ReplayDoc(rows, history))
  {
    hide SameField, ChangedAttrs, DocHistoryFits, AllDiffsFit, PruneTables, DocFold, ReplayDoc;
    forall k | 0 <= k < |fields| ensures SameField(schema, rows, ReplayDoc(rows, history), fields[k]) {
      ChangeDetectionIsSound(schema, rows, history, fields[k]);
    }
  }

  /** An unchanged document is the same document for a full reindex. */
  lemma UnchangedIsSame(schema: Schema, query: Query, fields: seq<string>, d: DocID, rows: DocRows, history: seq<TableRowChange>)
    requires DocHistoryFits(schema, rows, history) && AllDiffsFit(PruneTables(DocFold(history)))
    requires FieldDetermined(schema, query, fields) && ChangedAttrs(history) == {}
    ensures query(d, ReplayDoc(rows, history)) == query(d, rows)
  {
    hide FieldDetermined, ChangedAttrs, DocHistoryFits, AllDiffsFit, PruneTables, DocFold, ReplayDoc, SameFields, SameField;
    UnreportedFields(schema, fields, rows, history);
    DeterminedAt(schema, query, fields, d, rows, ReplayDoc(rows, history));
  }

  lemma FetchedDocAt(fields: seq<string>, row: seq<Literal>, k: nat)
    requires |row| == |fields| && Distinct(fields) && k < |fields|
    ensures fields[k] in FetchedDoc(fields, row) && FetchedDoc(fields, row)[fields[k]] == Stored(row[k])
  {
    DocOfAt(fields, StoredAll(row), k);
  }

  lemma FetchedDocKeys(fields: seq<string>, row: seq<Literal>)
    requires |row| == |fields|
    ensures forall f :: f in FetchedDoc(fields, row) <==> f in fields
  {
    DocOfKeys(fields, StoredAll(row));
    hide DocOf;
  }

  /** Two result rows that agree in every column outside the changed fields give documents that do. */
  lemma RowsAgreeOutside(fields: seq<string>, a: seq<Literal>, b: seq<Literal>, changed: set<string>)
    requires |a| == |b| == |fields| && Distinct(fields)
    requires forall k :: 0 <= k < |fields| && fields[k] !in changed ==> a[k] == b[k]
    ensures AgreesOutside(FetchedDoc(fields, a), FetchedDoc(fields, b), changed)
  {
    hide FetchedDoc;
    var docA, docB := FetchedDoc(fields, a), FetchedDoc(fields, b);
    FetchedDocKeys(fields, a);
    FetchedDocKeys(fields, b);
    forall f | f in docB && f !in changed ensures docA[f] == docB[f] {
      var k :| 0 <= k < |fields| && fields[k] == f;
      FetchedDocAt(fields, a, k);
      FetchedDocAt(fields, b, k);
    }
  }

  /** A document indexed for the rows before a history agrees with the rows after it outside the changed fields. */
  lemma IndexedAgreesOutside(schema: Schema, query: Query, fields: seq<string>, d: DocID, rows: DocRows,
                             history: seq<TableRowChange>)
    requires DocHistoryFits(schema, rows, history) && AllDiffsFit(PruneTables(DocFold(history)))
    requires FieldDetermined(schema, query, fields) && Distinct(fields)
    requires query(d, rows).Some? && query(d, ReplayDoc(rows, history)).Some?
    requires |query(d, rows).value| == |query(d, ReplayDoc(rows, history)).value| == |fields|
    ensures AgreesOutside(FetchedDoc(fields, query(d, rows).value),
                          FetchedDoc(fields, query(d, ReplayDoc(rows, history)).value), ChangedAttrs(history))
  {
    hide FieldDetermined, ChangedAttrs, DocHistoryFits, AllDiffsFit, PruneTables, DocFold, ReplayDoc, SameFields, SameField,
      FetchedDoc, AgreesOutside, Distinct;
    var after := ReplayDoc(rows, history);
    DeterminedAt(schema, query, fields, d, rows, after);
    forall k | 0 <= k < |fields| && fields[k] !in ChangedAttrs(history)
      ensures query(d, rows).value[k] == query(d, after).value[k]
    {
      ChangeDetectionIsSound(schema, rows, history, fields[k]);
    }
    RowsAgreeOutside(fields, query(d, rows).value, query(d, after).value, ChangedAttrs(history));
  }

  /* ---------- the index follows the database ---------- */

  /** A batch: for each document of one index, its rows before and the changes that arrived for it. */
  datatype DocBatch = DocBatch(rows: DocRows, history: seq<TableRowChange>)

  type IndexBatch = map<DocID, DocBatch>

  ghost predicate BatchFits(schema: Schema, batch: IndexBatch) {
    forall d :: d in batch ==> DocBatchFits(schema, batch[d])
  }

  ghost predicate DocBatchFits(schema: Schema, b: DocBatch) {
    DocHistoryFits(schema, b.rows, b.history) && AllDiffsFit(PruneTables(DocFold(b.history)))
  }

  function RowsAfter(b: DocBatch): DocRows {
    ReplayDoc(b.rows, b.history)
  }

  ghost function AttrsFor(schema: Schema, batch: IndexBatch): map<DocID, set<string>>
    requires BatchFits(schema, batch)
  {
    map d | d in batch :: assert DocBatchFits(schema, batch[d]); ChangedAttrs(batch[d].history)
  }

  /** The documents to fetch: those with a changed attribute, once each, in any order. */
  ghost predicate ListsChanged(ids: seq<DocID>, attrs: map<DocID, set<string>>) {
    Distinct(ids) && forall d :: d in ids <==> d in attrs && attrs[d] != {}
  }

  /** What the source query returns for the listed documents once the changes are in the database. */
  function FetchAfter(query: Query, batch: IndexBatch, ids: seq<DocID>): Fetched {
    map d | d in ids && d in batch && query(d, RowsAfter(batch[d])).Some? :: query(d, RowsAfter(batch[d])).value
  }

  /** The index holds what a full reindex would put there for these rows. */
  ghost predicate IsIndexed(cluster: Cluster, index: string, cfg: SourceConfig, query: Query, fields: seq<string>,
                            d: DocID, rows: DocRows)
    requires cfg.parts > 0
  {
    DocIn(ShardOf(cluster, index, cfg, d), d) == Reindexed(query, fields, d, rows)
  }

  /** The one case in which the update misses: the document appears in the result for the first time, and only
      fields that are attributes have changed, so that an update is sent where nothing is there to update. */
  ghost predicate AppearsByAttributesOnly(query: Query, cfg: SourceConfig, changed: set<string>, d: DocID, b: DocBatch) {
    query(d, b.rows).None? && query(d, RowsAfter(b)).Some? && changed != {} && changed <= cfg.attrFields
  }

  lemma FetchAfterFits(query: Query, fields: seq<string>, batch: IndexBatch, ids: seq<DocID>)
    requires QueryFits(query, fields)
    ensures FetchFits(fields, FetchAfter(query, batch, ids))
  {
    hide ReplayDoc, RowsAfter, HasID, RowID, IsName;
    var rows := FetchAfter(query, batch, ids);
    forall d | d in rows ensures |rows[d]| == |fields| && HasID(fields, rows[d]) && RowID(fields, rows[d]) == d {
      QueryRowFits(query, fields, d, RowsAfter(batch[d]));
    }
  }

  lemma AttrsAreKnown(schema: Schema, fields: seq<string>, batch: IndexBatch, ids: seq<DocID>)
    requires BatchFits(schema, batch) && MapsKnown(schema, fields) && ListsChanged(ids, AttrsFor(schema, batch))
    ensures Known(ids, AttrsFor(schema, batch)) && FieldsKnown(fields, AttrsFor(schema, batch), ids)
  {
    var attrs := AttrsFor(schema, batch);
    assert forall k :: 0 <= k < |ids| ==> ids[k] in ids;
    forall d | d in ids ensures exists f :: f in attrs[d] && f in fields {
      assert DocBatchFits(schema, batch[d]);
      hide DocHistoryFits, AllDiffsFit, PruneTables, DocFold, ChangedAttrs, MapsKnown;
      ReportedAreMapped(schema, batch[d].rows, batch[d].history, fields);
      var f :| f in attrs[d];
    }
  }

  /** Executing the statements of a batch. */
  ghost function AfterBatch(schema: Schema, cluster: Cluster, index: string, cfg: SourceConfig, query: Query,
                            fields: seq<string>, batch: IndexBatch, ids: seq<DocID>): Reply
    requires QueryFits(query, fields) && BatchFits(schema, batch) && cfg.parts > 0 && MapsKnown(schema, fields)
    requires ListsChanged(ids, AttrsFor(schema, batch))
  {
    FetchAfterFits(query, fields, batch, ids);
    AttrsAreKnown(schema, fields, batch, ids);
    RunTexts(cluster, BatchTexts(index, fields, FetchAfter(query, batch, ids), AttrsFor(schema, batch), cfg, ids, cfg.parts))
  }

  /** One document of the batch, once its update is known to be exact. */
  lemma ChangedFollows(schema: Schema, cfg: SourceConfig, query: Query, fields: seq<string>, d: DocID, b: DocBatch,
                       before: Option<Doc>)
    requires QueryFits(query, fields) && FieldDetermined(schema, query, fields) && DocBatchFits(schema, b)
    requires before == Reindexed(query, fields, d, b.rows) && ChangedAttrs(b.history) != {}
    ensures AppearsByAttributesOnly(query, cfg, ChangedAttrs(b.history), d, b) <==>
            !(query(d, RowsAfter(b)).Some? && ChangedAttrs(b.history) <= cfg.attrFields ==>
                before.Some? && Reindexed(query, fields, d, RowsAfter(b)).Some? &&
                AgreesOutside(before.value, Reindexed(query, fields, d, RowsAfter(b)).value, ChangedAttrs(b.history)))
  {
    hide FieldDetermined, ChangedAttrs, DocHistoryFits, AllDiffsFit, PruneTables, DocFold, ReplayDoc, AgreesOutside,
      FetchedDoc, QueryFits, HasID, RowID;
    if query(d, b.rows).Some? {
      QueryRowFits(query, fields, d, b.rows);
    }
    if query(d, RowsAfter(b)).Some? {
      QueryRowFits(query, fields, d, RowsAfter(b));
      if query(d, b.rows).Some? {
        IndexedAgreesOutside(schema, query, fields, d, b.rows, b.history);
      }
    }
  }

  /** What was fetched for a listed document is what a full reindex would put in the index. */
  lemma FetchedIsReindexed(query: Query, fields: seq<string>, batch: IndexBatch, ids: seq<DocID>, d: DocID)
    requires QueryFits(query, fields) && d in ids && d in batch
    ensures FetchFits(fields, FetchAfter(query, batch, ids))
    ensures FetchedAs(fields, FetchAfter(query, batch, ids), d) == Reindexed(query, fields, d, RowsAfter(batch[d]))
  {
    FetchAfterFits(query, fields, batch, ids);
    hide FetchedDoc, HasID, RowID, IsName, RowsAfter;
    if query(d, RowsAfter(batch[d])).Some? {
      QueryRowFits(query, fields, d, RowsAfter(batch[d]));
    }
  }

  /** One document with changed attributes. */
  lemma ListedFollows(schema: Schema, cluster: Cluster, after: Cluster, index: string, cfg: SourceConfig, query: Query,
                      fields: seq<string>, batch: IndexBatch, ids: seq<DocID>, d: DocID)
    requires QueryFits(query, fields) && FieldDetermined(schema, query, fields) && BatchFits(schema, batch) && cfg.parts > 0
    requires d in ids && d in batch && ChangedAttrs(batch[d].history) != {} && FetchFits(fields, FetchAfter(query, batch, ids))
    requires IsIndexed(cluster, index, cfg, query, fields, d, batch[d].rows)
    requires BroughtUpToDate(cluster, after, index, fields, FetchAfter(query, batch, ids), AttrsFor(schema, batch), cfg, d)
    ensures IsIndexed(after, index, cfg, query, fields, d, RowsAfter(batch[d])) <==>
            !AppearsByAttributesOnly(query, cfg, ChangedAttrs(batch[d].history), d, batch[d])
  {
    hide FieldDetermined, ChangedAttrs, DocBatchFits, AllDiffsFit, PruneTables, DocFold, RowsAfter, AgreesOutside,
      FetchedDoc, QueryFits, FetchFits, FetchAfter, BatchFits, AttrsFor, DocIn, ShardOf, AppearsByAttributesOnly, HasID,
      RowID, Reindexed;
    BatchAt(schema, batch, d);
    FetchedAt(query, fields, batch, ids, d);
    FetchedIsReindexed(query, fields, batch, ids, d);
    ChangedFollows(schema, cfg, query, fields, d, batch[d], DocIn(ShardOf(cluster, index, cfg, d), d));
  }

  lemma BatchAt(schema: Schema, batch: IndexBatch, d: DocID)
    requires BatchFits(schema, batch) && d in batch
    ensures DocBatchFits(schema, batch[d])
    ensures d in AttrsFor(schema, batch) && AttrsFor(schema, batch)[d] == ChangedAttrs(batch[d].history)
  {
    hide ChangedAttrs, AllDiffsFit, PruneTables, DocFold, DocHistoryFits;
  }

  lemma FetchedAt(query: Query, fields: seq<string>, batch: IndexBatch, ids: seq<DocID>, d: DocID)
    requires d in ids && d in batch && FetchFits(fields, FetchAfter(query, batch, ids))
    ensures d in FetchAfter(query, batch, ids) <==> query(d, RowsAfter(batch[d])).Some?
    ensures d in FetchAfter(query, batch, ids) ==> |FetchAfter(query, batch, ids)[d]| == |fields|
  {
    hide RowsAfter, HasID, RowID, IsName, Distinct;
  }

  /** One document without changed attributes. */
  lemma UnlistedFollows(schema: Schema, cluster: Cluster, after: Cluster, index: string, cfg: SourceConfig, query: Query,
                        fields: seq<string>, d: DocID, b: DocBatch)
    requires FieldDetermined(schema, query, fields) && DocBatchFits(schema, b) && cfg.parts > 0
    requires ChangedAttrs(b.history) == {} && IsIndexed(cluster, index, cfg, query, fields, d, b.rows)
    requires DocIn(ShardOf(after, index, cfg, d), d) == DocIn(ShardOf(cluster, index, cfg, d), d)
    ensures IsIndexed(after, index, cfg, query, fields, d, RowsAfter(b))
    ensures !AppearsByAttributesOnly(query, cfg, ChangedAttrs(b.history), d, b)
  {
    UnchangedIsSame(schema, query, fields, d, b.rows, b.history);
    hide FieldDetermined, ChangedAttrs, DocHistoryFits, AllDiffsFit, PruneTables, DocFold, ReplayDoc, FetchedDoc, ShardOf;
  }

  lemma ShardStaysPut(before: Cluster, after: Cluster, index: string, cfg: SourceConfig, d: DocID)
    requires cfg.parts > 0 && IndexExists(before, index, cfg.parts)
    requires StaysPut(before, after, IndexChunkName(index, cfg.parts, IndexChunk(d, cfg.parts)), d)
    ensures DocIn(ShardOf(after, index, cfg, d), d) == DocIn(ShardOf(before, index, cfg, d), d)
  {
    hide IndexChunkName, DocIn;
  }

  /** One document of the batch, listed or not. */
  lemma DocumentFollows(schema: Schema, cluster: Cluster, after: Cluster, index: string, cfg: SourceConfig, query: Query,
                        fields: seq<string>, batch: IndexBatch, ids: seq<DocID>, d: DocID)
    requires QueryFits(query, fields) && FieldDetermined(schema, query, fields) && BatchFits(schema, batch) && cfg.parts > 0
    requires IndexExists(cluster, index, cfg.parts) && ListsChanged(ids, AttrsFor(schema, batch))
    requires d in batch && IsIndexed(cluster, index, cfg, query, fields, d, batch[d].rows)
    requires FetchFits(fields, FetchAfter(query, batch, ids))
    requires d in ids ==>
               BroughtUpToDate(cluster, after, index, fields, FetchAfter(query, batch, ids), AttrsFor(schema, batch), cfg, d)
    requires d !in ids ==> (forall name :: name in cluster ==> StaysPut(cluster, after, name, d))
    ensures IsIndexed(after, index, cfg, query, fields, d, RowsAfter(batch[d])) <==>
            !AppearsByAttributesOnly(query, cfg, ChangedAttrs(batch[d].history), d, batch[d])
  {
    assert DocBatchFits(schema, batch[d]) && AttrsFor(schema, batch)[d] == ChangedAttrs(batch[d].history);
    hide FieldDetermined, ChangedAttrs, DocBatchFits, RowsAfter, QueryFits, FetchFits, FetchAfter, AttrsFor, DocIn, ShardOf,
      AppearsByAttributesOnly, IsIndexed, BroughtUpToDate, StaysPut, IndexExists, IndexChunkName, BatchFits;
    if d in ids {
      ListedFollows(schema, cluster, after, index, cfg, query, fields, batch, ids, d);
    } else {
      NameExists(cluster, index, cfg.parts, IndexChunk(d, cfg.parts));
      assert StaysPut(cluster, after, IndexChunkName(index, cfg.parts, IndexChunk(d, cfg.parts)), d);
      ShardStaysPut(cluster, after, index, cfg, d);
      UnlistedFollows(schema, cluster, after, index, cfg, query, fields, d, batch[d]);
    }
  }

  /** The index follows the database. Take any documents of an index, each indexed as a full reindex would for its
      rows before, and any well-formed history of their rows; detect changed attributes, fetch the changed
      documents once the history is in the database, send the statements as text. Then every statement
      succeeds, and each document is indexed as a full reindex would for its rows after, if and only if it
      is not one that appears for the first time through attributes alone. No other document changes. */
  lemma IndexFollowsDatabase(schema: Schema, cluster: Cluster, index: string, cfg: SourceConfig, query: Query,
                             fields: seq<string>, batch: IndexBatch, ids: seq<DocID>)
    requires QueryFits(query, fields) && FieldDetermined(schema, query, fields) && MapsKnown(schema, fields)
    requires BatchFits(schema, batch) && cfg.parts > 0 && IndexExists(cluster, index, cfg.parts)
    requires ListsChanged(ids, AttrsFor(schema, batch))
    requires forall d :: d in batch ==> IsIndexed(cluster, index, cfg, query, fields, d, batch[d].rows)
    ensures AfterBatch(schema, cluster, index, cfg, query, fields, batch, ids).ok
    ensures forall d :: d in batch ==>
              (IsIndexed(AfterBatch(schema, cluster, index, cfg, query, fields, batch, ids).cluster, index, cfg, query, fields,
                         d, RowsAfter(batch[d]))
               <==> !AppearsByAttributesOnly(query, cfg, ChangedAttrs(batch[d].history), d, batch[d]))
    ensures forall name, d :: name in cluster && d !in batch ==>
              StaysPut(cluster, AfterBatch(schema, cluster, index, cfg, query, fields, batch, ids).cluster, name, d)
  {
    var rows, attrs := FetchAfter(query, batch, ids), AttrsFor(schema, batch);
    hide FieldDetermined, ChangedAttrs, DocBatchFits, RowsAfter, QueryFits, FetchFits, FetchAfter, AttrsFor, DocIn, ShardOf,
      AppearsByAttributesOnly, RunTexts, BatchTexts, MapsKnown, FieldsKnown, IsIndexed, BroughtUpToDate, StaysPut, IndexExists,
      IndexChunkName, ListsChanged, BatchFits;
    FetchAfterFits(query, fields, batch, ids);
    AttrsAreKnown(schema, fields, batch, ids);
    ListedAreInBatch(schema, batch, ids);
    var after := AfterBatch(schema, cluster, index, cfg, query, fields, batch, ids).cluster;
    IncrementalRefinesReindex(cluster, index, fields, rows, attrs, cfg, ids);
    forall d | d in batch
      ensures IsIndexed(after, index, cfg, query, fields, d, RowsAfter(batch[d])) <==>
              !AppearsByAttributesOnly(query, cfg, ChangedAttrs(batch[d].history), d, batch[d])
    {
      DocumentFollows(schema, cluster, after, index, cfg, query, fields, batch, ids, d);
    }
    forall name, d | name in cluster && d !in batch ensures StaysPut(cluster, after, name, d) {
      assert !IsTarget(index, cfg, ids, name, d);
    }
  }

  lemma ListedAreInBatch(schema: Schema, batch: IndexBatch, ids: seq<DocID>)
    requires BatchFits(schema, batch) && ListsChanged(ids, AttrsFor(schema, batch))
    ensures Distinct(ids) && forall d :: d in ids ==> d in batch
  {
    hide ChangedAttrs, DocBatchFits;
  }

  lemma NameExists(cluster: Cluster, index: string, parts: nat, chunk: nat)
    requires IndexExists(cluster, index, parts) && chunk < parts
    ensures IndexChunkName(index, parts, chunk) in cluster
  {
    hide IndexChunkName, IsName;
  }
}
