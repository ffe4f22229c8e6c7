/** Applying the changes of one index (river/batch.go): the loops that find changed documents, fetch them, sort them
    into query sets and execute those, tied to the functions the theorems are about. */
module Indexing {
  import opened Types
  import opened ChangeSet
  import opened Coalescing
  import opened Batch
  import opened Conventions
  import opened QueryBatch
  import opened Sql
  import opened FormatQuery
  import opened Server
  import opened Reindex
  import opened Sync

  /** The statements collected for one shard. */
  class QuerySet {
    const index: string
    const fields: seq<string>
    /** The number of the shard: sets of different shards are different objects. */
    ghost const chunk: nat
    var replace: seq<seq<string>>
    var update: seq<UpdateQuery>
    var delete: seq<DocID>

    constructor (index: string, fields: seq<string>, ghost chunk: nat)
      ensures this.index == index && this.fields == fields && this.chunk == chunk && View() == QueryLists([], [], [])
    {
      this.index, this.fields, this.chunk := index, fields, chunk;
      replace, update, delete := [], [], [];
    }

    function View(): QueryLists
      reads this
    {
      QueryLists(replace, update, delete)
    }
  }

  ghost predicate IsEmptySet(q: QuerySet, name: string, fields: seq<string>)
    reads q
  {
    q.index == name && q.fields == fields && q.View() == QueryLists([], [], [])
  }

  ghost predicate EachItsChunk(qs: seq<QuerySet>) {
    forall c :: 0 <= c < |qs| ==> qs[c].chunk == c
  }

  method NewQuerySet(index: string, fields: seq<string>, ghost chunk: nat) returns (q: QuerySet)
    ensures fresh(q) && q.chunk == chunk && IsEmptySet(q, index, fields)
  {
    q := new QuerySet(index, fields, chunk);
  }

  method NewQueryBatch(index: string, fields: seq<string>, parts: nat) returns (qs: seq<QuerySet>)
    ensures |qs| == parts && EachItsChunk(qs)
    ensures forall c :: 0 <= c < parts ==> fresh(qs[c]) && IsEmptySet(qs[c], IndexChunkName(index, parts, c), fields)
  {
    qs := [];
    for chunkNo := 0 to parts
      invariant |qs| == chunkNo && EachItsChunk(qs)
      invariant forall c :: 0 <= c < chunkNo ==> fresh(qs[c]) && IsEmptySet(qs[c], IndexChunkName(index, parts, c), fields)
    {
      hide IsEmptySet, IndexChunkName;
      var q := NewQuerySet(IndexChunkName(index, parts, chunkNo), fields, chunkNo);
      qs := qs + [q];
    }
  }

  /** The lists after one more document. */
  function WithDocument(lists: QueryLists, id: DocID, attrs: map<DocID, set<string>>, data: IndexData,
                        cfg: SourceConfig): QueryLists
    requires id in attrs && DataFits(data)
  {
    match PlacementOf(id, attrs, data, cfg)
    case ToDelete => lists.(delete := lists.delete + [id])
    case ToUpdate => lists.(update := lists.update + [UpdateFor(id, attrs[id], data)])
    case ToReplace => lists.(replace := lists.replace + [data.docs[id]])
  }

  lemma ListsOneMore(ids: seq<DocID>, attrs: map<DocID, set<string>>, data: IndexData, cfg: SourceConfig, chunk: nat)
    requires cfg.parts > 0 && Known(ids, attrs) && DataFits(data) && ids != []
    ensures ListsFor(ids, attrs, data, cfg, chunk)
         == if IndexChunk(Last(ids), cfg.parts) == chunk
            then WithDocument(ListsFor(Front(ids), attrs, data, cfg, chunk), Last(ids), attrs, data, cfg)
            else ListsFor(Front(ids), attrs, data, cfg, chunk)
  {
    hide UpdateFor, IndexChunk;
  }

  method ChangedValues(fields: seq<string>, docData: seq<string>, docAttrs: set<string>)
    returns (names: seq<string>, values: seq<string>)
    requires |fields| == |docData|
    ensures names == Selected(fields, ChangedPositions(fields, docAttrs))
    ensures values == Selected(docData, ChangedPositions(fields, docAttrs))
  {
    names, values := [], [];
    ghost var at: seq<nat> := [];
    for colNo := 0 to |fields|
      invariant at == ChangedPositions(fields[..colNo], docAttrs)
      invariant forall k :: 0 <= k < |at| ==> at[k] < |fields|
      invariant names == Selected(fields, at) && values == Selected(docData, at)
    {
      assert Front(fields[..colNo + 1]) == fields[..colNo];
      if fields[colNo] in docAttrs {
        names := names + [fields[colNo]];
        values := values + [docData[colNo]];
        at := at + [colNo];
      }
    }
    assert fields[..|fields|] == fields;
  }

  method PlaceDocument(q: QuerySet, id: DocID, attrs: map<DocID, set<string>>, data: IndexData, cfg: SourceConfig)
    requires id in attrs && DataFits(data)
    modifies q
    ensures q.View() == WithDocument(old(q.View()), id, attrs, data, cfg)
  {
    if id !in data.docs {
      q.delete := q.delete + [id];
    } else if attrs[id] <= cfg.attrFields {
      var names, values := ChangedValues(data.fields, data.docs[id], attrs[id]);
      q.update := q.update + [UpdateQuery(id, names, values)];
    } else {
      q.replace := q.replace + [data.docs[id]];
    }
  }

  method FillQueryBatch(qs: seq<QuerySet>, ids: seq<DocID>, attrs: map<DocID, set<string>>, data: IndexData, cfg: SourceConfig)
    requires |qs| == cfg.parts > 0 && Known(ids, attrs) && DataFits(data)
    requires EachItsChunk(qs)
    requires forall c :: 0 <= c < |qs| ==> qs[c].View() == QueryLists([], [], [])
    modifies set q | q in qs
    ensures forall c :: 0 <= c < |qs| ==> qs[c].View() == ListsFor(ids, attrs, data, cfg, c)
  {
    for i := 0 to |ids|
      invariant forall c :: 0 <= c < |qs| ==> qs[c].View() == ListsFor(ids[..i], attrs, data, cfg, c)
    {
      var id := ids[i];
      var chunk := IndexChunk(id, cfg.parts);
      assert Front(ids[..i + 1]) == ids[..i] && Last(ids[..i + 1]) == id;
      forall c | 0 <= c < |qs|
        ensures ListsFor(ids[..i + 1], attrs, data, cfg, c)
             == if c == chunk then WithDocument(ListsFor(ids[..i], attrs, data, cfg, c), id, attrs, data, cfg)
                else ListsFor(ids[..i], attrs, data, cfg, c)
      {
        ListsOneMore(ids[..i + 1], attrs, data, cfg, c);
      }
      hide ListsFor, WithDocument, IndexChunk;
      PlaceDocument(qs[chunk], id, attrs, data, cfg);
    }
    assert ids[..|ids|] == ids;
  }

  /** Sends one statement to the search servers. */
  method Send(cluster: Cluster, text: string) returns (after: Cluster, ok: bool)
    ensures Reply(after, ok) == RunText(cluster, text)
  {
    var reply := RunText(cluster, text);
    after, ok := reply.cluster, reply.ok;
  }

  lemma OneText(cluster: Cluster, text: string)
    ensures RunTexts(cluster, [text]) == RunText(cluster, text)
  {
    hide RunText;
    assert Front([text]) == [];
    assert RunTexts(cluster, []) == Reply(cluster, true);
  }

  /** More statements: when they fail, so does every longer sequence, in the same state. */
  lemma NextTexts(start: Cluster, done: seq<string>, now: Cluster, more: seq<string>, rest: seq<string>)
    requires RunTexts(start, done) == Reply(now, true)
    ensures RunTexts(start, done + more) == RunTexts(now, more)
    ensures !RunTexts(now, more).ok ==> RunTexts(start, done + more + rest) == RunTexts(now, more)
  {
    hide RunTexts;
    RunTextsAppend(start, done, more);
    RunTextsAppend(start, done + more, rest);
  }

  function ReplaceTexts(index: string, fields: seq<string>, rows: seq<seq<string>>): seq<string> {
    if rows != [] then [ReplaceText(index, fields, rows)] else []
  }

  function DeleteTexts(index: string, ids: seq<DocID>): seq<string> {
    if ids != [] then [DeleteText(index, ids)] else []
  }

  lemma ThreeStages(index: string, fields: seq<string>, lists: QueryLists)
    requires ListsFit(lists)
    ensures TextsOf(index, fields, lists)
         == ReplaceTexts(index, fields, lists.replace) + (DeleteTexts(index, lists.delete) + UpdateTexts(index, lists.update))
  {
  }

  /** At most one replace, at most one delete, then the updates one by one, until a statement fails. */
  method ExecuteQuerySet(q: QuerySet, cluster: Cluster) returns (after: Cluster, ok: bool)
    requires ListsFit(q.View())
    ensures Reply(after, ok) == RunTexts(cluster, TextsOf(q.index, q.fields, q.View()))
  {
    ghost var later := DeleteTexts(q.index, q.delete);
    ghost var last := UpdateTexts(q.index, q.update);
    ThreeStages(q.index, q.fields, q.View());
    RunTextsAppend(cluster, ReplaceTexts(q.index, q.fields, q.replace), later + last);
    NothingRuns(cluster);
    hide RunTexts, RunText, UpdateTexts, TextsOf;
    after := cluster;
    if |q.replace| > 0 {
      var query := FormatReplaceQuery(q.index, q.fields, q.replace);
      OneText(cluster, query);
      after, ok := Send(cluster, query);
      if !ok {
        return;
      }
    }
    hide ReplaceTexts;
    RunTextsAppend(after, later, last);
    NothingRuns(after);
    if |q.delete| > 0 {
      var query := FormatDeleteQuery(q.index, q.delete);
      OneText(after, query);
      after, ok := Send(after, query);
      if !ok {
        return;
      }
    }
    hide DeleteTexts;
    after, ok := SendUpdates(q.index, q.update, after);
  }

  method SendUpdates(index: string, updates: seq<UpdateQuery>, cluster: Cluster) returns (after: Cluster, ok: bool)
    requires ListsFit(QueryLists([], updates, []))
    ensures Reply(after, ok) == RunTexts(cluster, UpdateTexts(index, updates))
  {
    after := cluster;
    ghost var texts := UpdateTexts(index, updates);
    NothingRuns(cluster);
    for i := 0 to |updates|
      invariant RunTexts(cluster, texts[..i]) == Reply(after, true)
    {
      hide RunTexts, RunText, UpdateText;
      var update := updates[i];
      var query := FormatUpdateQuery(index, update.id, update.fields, update.values);
      assert query == texts[i];
      hide UpdateTexts;
      NextUpdate(cluster, after, texts, i);
      after, ok := Send(after, query);
      if !ok {
        return;
      }
    }
    assert texts[..|updates|] == texts;
    ok := true;
  }

  lemma NextUpdate(start: Cluster, now: Cluster, texts: seq<string>, i: nat)
    requires i < |texts| && RunTexts(start, texts[..i]) == Reply(now, true)
    ensures RunTexts(start, texts[..i + 1]) == RunText(now, texts[i])
    ensures !RunText(now, texts[i]).ok ==> RunTexts(start, texts) == RunText(now, texts[i])
  {
    hide RunTexts, RunText;
    assert texts[..i + 1] == texts[..i] + [texts[i]];
    assert texts == texts[..i] + [texts[i]] + texts[i + 1..];
    NextTexts(start, texts[..i], now, [texts[i]], texts[i + 1..]);
    OneText(now, texts[i]);
  }

  /* ---------- fetching ---------- */

  /** A result of the source query: its columns, and its rows before they are printed. */
  datatype ResultSet = ResultSet(fields: seq<string>, rows: seq<seq<Literal>>)

  /** Columns are distinct names, and every row has a document id. */
  ghost predicate ResultFits(result: ResultSet) {
    && Distinct(result.fields) && (forall k :: 0 <= k < |result.fields| ==> IsName(result.fields[k])) && result.fields != []
    && HaveIDs(result.fields, result.rows)
  }

  ghost predicate HaveIDs(fields: seq<string>, rows: seq<seq<Literal>>) {
    forall k :: 0 <= k < |rows| ==> HasID(fields, rows[k])
  }

  /** The rows by document; of two rows for one document the later one is kept. */
  function ByID(fields: seq<string>, rows: seq<seq<Literal>>): Fetched
    requires HaveIDs(fields, rows)
  {
    if rows == [] then map[] else ByID(fields, Front(rows))[RowID(fields, Last(rows)) := Last(rows)]
  }

  lemma {:induction false} ByIDFits(fields: seq<string>, rows: seq<seq<Literal>>)
    requires HaveIDs(fields, rows)
    ensures forall d :: d in ByID(fields, rows) ==>
              var row := ByID(fields, rows)[d];
              |row| == |fields| && HasID(fields, row) && RowID(fields, row) == d
  {
    if rows != [] {
      ByIDFits(fields, Front(rows));
      assert HasID(fields, Last(rows));
    }
  }

  lemma ResultIsFetched(result: ResultSet)
    requires ResultFits(result)
    ensures FetchFits(result.fields, ByID(result.fields, result.rows))
    ensures DataFits(DataOf(result.fields, ByID(result.fields, result.rows)))
  {
    ByIDFits(result.fields, result.rows);
    hide HasID, RowID, ByID, IsName, Distinct;
  }

  ghost predicate FieldsConfigured(fields: seq<string>, configured: set<string>) {
    forall k :: 0 <= k < |fields| ==> fields[k] in configured
  }

  function Below(n: nat): (numbers: set<nat>)
    ensures forall k :: k in numbers <==> 0 <= k < n
  {
    if n == 0 then {} else Below(n - 1) + {n - 1}
  }

  /** Prints the values of one row, column by column in no particular order; a column that is not configured is an
      error. */
  method FetchRow(fields: seq<string>, row: seq<Literal>, configured: set<string>) returns (doc: Option<seq<string>>)
    requires |row| == |fields|
    ensures doc == if FieldsConfigured(fields, configured) then Some(RenderAll(row)) else None
  {
    var docRow := new string[|fields|](_ => "");
    var columns := Below(|fields|);
    while columns != {}
      invariant columns <= Below(|fields|)
      invariant forall colNo :: 0 <= colNo < |fields| && colNo !in columns ==>
                  fields[colNo] in configured && docRow[colNo] == Render(row[colNo])
      decreases columns
    {
      var colNo :| colNo in columns;
      if fields[colNo] !in configured {
        return None;
      }
      docRow[colNo] := Render(row[colNo]);
      columns := columns - {colNo};
    }
    assert docRow[..] == RenderAll(row);
    doc := Some(docRow[..]);
  }

  lemma OneMoreByID(fields: seq<string>, rows: seq<seq<Literal>>, n: nat)
    requires HaveIDs(fields, rows) && n < |rows|
    ensures HasID(fields, rows[n])
    ensures HaveIDs(fields, rows[..n + 1]) && HaveIDs(fields, rows[..n])
    ensures ByID(fields, rows[..n + 1]) == ByID(fields, rows[..n])[RowID(fields, rows[n]) := rows[n]]
  {
    assert Front(rows[..n + 1]) == rows[..n];
  }

  lemma OneMoreRendered(fields: seq<string>, rows: Fetched, d: DocID, row: seq<Literal>)
    ensures DataOf(fields, rows[d := row]).docs == DataOf(fields, rows).docs[d := RenderAll(row)]
  {
    hide RenderAll;
  }

  method FetchIndexData(result: ResultSet, configured: set<string>) returns (data: Option<IndexData>)
    requires ResultFits(result)
    ensures data == if result.rows == [] || FieldsConfigured(result.fields, configured)
                    then Some(DataOf(result.fields, ByID(result.fields, result.rows))) else None
  {
    var docs: map<DocID, seq<string>> := map[];
    assert HaveIDs(result.fields, result.rows);
    assert result.rows[..0] == [] && ByID(result.fields, []) == map[];
    for rowNo := 0 to |result.rows|
      invariant rowNo > 0 ==> FieldsConfigured(result.fields, configured)
      invariant HaveIDs(result.fields, result.rows[..rowNo])
      invariant docs == DataOf(result.fields, ByID(result.fields, result.rows[..rowNo])).docs
    {
      hide ByID, DataOf, RowID, ResultFits, HaveIDs, RenderAll, FieldsConfigured;
      OneMoreByID(result.fields, result.rows, rowNo);
      var row := result.rows[rowNo];
      var id := RowID(result.fields, row);
      var docRow := FetchRow(result.fields, row, configured);
      if docRow.None? {
        return None;
      }
      OneMoreRendered(result.fields, ByID(result.fields, result.rows[..rowNo]), id, row);
      docs := docs[id := docRow.value];
    }
    assert result.rows[..|result.rows|] == result.rows;
    data := Some(IndexData(result.fields, docs));
  }

  /* ---------- changed documents ---------- */

  ghost predicate AllFoldsFit(docs: map<DocID, DocumentChange>) {
    forall d :: d in docs ==> FoldFitsFor(docs[d])
  }

  ghost predicate FoldFitsFor(doc: DocumentChange) {
    AllDiffsFit(PruneTables(DocFold(doc.changes)))
  }

  ghost function AttrsByDoc(docs: map<DocID, DocumentChange>): map<DocID, set<string>>
    requires AllFoldsFit(docs)
  {
    map d | d in docs :: assert FoldFitsFor(docs[d]); ChangedAttrs(docs[d].changes)
  }

  ghost predicate ListsSame(ids: seq<DocID>, attrs: map<DocID, set<string>>) {
    Distinct(ids) && forall d :: d in ids <==> d in attrs && attrs[d] == {}
  }

  lemma OneMoreListed(changed: seq<DocID>, same: seq<DocID>, attrs: map<DocID, set<string>>, d: DocID, docAttrs: set<string>)
    requires ListsChanged(changed, attrs) && ListsSame(same, attrs) && d !in attrs
    ensures ListsChanged(if docAttrs != {} then changed + [d] else changed, attrs[d := docAttrs])
    ensures ListsSame(if docAttrs != {} then same else same + [d], attrs[d := docAttrs])
  {
  }

  lemma AttrsOfOne(docs: map<DocID, DocumentChange>, d: DocID)
    requires AllFoldsFit(docs) && d in docs
    ensures FoldFitsFor(docs[d]) && AttrsByDoc(docs)[d] == ChangedAttrs(docs[d].changes)
  {
    hide ChangedAttrs, AllDiffsFit, PruneTables, DocFold;
  }

  /** Sorts the documents of an index, visited in no particular order, by whether any attribute changed. */
  method ChangedAttrsByDocID(docs: map<DocID, DocumentChange>)
    returns (attrs: map<DocID, set<string>>, changed: seq<DocID>, same: seq<DocID>)
    requires AllFoldsFit(docs)
    ensures attrs == AttrsByDoc(docs) && ListsChanged(changed, attrs) && ListsSame(same, attrs)
  {
    attrs, changed, same := map[], [], [];
    var rest := docs.Keys;
    ghost var all := AttrsByDoc(docs);
    while rest != {}
      invariant rest <= docs.Keys && attrs.Keys == docs.Keys - rest
      invariant forall d :: d in attrs ==> attrs[d] == all[d]
      invariant ListsChanged(changed, attrs) && ListsSame(same, attrs)
      decreases rest
    {
      var d :| d in rest;
      AttrsOfOne(docs, d);
      hide ListsChanged, ListsSame, AttrsByDoc, AllFoldsFit, ChangedAttrs, PruneTables, DocFold, AllDiffsFit;
      var docAttrs := ComputeChangedAttrs(docs[d].changes);
      OneMoreListed(changed, same, attrs, d, docAttrs);
      attrs := attrs[d := docAttrs];
      if |docAttrs| > 0 {
        changed := changed + [d];
      } else {
        same := same + [d];
      }
      rest := rest - {d};
    }
  }

  /** What the loop works on is what the theorem about the index speaks of. */
  lemma QueuedChangesAreBatch(schema: Schema, docs: map<DocID, DocumentChange>, batch: IndexBatch)
    requires BatchFits(schema, batch) && batch.Keys == docs.Keys
    requires forall d :: d in docs ==> batch[d].history == docs[d].changes
    ensures AllFoldsFit(docs) && AttrsByDoc(docs) == AttrsFor(schema, batch)
  {
    hide AllDiffsFit, PruneTables, DocFold, ChangedAttrs;
    forall d | d in docs ensures FoldFitsFor(docs[d]) {
      assert DocBatchFits(schema, batch[d]);
    }
  }

  /* ---------- one index ---------- */

  datatype DataSource = DataSource(cfg: SourceConfig, configured: set<string>)

  /** The database: the result of the source query of an index for a list of documents, if there is one. */
  type Database = (string, seq<DocID>) -> Option<ResultSet>

  ghost predicate DatabaseFits(database: Database) {
    forall index, ids :: database(index, ids).Some? ==> ResultFits(database(index, ids).value)
  }

  /** The query succeeded, and every column it returned is configured. */
  ghost predicate CanFetch(result: Option<ResultSet>, source: DataSource) {
    result.Some? && (result.value.rows == [] || FieldsConfigured(result.value.fields, source.configured))
  }

  /** The statements sent for one index, when the database gave this result. */
  ghost function SentTexts(index: string, source: DataSource, result: ResultSet, attrs: map<DocID, set<string>>,
                           ids: seq<DocID>): seq<string>
    requires ResultFits(result) && source.cfg.parts > 0 && Known(ids, attrs)
  {
    ResultIsFetched(result);
    BatchTexts(index, result.fields, ByID(result.fields, result.rows), attrs, source.cfg, ids, source.cfg.parts)
  }

  lemma ListedAreKnown(ids: seq<DocID>, attrs: map<DocID, set<string>>)
    requires ListsChanged(ids, attrs)
    ensures Known(ids, attrs)
  {
    forall k | 0 <= k < |ids| ensures ids[k] in attrs {
      assert ids[k] in ids;
    }
  }

  /** When the database answers as of the state after the queued changes, what is sent for an index is what the
      theorem about following the database executes. */
  lemma LoopRunsBatch(schema: Schema, cluster: Cluster, index: string, source: DataSource, query: Query, fields: seq<string>,
                      docs: map<DocID, DocumentChange>, batch: IndexBatch, ids: seq<DocID>, result: ResultSet)
    requires QueryFits(query, fields) && source.cfg.parts > 0 && MapsKnown(schema, fields)
    requires BatchFits(schema, batch) && batch.Keys == docs.Keys && forall d :: d in docs ==> batch[d].history == docs[d].changes
    requires ListsChanged(ids, AttrsFor(schema, batch)) && ResultFits(result)
    requires result.fields == fields && ByID(fields, result.rows) == FetchAfter(query, batch, ids)
    ensures AllFoldsFit(docs) && Known(ids, AttrsByDoc(docs))
    ensures RunTexts(cluster, SentTexts(index, source, result, AttrsByDoc(docs), ids))
         == AfterBatch(schema, cluster, index, source.cfg, query, fields, batch, ids)
  {
    QueuedChangesAreBatch(schema, docs, batch);
    ListedAreKnown(ids, AttrsByDoc(docs));
    hide RunTexts, BatchTexts, AttrsByDoc, AttrsFor, ListsChanged, MapsKnown, BatchFits, FetchAfter, QueryFits, ByID, Known;
  }

  lemma BatchTextsStep(index: string, fields: seq<string>, rows: Fetched, attrs: map<DocID, set<string>>,
                       cfg: SourceConfig, ids: seq<DocID>, n: nat)
    requires FetchFits(fields, rows) && cfg.parts > 0 && Known(ids, attrs)
    ensures BatchTexts(index, fields, rows, attrs, cfg, ids, n + 1)
         == BatchTexts(index, fields, rows, attrs, cfg, ids, n)
            + ShardTexts(IndexChunkName(index, cfg.parts, n), fields, rows, attrs, cfg, ids, n)
  {
    hide FetchFits, Known, ShardTexts, IndexChunkName;
  }

  lemma {:induction false} BatchTextsGrow(index: string, fields: seq<string>, rows: Fetched, attrs: map<DocID, set<string>>,
                                          cfg: SourceConfig, ids: seq<DocID>, n: nat, m: nat)
    requires FetchFits(fields, rows) && cfg.parts > 0 && Known(ids, attrs) && n <= m
    ensures BatchTexts(index, fields, rows, attrs, cfg, ids, n) <= BatchTexts(index, fields, rows, attrs, cfg, ids, m)
  {
    hide FetchFits, Known, ShardTexts, IndexChunkName, BatchTexts;
    if n < m {
      BatchTextsGrow(index, fields, rows, attrs, cfg, ids, n, m - 1);
      BatchTextsStep(index, fields, rows, attrs, cfg, ids, m - 1);
    }
  }

  /** One more shard: when a statement of it fails, the whole batch stops there. */
  lemma NextShard(start: Cluster, now: Cluster, index: string, fields: seq<string>, rows: Fetched,
                  attrs: map<DocID, set<string>>, cfg: SourceConfig, ids: seq<DocID>, n: nat)
    requires FetchFits(fields, rows) && cfg.parts > 0 && Known(ids, attrs) && n < cfg.parts
    requires RunTexts(start, BatchTexts(index, fields, rows, attrs, cfg, ids, n)) == Reply(now, true)
    ensures RunTexts(start, BatchTexts(index, fields, rows, attrs, cfg, ids, n + 1))
         == RunTexts(now, ShardTexts(IndexChunkName(index, cfg.parts, n), fields, rows, attrs, cfg, ids, n))
    ensures !RunTexts(now, ShardTexts(IndexChunkName(index, cfg.parts, n), fields, rows, attrs, cfg, ids, n)).ok ==>
              RunTexts(start, BatchTexts(index, fields, rows, attrs, cfg, ids, cfg.parts))
              == RunTexts(now, ShardTexts(IndexChunkName(index, cfg.parts, n), fields, rows, attrs, cfg, ids, n))
  {
    hide RunTexts, ShardTexts, FetchFits, IndexChunkName, BatchTexts, Known;
    var prior := BatchTexts(index, fields, rows, attrs, cfg, ids, n);
    var more := ShardTexts(IndexChunkName(index, cfg.parts, n), fields, rows, attrs, cfg, ids, n);
    BatchTextsStep(index, fields, rows, attrs, cfg, ids, n);
    var all := BatchTexts(index, fields, rows, attrs, cfg, ids, cfg.parts);
    BatchTextsGrow(index, fields, rows, attrs, cfg, ids, n + 1, cfg.parts);
    NextTexts(start, prior, now, more, all[|prior + more|..]);
    assert prior + more + all[|prior + more|..] == all;
  }

  lemma ListsForFit(ids: seq<DocID>, attrs: map<DocID, set<string>>, data: IndexData, cfg: SourceConfig, chunk: nat)
    requires cfg.parts > 0 && Known(ids, attrs) && DataFits(data)
    ensures ListsFit(ListsFor(ids, attrs, data, cfg, chunk))
  {
    hide Picked, ChangedPositions;
  }

  ghost predicate IsFilled(q: QuerySet, name: string, fields: seq<string>, lists: QueryLists)
    reads q
  {
    q.index == name && q.fields == fields && q.View() == lists
  }

  /** The query sets of all shards, filled. */
  ghost predicate AllFilled(qs: seq<QuerySet>, index: string, data: IndexData, attrs: map<DocID, set<string>>,
                            cfg: SourceConfig, ids: seq<DocID>)
    requires cfg.parts > 0 && Known(ids, attrs) && DataFits(data)
    reads set q | q in qs
  {
    && |qs| == cfg.parts
    && forall c :: 0 <= c < |qs| ==>
         IsFilled(qs[c], IndexChunkName(index, cfg.parts, c), data.fields, ListsFor(ids, attrs, data, cfg, c))
  }

  lemma FilledAt(qs: seq<QuerySet>, index: string, attrs: map<DocID, set<string>>, ids: seq<DocID>, data: IndexData,
                 cfg: SourceConfig, c: nat)
    requires cfg.parts > 0 && Known(ids, attrs) && DataFits(data)
    requires AllFilled(qs, index, data, attrs, cfg, ids)
    ensures |qs| == cfg.parts
    ensures c < |qs| ==>
              IsFilled(qs[c], IndexChunkName(index, cfg.parts, c), data.fields, ListsFor(ids, attrs, data, cfg, c))
  {
    hide ListsFor, IndexChunkName, Known, DataFits, IsFilled;
  }

  method BuildQuerySets(index: string, attrs: map<DocID, set<string>>, ids: seq<DocID>, data: IndexData, cfg: SourceConfig)
    returns (qs: seq<QuerySet>)
    requires cfg.parts > 0 && Known(ids, attrs) && DataFits(data)
    ensures AllFilled(qs, index, data, attrs, cfg, ids)
  {
    hide ListsFor, IndexChunkName, Known, DataFits;
    qs := NewQueryBatch(index, data.fields, cfg.parts);
    FillQueryBatch(qs, ids, attrs, data, cfg);
  }

  /** Builds the query sets and executes them shard by shard, until one fails. */
  method ExecuteShards(index: string, result: ResultSet, attrs: map<DocID, set<string>>, ids: seq<DocID>, data: IndexData,
                       source: DataSource, cluster: Cluster) returns (after: Cluster, ok: bool)
    requires ResultFits(result) && source.cfg.parts > 0 && Known(ids, attrs)
    requires data == DataOf(result.fields, ByID(result.fields, result.rows))
    ensures Reply(after, ok) == RunTexts(cluster, SentTexts(index, source, result, attrs, ids))
  {
    after := cluster;
    ghost var rows := ByID(result.fields, result.rows);
    ResultIsFetched(result);
    NothingRuns(cluster);
    hide ResultFits, FetchFits, DataFits, Known, ByID, ListsFor, RunTexts, ShardTexts, IndexChunkName, ListsFit, TextsOf;
    var qs := BuildQuerySets(index, attrs, ids, data, source.cfg);
    FilledAt(qs, index, attrs, ids, data, source.cfg, 0);
    for n := 0 to |qs|
      invariant RunTexts(cluster, BatchTexts(index, result.fields, rows, attrs, source.cfg, ids, n)) == Reply(after, true)
      modifies {}
    {
      hide BatchTexts, AllFilled;
      FilledAt(qs, index, attrs, ids, data, source.cfg, n);
      ShardTextsAre(index, result.fields, rows, attrs, source.cfg, ids, n);
      NextShard(cluster, after, index, result.fields, rows, attrs, source.cfg, ids, n);
      after, ok := ExecuteQuerySet(qs[n], after);
      if !ok {
        return;
      }
    }
    ok := true;
  }

  lemma ShardTextsAre(index: string, fields: seq<string>, rows: Fetched, attrs: map<DocID, set<string>>,
                      cfg: SourceConfig, ids: seq<DocID>, chunk: nat)
    requires FetchFits(fields, rows) && cfg.parts > 0 && Known(ids, attrs)
    ensures DataFits(DataOf(fields, rows))
    ensures ListsFit(ListsFor(ids, attrs, DataOf(fields, rows), cfg, chunk))
    ensures ShardTexts(IndexChunkName(index, cfg.parts, chunk), fields, rows, attrs, cfg, ids, chunk)
         == TextsOf(IndexChunkName(index, cfg.parts, chunk), fields, ListsFor(ids, attrs, DataOf(fields, rows), cfg, chunk))
  {
    hide IndexChunkName, ListsFor, ListsFit, TextsOf;
    ListsForFit(ids, attrs, DataOf(fields, rows), cfg, chunk);
  }

  /** Applies the changes of one index; `ids` are the changed documents in the order in which they were found. */
  method DoIndexChangeSet(ics: IndexChangeSet, sources: map<string, DataSource>, database: Database, cluster: Cluster)
    returns (after: Cluster, ok: bool, ids: seq<DocID>)
    requires AllFoldsFit(ics.changedDocs) && DatabaseFits(database)
    requires ics.index in sources ==> sources[ics.index].cfg.parts > 0
    ensures ics.index !in sources ==> !ok && after == cluster
    ensures ics.index in sources ==> ListsChanged(ids, AttrsByDoc(ics.changedDocs)) && Known(ids, AttrsByDoc(ics.changedDocs))
    ensures ics.index in sources && ids == [] ==> ok && after == cluster
    ensures ics.index in sources && ids != [] && !CanFetch(database(ics.index, ids), sources[ics.index]) ==>
              !ok && after == cluster
    ensures ics.index in sources && ids != [] && CanFetch(database(ics.index, ids), sources[ics.index]) ==>
              var result := database(ics.index, ids).value;
              var texts := SentTexts(ics.index, sources[ics.index], result, AttrsByDoc(ics.changedDocs), ids);
              Reply(after, ok) == RunTexts(cluster, texts)
  {
    after, ids := cluster, [];
    if ics.index !in sources {
      return after, false, ids;
    }
    var source := sources[ics.index];
    var attrs, changed, _ := ChangedAttrsByDocID(ics.changedDocs);
    ListedAreKnown(changed, attrs);
    hide ListsChanged, ResultFits, AllFoldsFit, AttrsByDoc, SentTexts, RunTexts;
    ids := changed;
    if |changed| == 0 {
      return after, true, ids;
    }
    var result := database(ics.index, changed);
    if result.None? {
      return after, false, ids;
    }
    var data := FetchIndexData(result.value, source.configured);
    if data.None? {
      return after, false, ids;
    }
    after, ok := ExecuteShards(ics.index, result.value, attrs, changed, data.value, source, cluster);
  }

  /* ---------- one batch ---------- */

  ghost predicate SourcesFit(changes: Changes, sources: map<string, DataSource>) {
    forall i :: i in changes ==> SourceFits(changes[i], sources) && changes[i].index == i
  }

  ghost predicate SourceFits(ics: IndexChangeSet, sources: map<string, DataSource>) {
    AllFoldsFit(ics.changedDocs) && (ics.index in sources ==> sources[ics.index].cfg.parts > 0)
  }

  /** The changes of one index were applied in full. */
  ghost predicate IndexApplied(ics: IndexChangeSet, sources: map<string, DataSource>, database: Database,
                               before: Cluster, after: Cluster)
    requires SourceFits(ics, sources) && DatabaseFits(database)
  {
    && ics.index in sources
    && exists ids :: ListedAndSent(ics, sources[ics.index], database, before, after, ids)
  }

  ghost predicate ListedAndSent(ics: IndexChangeSet, source: DataSource, database: Database,
                                before: Cluster, after: Cluster, ids: seq<DocID>)
    requires AllFoldsFit(ics.changedDocs) && source.cfg.parts > 0 && DatabaseFits(database)
  {
    var attrs := AttrsByDoc(ics.changedDocs);
    && ListsChanged(ids, attrs) && Known(ids, attrs)
    && if ids == [] then after == before
       else CanFetch(database(ics.index, ids), source) &&
            RunTexts(before, SentTexts(ics.index, source, database(ics.index, ids).value, attrs, ids)) == Reply(after, true)
  }

  /** Starting from the first state, each listed index in turn takes the servers to the next state. */
  ghost predicate AppliedInTurn(changes: Changes, sources: map<string, DataSource>, database: Database,
                                order: seq<string>, states: seq<Cluster>)
    requires SourcesFit(changes, sources) && DatabaseFits(database)
  {
    && |states| == |order| + 1 && Distinct(order)
    && forall k :: 0 <= k < |order| ==>
         order[k] in changes && IndexApplied(changes[order[k]], sources, database, states[k], states[k + 1])
  }

  lemma OneMoreInTurn(changes: Changes, sources: map<string, DataSource>, database: Database,
                      order: seq<string>, states: seq<Cluster>, index: string, after: Cluster)
    requires SourcesFit(changes, sources) && DatabaseFits(database)
    requires AppliedInTurn(changes, sources, database, order, states) && index in changes && index !in order
    requires IndexApplied(changes[index], sources, database, Last(states), after)
    ensures AppliedInTurn(changes, sources, database, order + [index], states + [after])
  {
    hide IndexApplied, SourceFits, DatabaseFits;
  }

  /** Applying these indexes one after the other, in some order, takes the servers from one state to another. */
  ghost predicate AppliedFrom(changes: Changes, sources: map<string, DataSource>, database: Database, done: set<string>,
                              before: Cluster, after: Cluster)
    requires SourcesFit(changes, sources) && DatabaseFits(database)
  {
    exists order, states :: AppliedInTurn(changes, sources, database, order, states) &&
      states[0] == before && Last(states) == after && forall i :: i in order <==> i in done
  }

  /** The changes of one index were not applied, or not in full. */
  ghost predicate IndexFailed(ics: IndexChangeSet, sources: map<string, DataSource>, database: Database,
                              before: Cluster, after: Cluster)
    requires SourceFits(ics, sources) && DatabaseFits(database)
  {
    if ics.index !in sources then after == before
    else exists ids :: ListedAndFailed(ics, sources[ics.index], database, before, after, ids)
  }

  ghost predicate ListedAndFailed(ics: IndexChangeSet, source: DataSource, database: Database,
                                  before: Cluster, after: Cluster, ids: seq<DocID>)
    requires AllFoldsFit(ics.changedDocs) && source.cfg.parts > 0 && DatabaseFits(database)
  {
    var attrs := AttrsByDoc(ics.changedDocs);
    && ListsChanged(ids, attrs) && Known(ids, attrs) && ids != []
    && if CanFetch(database(ics.index, ids), source)
       then RunTexts(before, SentTexts(ics.index, source, database(ics.index, ids).value, attrs, ids)) == Reply(after, false)
       else after == before
  }

  /** After these indexes were applied, another one failed. */
  ghost predicate FailedAfter(changes: Changes, sources: map<string, DataSource>, database: Database, done: set<string>,
                              before: Cluster, after: Cluster)
    requires SourcesFit(changes, sources) && DatabaseFits(database)
  {
    exists mid, i :: AppliedFrom(changes, sources, database, done, before, mid) && i in changes && i !in done &&
      IndexFailed(changes[i], sources, database, mid, after)
  }

  /** Applies the indexes of a batch one by one, in no particular order, until one fails. What a failed batch reports
      as done is what the synchronisation loop counts as applied: the indexes before the failing one. */
  method DoBatch(changes: Changes, sources: map<string, DataSource>, database: Database, cluster: Cluster)
    returns (after: Cluster, result: BatchResult)
    requires SourcesFit(changes, sources) && DatabaseFits(database)
    ensures result.BatchApplied? ==> AppliedFrom(changes, sources, database, changes.Keys, cluster, after)
    ensures result.BatchFailed? ==>
              result.done < changes.Keys && FailedAfter(changes, sources, database, result.done, cluster, after)
  {
    after := cluster;
    ghost var order: seq<string>, states := [], [cluster];
    var rest := changes.Keys;
    while rest != {}
      invariant rest <= changes.Keys && forall i :: i in order <==> i in changes.Keys - rest
      invariant AppliedInTurn(changes, sources, database, order, states)
      invariant states[0] == cluster && after == Last(states)
      decreases rest
    {
      var i :| i in rest;
      assert SourceFits(changes[i], sources);
      hide AppliedInTurn, AttrsByDoc, ListsChanged, SentTexts, RunTexts, CanFetch, DatabaseFits, AllFoldsFit, Known;
      assert AppliedFrom(changes, sources, database, changes.Keys - rest, cluster, after);
      var next, ok, ids := DoIndexChangeSet(changes[i], sources, database, after);
      if !ok {
        assert i in sources ==> ListedAndFailed(changes[i], sources[i], database, after, next, ids);
        assert IndexFailed(changes[i], sources, database, after, next);
        assert FailedAfter(changes, sources, database, changes.Keys - rest, cluster, next);
        return next, BatchFailed(changes.Keys - rest);
      }
      assert ListedAndSent(changes[i], sources[i], database, after, next, ids);
      OneMoreInTurn(changes, sources, database, order, states, i, next);
      after, order, states := next, order + [i], states + [next];
      rest := rest - {i};
    }
    result := BatchApplied;
  }

  /* ---------- what was fetched ---------- */

  /** Of several rows for one document the last one is kept; a document without a row is not. */
  lemma {:induction false} LastRowIsKept(fields: seq<string>, rows: seq<seq<Literal>>, d: DocID)
    requires HaveIDs(fields, rows)
    ensures d in ByID(fields, rows) <==> exists k :: 0 <= k < |rows| && RowID(fields, rows[k]) == d
    ensures d in ByID(fields, rows) ==>
              exists k :: 0 <= k < |rows| && RowID(fields, rows[k]) == d && ByID(fields, rows)[d] == rows[k] &&
                forall l :: k < l < |rows| ==> RowID(fields, rows[l]) != d
  {
    hide RowID, HasID;
    if rows != [] {
      var n := |rows| - 1;
      LastRowIsKept(fields, Front(rows), d);
      assert forall k :: 0 <= k < n ==> Front(rows)[k] == rows[k];
      if RowID(fields, rows[n]) != d && d in ByID(fields, rows) {
        var k :| 0 <= k < n && RowID(fields, rows[k]) == d && ByID(fields, Front(rows))[d] == rows[k] &&
          forall l :: k < l < n ==> RowID(fields, Front(rows)[l]) != d;
        assert ByID(fields, rows)[d] == rows[k];
      }
    }
  }

  /** A result with a row cannot be used when it has a column that is not configured. */
  lemma UnconfiguredColumnFails(result: ResultSet, source: DataSource, field: string)
    requires result.rows != [] && field in result.fields && field !in source.configured
    ensures !CanFetch(Some(result), source)
  {
  }
}
