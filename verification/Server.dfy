/** The search servers as the synchroniser sees them: named shards of documents, changed by statements sent as
    text. Executing the statements of a batch leaves every changed document as the database has it. */
module Server {
  import opened Types
  import opened Sql
  import opened Conventions
  import opened QueryBatch

  type Doc = map<string, Literal>

  type Shard = map<DocID, Doc>

  type Cluster = map<string, Shard>

  const ID_FIELD := "id"

  /* ---------- executing statements ---------- */

  function DocOf(fields: seq<string>, values: seq<Literal>): Doc
    requires |fields| == |values|
  {
    if fields == [] then map[] else DocOf(Front(fields), Front(values))[Last(fields) := Last(values)]
  }

  predicate HasID(fields: seq<string>, row: seq<Literal>) {
    && |row| == |fields|
    && ID_FIELD in DocOf(fields, row) && DocOf(fields, row)[ID_FIELD].IntLit? && DocOf(fields, row)[ID_FIELD].n >= 0
  }

  function RowID(fields: seq<string>, row: seq<Literal>): DocID
    requires HasID(fields, row)
  {
    DocOf(fields, row)[ID_FIELD].n
  }

  function PutRows(shard: Shard, fields: seq<string>, rows: seq<seq<Literal>>): Shard
    requires forall k :: 0 <= k < |rows| ==> HasID(fields, rows[k])
  {
    if rows == [] then shard
    else PutRows(shard, fields, Front(rows))[RowID(fields, Last(rows)) := DocOf(fields, Last(rows))]
  }

  /** An update of a document that is not there changes nothing. */
  function Patch(shard: Shard, id: DocID, patch: Doc): Shard {
    if id in shard then shard[id := shard[id] + patch] else shard
  }

  function Drop(shard: Shard, ids: seq<DocID>): Shard {
    map d | d in shard && d !in ids :: shard[d]
  }

  /** A statement fails on an unknown index or a row without an id. */
  function Exec(cluster: Cluster, c: Command): Option<Cluster> {
    if c.index !in cluster then None
    else
      var shard := cluster[c.index];
      match c
      case Replace(index, fields, rows) =>
        if forall k :: 0 <= k < |rows| ==> HasID(fields, rows[k]) then Some(cluster[index := PutRows(shard, fields, rows)])
        else None
      case Update(index, id, fields, values) =>
        if |fields| == |values| then Some(cluster[index := Patch(shard, id, DocOf(fields, values))]) else None
      case Delete(index, ids) => Some(cluster[index := Drop(shard, ids)])
  }

  datatype Reply = Reply(cluster: Cluster, ok: bool)

  function RunText(cluster: Cluster, text: string): Reply {
    match Parse(text)
    case None => Reply(cluster, false)
    case Some(c) =>
      match Exec(cluster, c)
      case None => Reply(cluster, false)
      case Some(next) => Reply(next, true)
  }

  /** Statements run in order until one fails. */
  function RunTexts(cluster: Cluster, texts: seq<string>): Reply {
    if texts == [] then Reply(cluster, true)
    else
      var prior := RunTexts(cluster, Front(texts));
      if prior.ok then RunText(prior.cluster, Last(texts)) else prior
  }

  lemma {:induction false} RunTextsAppend(cluster: Cluster, a: seq<string>, b: seq<string>)
    ensures RunTexts(cluster, a + b) == if RunTexts(cluster, a).ok then RunTexts(RunTexts(cluster, a).cluster, b)
                                        else RunTexts(cluster, a)
  {
    if b == [] {
      assert a + b == a;
    } else {
      hide RunText;
      assert Front(a + b) == a + Front(b);
      RunTextsAppend(cluster, a, Front(b));
    }
  }

  ghost predicate ListsFit(lists: QueryLists) {
    forall k :: 0 <= k < |lists.update| ==> |lists.update[k].fields| == |lists.update[k].values|
  }

  function UpdateTexts(index: string, updates: seq<UpdateQuery>): seq<string>
    requires forall k :: 0 <= k < |updates| ==> |updates[k].fields| == |updates[k].values|
  {
    seq(|updates|, k requires 0 <= k < |updates| => UpdateText(index, updates[k].id, updates[k].fields, updates[k].values))
  }

  /** The statements of one shard: at most one replace, at most one delete, then the updates. */
  function TextsOf(index: string, fields: seq<string>, lists: QueryLists): seq<string>
    requires ListsFit(lists)
  {
    (if lists.replace != [] then [ReplaceText(index, fields, lists.replace)] else [])
    + (if lists.delete != [] then [DeleteText(index, lists.delete)] else [])
    + UpdateTexts(index, lists.update)
  }

  /* ---------- fetched rows ---------- */

  /** The fetched rows as values, before they were printed. */
  type Fetched = map<DocID, seq<Literal>>

  /** Result columns are distinct names, one of them the document id, and every row carries its own id. */
  ghost predicate FetchFits(fields: seq<string>, rows: Fetched) {
    && Distinct(fields) && (forall k :: 0 <= k < |fields| ==> IsName(fields[k])) && fields != []
    && forall d :: d in rows ==> |rows[d]| == |fields| && HasID(fields, rows[d]) && RowID(fields, rows[d]) == d
  }

  function DataOf(fields: seq<string>, rows: Fetched): IndexData {
    IndexData(fields, map d | d in rows :: RenderAll(rows[d]))
  }

  /** A document as the database has it, in the form the server stores. */
  function FetchedDoc(fields: seq<string>, row: seq<Literal>): Doc
    requires |row| == |fields|
  {
    DocOf(fields, StoredAll(row))
  }

  /** The changed part of a fetched document. */
  function FetchedPatch(fields: seq<string>, row: seq<Literal>, changed: set<string>): Doc
    requires |row| == |fields|
  {
    var at := ChangedPositions(fields, changed);
    DocOf(Selected(fields, at), StoredAll(Selected(row, at)))
  }

  lemma {:induction false} DocOfKeys(fields: seq<string>, values: seq<Literal>)
    requires |fields| == |values|
    ensures forall f :: f in DocOf(fields, values) <==> f in fields
  {
    if fields != [] {
      DocOfKeys(Front(fields), Front(values));
      assert forall f :: f in fields <==> f in Front(fields) || f == Last(fields);
    }
  }

  lemma {:induction false} DocOfAt(fields: seq<string>, values: seq<Literal>, k: nat)
    requires |fields| == |values| && Distinct(fields) && k < |fields|
    ensures fields[k] in DocOf(fields, values) && DocOf(fields, values)[fields[k]] == values[k]
  {
    if k < |fields| - 1 {
      DocOfAt(Front(fields), Front(values), k);
      assert fields[k] != Last(fields);
    }
  }

  lemma StoredHasID(fields: seq<string>, row: seq<Literal>)
    requires Distinct(fields) && HasID(fields, row)
    ensures HasID(fields, StoredAll(row)) && RowID(fields, StoredAll(row)) == RowID(fields, row)
  {
    DocOfKeys(fields, row);
    var k :| 0 <= k < |fields| && fields[k] == ID_FIELD;
    DocOfAt(fields, row, k);
    DocOfAt(fields, StoredAll(row), k);
    hide DocOf;
  }

  lemma PatchKeys(fields: seq<string>, row: seq<Literal>, changed: set<string>)
    requires |row| == |fields|
    ensures forall f :: f in FetchedPatch(fields, row, changed) <==> f in FetchedDoc(fields, row) && f in changed
  {
    var at := ChangedPositions(fields, changed);
    PositionsAre(fields, changed);
    DocOfKeys(Selected(fields, at), StoredAll(Selected(row, at)));
    DocOfKeys(fields, StoredAll(row));
    hide DocOf, ChangedPositions;
    forall f ensures f in Selected(fields, at) <==> f in fields && f in changed {
      if f in fields && f in changed {
        var i :| 0 <= i < |fields| && fields[i] == f;
        var k :| 0 <= k < |at| && at[k] == i;
        assert Selected(fields, at)[k] == f;
      }
    }
  }

  lemma PatchAt(fields: seq<string>, row: seq<Literal>, changed: set<string>, f: string)
    requires |row| == |fields| && Distinct(fields)
    requires f in FetchedPatch(fields, row, changed)
    ensures f in FetchedDoc(fields, row) && FetchedPatch(fields, row, changed)[f] == FetchedDoc(fields, row)[f]
  {
    var at := ChangedPositions(fields, changed);
    var names, values := Selected(fields, at), StoredAll(Selected(row, at));
    PositionsAre(fields, changed);
    SelectedDistinct(fields, at);
    DocOfKeys(names, values);
    hide DocOf, ChangedPositions;
    var k :| 0 <= k < |names| && names[k] == f;
    DocOfAt(names, values, k);
    DocOfAt(fields, StoredAll(row), at[k]);
  }

  /** The patch holds exactly the changed fields, each with the value of the fetched document. */
  lemma PatchIsPart(fields: seq<string>, row: seq<Literal>, changed: set<string>)
    requires |row| == |fields| && Distinct(fields)
    ensures FetchedPatch(fields, row, changed)
         == map f | f in FetchedDoc(fields, row) && f in changed :: FetchedDoc(fields, row)[f]
  {
    hide FetchedPatch, FetchedDoc;
    PatchKeys(fields, row, changed);
    forall f | f in FetchedPatch(fields, row, changed)
      ensures f in FetchedDoc(fields, row) && FetchedPatch(fields, row, changed)[f] == FetchedDoc(fields, row)[f]
    {
      PatchAt(fields, row, changed, f);
    }
  }

  lemma SelectedDistinct(fields: seq<string>, at: seq<nat>)
    requires Distinct(fields) && forall k :: 0 <= k < |at| ==> at[k] < |fields|
    requires forall k, l :: 0 <= k < l < |at| ==> at[k] < at[l]
    ensures Distinct(Selected(fields, at))
  {
  }

  /* ---------- the effect on one shard ---------- */

  function PutDocs(shard: Shard, fields: seq<string>, rows: Fetched, ids: seq<DocID>): Shard
    requires forall k :: 0 <= k < |ids| ==> ids[k] in rows && |rows[ids[k]]| == |fields|
  {
    if ids == [] then shard
    else PutDocs(shard, fields, rows, Front(ids))[Last(ids) := FetchedDoc(fields, rows[Last(ids)])]
  }

  function PatchDocs(shard: Shard, fields: seq<string>, rows: Fetched, attrs: map<DocID, set<string>>, ids: seq<DocID>): Shard
    requires Known(ids, attrs) && forall k :: 0 <= k < |ids| ==> ids[k] in rows && |rows[ids[k]]| == |fields|
  {
    if ids == [] then shard
    else
      var id := Last(ids);
      Patch(PatchDocs(shard, fields, rows, attrs, Front(ids)), id, FetchedPatch(fields, rows[id], attrs[id]))
  }

  function DocIn(shard: Shard, d: DocID): Option<Doc> {
    if d in shard then Some(shard[d]) else None
  }

  lemma {:induction false} PutDocsAt(shard: Shard, fields: seq<string>, rows: Fetched, ids: seq<DocID>, d: DocID)
    requires forall k :: 0 <= k < |ids| ==> ids[k] in rows && |rows[ids[k]]| == |fields|
    ensures DocIn(PutDocs(shard, fields, rows, ids), d) ==
            if d in ids then Some(FetchedDoc(fields, rows[d])) else DocIn(shard, d)
  {
    if ids != [] {
      PutDocsAt(shard, fields, rows, Front(ids), d);
      assert d in ids <==> d in Front(ids) || d == Last(ids);
      hide FetchedDoc;
    }
  }

  lemma {:induction false} PatchDocsAt(shard: Shard, fields: seq<string>, rows: Fetched, attrs: map<DocID, set<string>>,
                                       ids: seq<DocID>, d: DocID)
    requires Known(ids, attrs) && Distinct(ids)
    requires forall k :: 0 <= k < |ids| ==> ids[k] in rows && |rows[ids[k]]| == |fields|
    ensures DocIn(PatchDocs(shard, fields, rows, attrs, ids), d) ==
            if d in ids && d in shard then Some(shard[d] + FetchedPatch(fields, rows[d], attrs[d])) else DocIn(shard, d)
  {
    if ids != [] {
      PatchDocsAt(shard, fields, rows, attrs, Front(ids), d);
      PatchDocsAt(shard, fields, rows, attrs, Front(ids), Last(ids));
      assert d in ids <==> d in Front(ids) || d == Last(ids);
      assert Last(ids) !in Front(ids);
      hide FetchedPatch;
    }
  }

  /** What a batch does to a document of the shard, given what the shard held before. */
  function DocAfter(before: Option<Doc>, fields: seq<string>, rows: Fetched, attrs: map<DocID, set<string>>,
                    cfg: SourceConfig, d: DocID): Option<Doc>
    requires d in attrs && (d in rows ==> |rows[d]| == |fields|)
  {
    match PlacementOf(d, attrs, DataOf(fields, rows), cfg)
    case ToDelete => None
    case ToReplace => Some(FetchedDoc(fields, rows[d]))
    case ToUpdate => if before.None? then None else Some(before.value + FetchedPatch(fields, rows[d], attrs[d]))
  }

  /** Replace, delete, update: the order of a shard's statements. */
  function ShardAfter(shard: Shard, fields: seq<string>, rows: Fetched, attrs: map<DocID, set<string>>,
                      cfg: SourceConfig, ids: seq<DocID>, chunk: nat): Shard
    requires FetchFits(fields, rows) && cfg.parts > 0 && Known(ids, attrs)
  {
    var data := DataOf(fields, rows);
    PickedAre(ids, attrs, data, cfg, chunk, ToReplace);
    PickedAre(ids, attrs, data, cfg, chunk, ToUpdate);
    var replaced := Picked(ids, attrs, data, cfg, chunk, ToReplace);
    var updated := Picked(ids, attrs, data, cfg, chunk, ToUpdate);
    assert forall k :: 0 <= k < |replaced| ==> replaced[k] in replaced;
    assert forall k :: 0 <= k < |updated| ==> updated[k] in updated;
    PatchDocs(Drop(PutDocs(shard, fields, rows, replaced), Picked(ids, attrs, data, cfg, chunk, ToDelete)),
              fields, rows, attrs, updated)
  }

  /** The three lists of a shard are disjoint, so the order of its statements does not show: every document of
      the batch in this shard ends up as `DocAfter` says, and every other document is untouched. */
  lemma ShardAfterAt(shard: Shard, fields: seq<string>, rows: Fetched, attrs: map<DocID, set<string>>,
                     cfg: SourceConfig, ids: seq<DocID>, chunk: nat, d: DocID)
    requires FetchFits(fields, rows) && cfg.parts > 0 && Known(ids, attrs) && Distinct(ids)
    ensures DocIn(ShardAfter(shard, fields, rows, attrs, cfg, ids, chunk), d) ==
            if d in ids && IndexChunk(d, cfg.parts) == chunk then DocAfter(DocIn(shard, d), fields, rows, attrs, cfg, d)
            else DocIn(shard, d)
  {
    var data := DataOf(fields, rows);
    var replaced := Picked(ids, attrs, data, cfg, chunk, ToReplace);
    var deleted := Picked(ids, attrs, data, cfg, chunk, ToDelete);
    var updated := Picked(ids, attrs, data, cfg, chunk, ToUpdate);
    PickedAre(ids, attrs, data, cfg, chunk, ToReplace);
    PickedAre(ids, attrs, data, cfg, chunk, ToUpdate);
    PickedAre(ids, attrs, data, cfg, chunk, ToDelete);
    PickedDistinct(ids, attrs, data, cfg, chunk, ToUpdate);
    assert forall k :: 0 <= k < |replaced| ==> replaced[k] in replaced;
    assert forall k :: 0 <= k < |updated| ==> updated[k] in updated;
    var put := PutDocs(shard, fields, rows, replaced);
    PutDocsAt(shard, fields, rows, replaced, d);
    PatchDocsAt(Drop(put, deleted), fields, rows, attrs, updated, d);
    hide Picked, FetchedDoc, FetchedPatch, IndexChunk, PutDocs, PatchDocs;
  }

  /* ---------- the statements have that effect ---------- */

  lemma StatementRuns(cluster: Cluster, c: Command)
    requires Sendable(c) && Exec(cluster, StoredCommand(c)).Some?
    ensures RunTexts(cluster, [Print(c)]) == Reply(Exec(cluster, StoredCommand(c)).value, true)
  {
    PrintedIsRead(c);
    hide Parse, Print, Exec, StoredCommand;
    assert Front([Print(c)]) == [];
  }

  function RowsAt(rows: Fetched, ids: seq<DocID>): seq<seq<Literal>>
    requires forall k :: 0 <= k < |ids| ==> ids[k] in rows
  {
    seq(|ids|, k requires 0 <= k < |ids| => rows[ids[k]])
  }

  lemma StoredRowsFit(fields: seq<string>, rows: Fetched, ids: seq<DocID>)
    requires FetchFits(fields, rows) && forall k :: 0 <= k < |ids| ==> ids[k] in rows
    ensures forall k :: 0 <= k < |ids| ==> HasID(fields, StoredRows(RowsAt(rows, ids))[k]) &&
                                           RowID(fields, StoredRows(RowsAt(rows, ids))[k]) == ids[k]
  {
    forall k | 0 <= k < |ids| ensures HasID(fields, StoredRows(RowsAt(rows, ids))[k]) &&
                                      RowID(fields, StoredRows(RowsAt(rows, ids))[k]) == ids[k]
    {
      StoredHasID(fields, rows[ids[k]]);
      assert StoredRows(RowsAt(rows, ids))[k] == StoredAll(rows[ids[k]]);
      hide HasID, RowID, StoredAll;
    }
  }

  lemma StoredRowsFront(rows: Fetched, ids: seq<DocID>)
    requires ids != [] && forall k :: 0 <= k < |ids| ==> ids[k] in rows
    ensures Front(StoredRows(RowsAt(rows, ids))) == StoredRows(RowsAt(rows, Front(ids)))
    ensures Last(StoredRows(RowsAt(rows, ids))) == StoredAll(rows[Last(ids)])
  {
    hide StoredAll;
  }

  lemma {:induction false} PutRowsIsPutDocs(shard: Shard, fields: seq<string>, rows: Fetched, ids: seq<DocID>)
    requires FetchFits(fields, rows) && forall k :: 0 <= k < |ids| ==> ids[k] in rows
    ensures forall k :: 0 <= k < |ids| ==> HasID(fields, StoredRows(RowsAt(rows, ids))[k])
    ensures PutRows(shard, fields, StoredRows(RowsAt(rows, ids))) == PutDocs(shard, fields, rows, ids)
  {
    hide HasID, RowID, DocOf, StoredAll, FetchFits;
    StoredRowsFit(fields, rows, ids);
    if ids != [] {
      StoredRowsFront(rows, ids);
      hide StoredRows, RowsAt;
      PutRowsIsPutDocs(shard, fields, rows, Front(ids));
    }
  }

  lemma ReplaceRuns(cluster: Cluster, index: string, fields: seq<string>, rows: Fetched, ids: seq<DocID>)
    requires FetchFits(fields, rows) && IsName(index) && index in cluster
    requires ids != [] && forall k :: 0 <= k < |ids| ==> ids[k] in rows
    ensures RunTexts(cluster, [ReplaceText(index, fields, RenderRows(RowsAt(rows, ids)))])
         == Reply(cluster[index := PutDocs(cluster[index], fields, rows, ids)], true)
  {
    var c := Replace(index, fields, RowsAt(rows, ids));
    PutRowsIsPutDocs(cluster[index], fields, rows, ids);
    assert Sendable(c);
    hide PutRows, PutDocs, HasID, RowsAt, StoredRows, RenderRows, ReplaceText, Sendable;
    StatementRuns(cluster, c);
  }

  lemma DeleteRuns(cluster: Cluster, index: string, ids: seq<DocID>)
    requires IsName(index) && index in cluster && ids != []
    ensures RunTexts(cluster, [DeleteText(index, ids)]) == Reply(cluster[index := Drop(cluster[index], ids)], true)
  {
    hide DeleteText, Drop, IsName;
    StatementRuns(cluster, Delete(index, ids));
  }

  lemma RenderSelected(row: seq<Literal>, at: seq<nat>)
    requires forall k :: 0 <= k < |at| ==> at[k] < |row|
    ensures Selected(RenderAll(row), at) == RenderAll(Selected(row, at))
  {
  }

  lemma UpdateRuns(cluster: Cluster, index: string, fields: seq<string>, rows: Fetched, changed: set<string>, id: DocID)
    requires FetchFits(fields, rows) && IsName(index) && index in cluster && id in rows
    requires exists f :: f in changed && f in fields
    ensures RunTexts(cluster, [UpdateText(index, id, UpdateFor(id, changed, DataOf(fields, rows)).fields,
                                          UpdateFor(id, changed, DataOf(fields, rows)).values)])
         == Reply(cluster[index := Patch(cluster[index], id, FetchedPatch(fields, rows[id], changed))], true)
  {
    var at := ChangedPositions(fields, changed);
    var data := DataOf(fields, rows);
    RenderSelected(rows[id], at);
    UpdateSelects(id, changed, data);
    PartialUpdateIsComplete(id, changed, data);
    var c := Update(index, id, Selected(fields, at), Selected(rows[id], at));
    assert Sendable(c) by { hide IsName, HasID; }
    hide IsName, Sendable, ChangedPositions, DocOf, UpdateText, RenderAll, Patch, UpdateFor, HasID;
    StatementRuns(cluster, c);
  }

  /** Some changed field of each listed document is a result column, so no update is empty. */
  ghost predicate FieldsKnown(fields: seq<string>, attrs: map<DocID, set<string>>, ids: seq<DocID>) {
    forall d :: d in ids ==> d in attrs && exists f :: f in attrs[d] && f in fields
  }

  function UpdatesFor(fields: seq<string>, rows: Fetched, attrs: map<DocID, set<string>>, ids: seq<DocID>): (u: seq<UpdateQuery>)
    requires Known(ids, attrs) && forall k :: 0 <= k < |ids| ==> ids[k] in rows && |rows[ids[k]]| == |fields|
    ensures |u| == |ids| && forall k :: 0 <= k < |u| ==> |u[k].fields| == |u[k].values|
  {
    seq(|ids|, k requires 0 <= k < |ids| => UpdateFor(ids[k], attrs[ids[k]], DataOf(fields, rows)))
  }

  lemma RunInTurn(cluster: Cluster, a: seq<string>, mid: Cluster, b: seq<string>, after: Cluster)
    requires RunTexts(cluster, a) == Reply(mid, true) && RunTexts(mid, b) == Reply(after, true)
    ensures RunTexts(cluster, a + b) == Reply(after, true)
  {
    hide RunTexts;
    RunTextsAppend(cluster, a, b);
  }

  lemma UpdateTextsOneMore(index: string, updates: seq<UpdateQuery>)
    requires updates != [] && forall k :: 0 <= k < |updates| ==> |updates[k].fields| == |updates[k].values|
    ensures UpdateTexts(index, updates) == UpdateTexts(index, Front(updates)) +
              [UpdateText(index, Last(updates).id, Last(updates).fields, Last(updates).values)]
  {
    hide UpdateText;
  }

  lemma UpdatesForFront(fields: seq<string>, rows: Fetched, attrs: map<DocID, set<string>>, ids: seq<DocID>)
    requires ids != [] && Known(ids, attrs)
    requires forall k :: 0 <= k < |ids| ==> ids[k] in rows && |rows[ids[k]]| == |fields|
    ensures Front(UpdatesFor(fields, rows, attrs, ids)) == UpdatesFor(fields, rows, attrs, Front(ids))
    ensures Last(UpdatesFor(fields, rows, attrs, ids)) == UpdateFor(Last(ids), attrs[Last(ids)], DataOf(fields, rows))
  {
    hide UpdateFor;
  }

  lemma {:induction false} UpdatesRun(cluster: Cluster, index: string, fields: seq<string>, rows: Fetched,
                                      attrs: map<DocID, set<string>>, ids: seq<DocID>)
    requires FetchFits(fields, rows) && IsName(index) && index in cluster && Known(ids, attrs) && FieldsKnown(fields, attrs, ids)
    requires forall k :: 0 <= k < |ids| ==> ids[k] in rows && |rows[ids[k]]| == |fields|
    ensures RunTexts(cluster, UpdateTexts(index, UpdatesFor(fields, rows, attrs, ids)))
         == Reply(cluster[index := PatchDocs(cluster[index], fields, rows, attrs, ids)], true)
  {
    hide UpdateTexts, UpdatesFor, PatchDocs, FetchFits, RunTexts, FieldsKnown;
    if ids == [] {
      NoUpdateRuns(cluster, index, fields, rows, attrs);
    } else {
      KnownBefore(fields, attrs, ids);
      UpdatesRun(cluster, index, fields, rows, attrs, Front(ids));
      NextUpdateRuns(cluster, index, fields, rows, attrs, ids);
    }
  }

  lemma KnownBefore(fields: seq<string>, attrs: map<DocID, set<string>>, ids: seq<DocID>)
    requires ids != [] && Known(ids, attrs) && FieldsKnown(fields, attrs, ids)
    ensures Known(Front(ids), attrs) && FieldsKnown(fields, attrs, Front(ids))
    ensures exists f :: f in attrs[Last(ids)] && f in fields
  {
    assert Last(ids) in ids;
  }

  lemma NoUpdateRuns(cluster: Cluster, index: string, fields: seq<string>, rows: Fetched, attrs: map<DocID, set<string>>)
    requires index in cluster
    ensures RunTexts(cluster, UpdateTexts(index, UpdatesFor(fields, rows, attrs, [])))
         == Reply(cluster[index := PatchDocs(cluster[index], fields, rows, attrs, [])], true)
  {
    NothingRuns(cluster);
    assert cluster[index := cluster[index]] == cluster;
  }

  lemma NextUpdateRuns(cluster: Cluster, index: string, fields: seq<string>, rows: Fetched,
                       attrs: map<DocID, set<string>>, ids: seq<DocID>)
    requires FetchFits(fields, rows) && IsName(index) && index in cluster && Known(ids, attrs)
    requires ids != [] && forall k :: 0 <= k < |ids| ==> ids[k] in rows && |rows[ids[k]]| == |fields|
    requires exists f :: f in attrs[Last(ids)] && f in fields
    requires RunTexts(cluster, UpdateTexts(index, UpdatesFor(fields, rows, attrs, Front(ids))))
          == Reply(cluster[index := PatchDocs(cluster[index], fields, rows, attrs, Front(ids))], true)
    ensures RunTexts(cluster, UpdateTexts(index, UpdatesFor(fields, rows, attrs, ids)))
         == Reply(cluster[index := PatchDocs(cluster[index], fields, rows, attrs, ids)], true)
  {
    hide UpdateText, UpdateTexts, UpdateFor, UpdatesFor, FetchedPatch, Patch, PatchDocs, FetchFits, RunTexts;
    var prior, id := Front(ids), Last(ids);
    var patched := PatchDocs(cluster[index], fields, rows, attrs, prior);
    var next := PatchDocs(cluster[index], fields, rows, attrs, ids);
    var mid := cluster[index := patched];
    PatchOneMore(cluster[index], fields, rows, attrs, ids);
    SetTwice(cluster, index, patched, next);
    UpdateRuns(mid, index, fields, rows, attrs[id], id);
    UpdatesForFront(fields, rows, attrs, ids);
    UpdateTextsOneMore(index, UpdatesFor(fields, rows, attrs, ids));
    var last := UpdateFor(id, attrs[id], DataOf(fields, rows));
    UpdateKeepsID(id, attrs[id], DataOf(fields, rows));
    RunInTurn(cluster, UpdateTexts(index, UpdatesFor(fields, rows, attrs, prior)), mid,
              [UpdateText(index, id, last.fields, last.values)], cluster[index := next]);
  }

  lemma PatchOneMore(shard: Shard, fields: seq<string>, rows: Fetched, attrs: map<DocID, set<string>>, ids: seq<DocID>)
    requires ids != [] && Known(ids, attrs) && forall k :: 0 <= k < |ids| ==> ids[k] in rows && |rows[ids[k]]| == |fields|
    ensures PatchDocs(shard, fields, rows, attrs, ids)
         == Patch(PatchDocs(shard, fields, rows, attrs, Front(ids)), Last(ids),
                  FetchedPatch(fields, rows[Last(ids)], attrs[Last(ids)]))
  {
    hide Patch, FetchedPatch;
  }

  lemma UpdateKeepsID(id: DocID, changed: set<string>, data: IndexData)
    requires id in data.docs && |data.docs[id]| == |data.fields|
    ensures UpdateFor(id, changed, data).id == id
  {
  }

  /** The statements of one shard. */
  function ShardTexts(index: string, fields: seq<string>, rows: Fetched, attrs: map<DocID, set<string>>,
                      cfg: SourceConfig, ids: seq<DocID>, chunk: nat): seq<string>
    requires FetchFits(fields, rows) && cfg.parts > 0 && Known(ids, attrs)
  {
    TextsOf(index, fields, ListsFor(ids, attrs, DataOf(fields, rows), cfg, chunk))
  }

  /** One shard: running its statements leaves it as `ShardAfter` says and touches no other shard. */
  lemma ShardRuns(cluster: Cluster, index: string, fields: seq<string>, rows: Fetched, attrs: map<DocID, set<string>>,
                  cfg: SourceConfig, ids: seq<DocID>, chunk: nat)
    requires FetchFits(fields, rows) && IsName(index) && index in cluster && cfg.parts > 0
    requires Known(ids, attrs) && FieldsKnown(fields, attrs, ids)
    ensures RunTexts(cluster, ShardTexts(index, fields, rows, attrs, cfg, ids, chunk))
         == Reply(cluster[index := ShardAfter(cluster[index], fields, rows, attrs, cfg, ids, chunk)], true)
  {
    var data := DataOf(fields, rows);
    var replaced := Picked(ids, attrs, data, cfg, chunk, ToReplace);
    var deleted := Picked(ids, attrs, data, cfg, chunk, ToDelete);
    var updated := Picked(ids, attrs, data, cfg, chunk, ToUpdate);
    PickedAre(ids, attrs, data, cfg, chunk, ToReplace);
    PickedAre(ids, attrs, data, cfg, chunk, ToUpdate);
    assert forall k :: 0 <= k < |replaced| ==> replaced[k] in replaced;
    assert forall k :: 0 <= k < |updated| ==> updated[k] in updated;
    var lists := ListsFor(ids, attrs, data, cfg, chunk);
    assert lists.replace == RenderRows(RowsAt(rows, replaced)) && lists.delete == deleted;
    assert lists.update == UpdatesFor(fields, rows, attrs, updated);
    assert FieldsKnown(fields, attrs, updated);
    assert ShardTexts(index, fields, rows, attrs, cfg, ids, chunk) == TextsOf(index, fields, lists);
    hide Picked, PlacementOf, IndexChunk, RenderRows, RowsAt, UpdatesFor, ListsFor, FieldsKnown, RunTexts;
    ThreePartsRun(cluster, index, fields, rows, attrs, replaced, deleted, updated);
  }

  lemma ThreePartsRun(cluster: Cluster, index: string, fields: seq<string>, rows: Fetched, attrs: map<DocID, set<string>>,
                      replaced: seq<DocID>, deleted: seq<DocID>, updated: seq<DocID>)
    requires FetchFits(fields, rows) && IsName(index) && index in cluster
    requires forall k :: 0 <= k < |replaced| ==> replaced[k] in rows
    requires Known(updated, attrs) && FieldsKnown(fields, attrs, updated)
    requires forall k :: 0 <= k < |updated| ==> updated[k] in rows && |rows[updated[k]]| == |fields|
    ensures RunTexts(cluster, TextsOf(index, fields, QueryLists(RenderRows(RowsAt(rows, replaced)),
                                                               UpdatesFor(fields, rows, attrs, updated), deleted)))
         == Reply(cluster[index := PatchDocs(Drop(PutDocs(cluster[index], fields, rows, replaced), deleted),
                                             fields, rows, attrs, updated)], true)
  {
    var c := UpdateTexts(index, UpdatesFor(fields, rows, attrs, updated));
    hide RunTexts, PutDocs, Drop, PatchDocs, ReplaceText, DeleteText, UpdateTexts, UpdatesFor, RenderRows, FetchFits, FieldsKnown;
    var a := if replaced != [] then [ReplaceText(index, fields, RenderRows(RowsAt(rows, replaced)))] else [];
    var b := if deleted != [] then [DeleteText(index, deleted)] else [];
    var put := PutDocs(cluster[index], fields, rows, replaced);
    var dropped := Drop(put, deleted);
    var cluster1, cluster2 := cluster[index := put], cluster[index := dropped];
    ReplacePartRuns(cluster, index, fields, rows, replaced);
    DeletePartRuns(cluster1, index, deleted);
    SetTwice(cluster, index, put, dropped);
    UpdatesRun(cluster2, index, fields, rows, attrs, updated);
    var patched := PatchDocs(dropped, fields, rows, attrs, updated);
    SetTwice(cluster, index, dropped, patched);
    RunInTurn(cluster, a, cluster1, b, cluster2);
    RunInTurn(cluster, a + b, cluster2, c, cluster[index := patched]);
    RenderRowsLength(RowsAt(rows, replaced));
  }

  lemma RenderRowsLength(rows: seq<seq<Literal>>)
    ensures RenderRows(rows) == [] <==> rows == []
  {
  }

  lemma SetTwice(cluster: Cluster, index: string, a: Shard, b: Shard)
    ensures cluster[index := a][index := b] == cluster[index := b]
  {
  }

  lemma NothingRuns(cluster: Cluster)
    ensures RunTexts(cluster, []) == Reply(cluster, true)
  {
  }

  lemma ReplacePartRuns(cluster: Cluster, index: string, fields: seq<string>, rows: Fetched, ids: seq<DocID>)
    requires FetchFits(fields, rows) && IsName(index) && index in cluster
    requires forall k :: 0 <= k < |ids| ==> ids[k] in rows
    ensures RunTexts(cluster, if ids != [] then [ReplaceText(index, fields, RenderRows(RowsAt(rows, ids)))] else [])
         == Reply(cluster[index := PutDocs(cluster[index], fields, rows, ids)], true)
  {
    if ids == [] {
      NothingRuns(cluster);
      assert cluster[index := cluster[index]] == cluster;
    } else {
      hide RunTexts, PutDocs, ReplaceText, RenderRows, FetchFits;
      ReplaceRuns(cluster, index, fields, rows, ids);
    }
  }

  lemma DeletePartRuns(cluster: Cluster, index: string, ids: seq<DocID>)
    requires IsName(index) && index in cluster
    ensures RunTexts(cluster, if ids != [] then [DeleteText(index, ids)] else [])
         == Reply(cluster[index := Drop(cluster[index], ids)], true)
  {
    if ids == [] {
      NothingRuns(cluster);
      assert Drop(cluster[index], []) == cluster[index];
      assert cluster[index := cluster[index]] == cluster;
    } else {
      hide RunTexts, Drop, DeleteText;
      DeleteRuns(cluster, index, ids);
    }
  }

  /* ---------- all shards of an index ---------- */

  /** The statements of the first `n` shards, shard by shard. */
  function BatchTexts(index: string, fields: seq<string>, rows: Fetched, attrs: map<DocID, set<string>>,
                      cfg: SourceConfig, ids: seq<DocID>, n: nat): seq<string>
    requires FetchFits(fields, rows) && cfg.parts > 0 && Known(ids, attrs)
  {
    if n == 0 then []
    else BatchTexts(index, fields, rows, attrs, cfg, ids, n - 1) +
         ShardTexts(IndexChunkName(index, cfg.parts, n - 1), fields, rows, attrs, cfg, ids, n - 1)
  }

  /** The index exists: each of its shards is there under a proper name. */
  ghost predicate IndexExists(cluster: Cluster, index: string, parts: nat) {
    forall c :: 0 <= c < parts ==> IndexChunkName(index, parts, c) in cluster && IsName(IndexChunkName(index, parts, c))
  }

  ghost predicate ShardDone(before: Cluster, after: Cluster, index: string, fields: seq<string>, rows: Fetched,
                            attrs: map<DocID, set<string>>, cfg: SourceConfig, ids: seq<DocID>, c: nat)
    requires FetchFits(fields, rows) && cfg.parts > 0 && Known(ids, attrs)
  {
    var name := IndexChunkName(index, cfg.parts, c);
    name in before && name in after && after[name] == ShardAfter(before[name], fields, rows, attrs, cfg, ids, c)
  }

  ghost predicate IsNoShard(index: string, parts: nat, n: nat, name: string) {
    forall c :: 0 <= c < n ==> name != IndexChunkName(index, parts, c)
  }

  /** The first `n` shards are as `ShardAfter` says, everything else is as before. */
  ghost predicate ShardsDone(before: Cluster, after: Cluster, index: string, fields: seq<string>, rows: Fetched,
                             attrs: map<DocID, set<string>>, cfg: SourceConfig, ids: seq<DocID>, n: nat)
    requires FetchFits(fields, rows) && cfg.parts > 0 && Known(ids, attrs)
  {
    && after.Keys == before.Keys
    && (forall c: nat :: c < n ==> ShardDone(before, after, index, fields, rows, attrs, cfg, ids, c))
    && (forall name :: name in before && IsNoShard(index, cfg.parts, n, name) ==> after[name] == before[name])
  }

  lemma OneMoreShard(before: Cluster, mid: Cluster, index: string, fields: seq<string>, rows: Fetched,
                     attrs: map<DocID, set<string>>, cfg: SourceConfig, ids: seq<DocID>, n: nat)
    requires FetchFits(fields, rows) && 0 < n <= cfg.parts && Known(ids, attrs)
    requires ShardsDone(before, mid, index, fields, rows, attrs, cfg, ids, n - 1)
    requires IndexChunkName(index, cfg.parts, n - 1) in before
    ensures var name := IndexChunkName(index, cfg.parts, n - 1);
            && name in mid
            && ShardsDone(before, mid[name := ShardAfter(mid[name], fields, rows, attrs, cfg, ids, n - 1)],
                          index, fields, rows, attrs, cfg, ids, n)
  {
    hide ShardAfter, FetchFits, Known, IndexChunkName;
    var name := IndexChunkName(index, cfg.parts, n - 1);
    LastShardIsNew(index, cfg.parts, n);
    var shard := ShardAfter(mid[name], fields, rows, attrs, cfg, ids, n - 1);
    var after := mid[name := shard];
    assert mid[name] == before[name];
    forall c: nat | c < n ensures ShardDone(before, after, index, fields, rows, attrs, cfg, ids, c) {
      if c < n - 1 {
        assert ShardDone(before, mid, index, fields, rows, attrs, cfg, ids, c);
        assert IndexChunkName(index, cfg.parts, c) != name;
        ShardStaysDone(before, mid, index, fields, rows, attrs, cfg, ids, c, name, shard);
      }
    }
    hide ShardDone;
    forall other | other in before && IsNoShard(index, cfg.parts, n, other) ensures after[other] == before[other] {
      assert IsNoShard(index, cfg.parts, n - 1, other);
      assert other != name;
    }
  }

  lemma ShardStaysDone(before: Cluster, mid: Cluster, index: string, fields: seq<string>, rows: Fetched,
                       attrs: map<DocID, set<string>>, cfg: SourceConfig, ids: seq<DocID>, c: nat, other: string, shard: Shard)
    requires FetchFits(fields, rows) && cfg.parts > 0 && Known(ids, attrs)
    requires ShardDone(before, mid, index, fields, rows, attrs, cfg, ids, c) && IndexChunkName(index, cfg.parts, c) != other
    ensures ShardDone(before, mid[other := shard], index, fields, rows, attrs, cfg, ids, c)
  {
    hide ShardAfter, FetchFits, Known, IndexChunkName;
  }

  lemma LastShardIsNew(index: string, parts: nat, n: nat)
    requires 0 < n <= parts
    ensures IsNoShard(index, parts, n - 1, IndexChunkName(index, parts, n - 1))
  {
    hide IndexChunkName;
    forall c | 0 <= c < n - 1 ensures IndexChunkName(index, parts, c) != IndexChunkName(index, parts, n - 1) {
      if IndexChunkName(index, parts, c) == IndexChunkName(index, parts, n - 1) {
        ChunkNamesDiffer(index, parts, c, n - 1);
      }
    }
  }

  lemma NoShardDone(cluster: Cluster, index: string, fields: seq<string>, rows: Fetched,
                    attrs: map<DocID, set<string>>, cfg: SourceConfig, ids: seq<DocID>)
    requires FetchFits(fields, rows) && cfg.parts > 0 && Known(ids, attrs)
    ensures ShardsDone(cluster, cluster, index, fields, rows, attrs, cfg, ids, 0)
  {
  }

  lemma {:induction false} ShardsRun(cluster: Cluster, index: string, fields: seq<string>, rows: Fetched,
                                     attrs: map<DocID, set<string>>, cfg: SourceConfig, ids: seq<DocID>, n: nat)
    requires FetchFits(fields, rows) && cfg.parts > 0 && n <= cfg.parts && IndexExists(cluster, index, cfg.parts)
    requires Known(ids, attrs) && FieldsKnown(fields, attrs, ids)
    ensures RunTexts(cluster, BatchTexts(index, fields, rows, attrs, cfg, ids, n)).ok
    ensures ShardsDone(cluster, RunTexts(cluster, BatchTexts(index, fields, rows, attrs, cfg, ids, n)).cluster,
                       index, fields, rows, attrs, cfg, ids, n)
  {
    hide ShardTexts, ShardAfter, FetchFits, FieldsKnown, Known, ShardsDone, IsName, IndexChunkName;
    if n == 0 {
      NothingRuns(cluster);
      NoShardDone(cluster, index, fields, rows, attrs, cfg, ids);
    } else {
      hide RunTexts;
      var name := IndexChunkName(index, cfg.parts, n - 1);
      var texts := BatchTexts(index, fields, rows, attrs, cfg, ids, n - 1);
      assert name in cluster && IsName(name);
      ShardsRun(cluster, index, fields, rows, attrs, cfg, ids, n - 1);
      var mid := RunTexts(cluster, texts).cluster;
      OneMoreShard(cluster, mid, index, fields, rows, attrs, cfg, ids, n);
      ShardRuns(mid, name, fields, rows, attrs, cfg, ids, n - 1);
      RunInTurn(cluster, texts, mid, ShardTexts(name, fields, rows, attrs, cfg, ids, n - 1),
                mid[name := ShardAfter(mid[name], fields, rows, attrs, cfg, ids, n - 1)]);
    }
  }

  /** The shard of the index that holds a document. */
  function ShardOf(cluster: Cluster, index: string, cfg: SourceConfig, d: DocID): Shard
    requires cfg.parts > 0
  {
    var name := IndexChunkName(index, cfg.parts, IndexChunk(d, cfg.parts));
    if name in cluster then cluster[name] else map[]
  }

  /** Every listed document ends up as `DocAfter` says in the one shard that may hold it. */
  lemma ListedDocument(before: Cluster, after: Cluster, index: string, fields: seq<string>, rows: Fetched,
                       attrs: map<DocID, set<string>>, cfg: SourceConfig, ids: seq<DocID>, d: DocID)
    requires FetchFits(fields, rows) && cfg.parts > 0 && Known(ids, attrs) && Distinct(ids) && d in ids
    requires ShardsDone(before, after, index, fields, rows, attrs, cfg, ids, cfg.parts)
    ensures DocIn(ShardOf(after, index, cfg, d), d)
         == DocAfter(DocIn(ShardOf(before, index, cfg, d), d), fields, rows, attrs, cfg, d)
  {
    hide ShardAfter, DocAfter, IndexChunkName, FetchFits, DocIn;
    assert ShardDone(before, after, index, fields, rows, attrs, cfg, ids, IndexChunk(d, cfg.parts));
    ShardAfterAt(ShardOf(before, index, cfg, d), fields, rows, attrs, cfg, ids, IndexChunk(d, cfg.parts), d);
  }

  /** No other document of any shard, and no other index, changes. */
  lemma OtherDocument(before: Cluster, after: Cluster, index: string, fields: seq<string>, rows: Fetched,
                      attrs: map<DocID, set<string>>, cfg: SourceConfig, ids: seq<DocID>, name: string, d: DocID)
    requires FetchFits(fields, rows) && cfg.parts > 0 && Known(ids, attrs) && Distinct(ids) && name in before
    requires !(d in ids && name == IndexChunkName(index, cfg.parts, IndexChunk(d, cfg.parts)))
    requires ShardsDone(before, after, index, fields, rows, attrs, cfg, ids, cfg.parts)
    ensures name in after && DocIn(after[name], d) == DocIn(before[name], d)
  {
    hide ShardAfter, DocAfter, IndexChunkName, FetchFits, DocIn;
    if c: nat :| c < cfg.parts && name == IndexChunkName(index, cfg.parts, c) {
      assert ShardDone(before, after, index, fields, rows, attrs, cfg, ids, c);
      ShardAfterAt(before[name], fields, rows, attrs, cfg, ids, c, d);
    } else {
      assert IsNoShard(index, cfg.parts, cfg.parts, name);
    }
  }
}
