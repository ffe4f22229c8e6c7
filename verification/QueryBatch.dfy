/** Sorting changed documents into statements per shard (river/batch.go). */
module QueryBatch {
  import opened Types
  import opened Conventions

  datatype SourceConfig = SourceConfig(attrFields: set<string>, parts: nat)

  /** What the database returned: result columns, and one row of printed values per document found. */
  datatype IndexData = IndexData(fields: seq<string>, docs: map<DocID, seq<string>>)

  datatype UpdateQuery = UpdateQuery(id: DocID, fields: seq<string>, values: seq<string>)

  datatype QueryLists = QueryLists(replace: seq<seq<string>>, update: seq<UpdateQuery>, delete: seq<DocID>)

  /** The one of three things that happens to a changed document. */
  datatype Placement = ToDelete | ToUpdate | ToReplace

  ghost predicate DataFits(data: IndexData) {
    forall d :: d in data.docs ==> |data.docs[d]| == |data.fields|
  }

  /** A missing row means the document is gone; changes to attributes alone need no full replacement. */
  function PlacementOf(id: DocID, attrs: map<DocID, set<string>>, data: IndexData, cfg: SourceConfig): Placement
    requires id in attrs
  {
    if id !in data.docs then ToDelete
    else if attrs[id] <= cfg.attrFields then ToUpdate
    else ToReplace
  }

  /** Positions of the changed fields among the result columns, in column order. */
  function ChangedPositions(fields: seq<string>, changed: set<string>): (at: seq<nat>)
    ensures forall k :: 0 <= k < |at| ==> at[k] < |fields|
  {
    if fields == [] then []
    else ChangedPositions(Front(fields), changed) + if Last(fields) in changed then [|fields| - 1] else []
  }

  function Selected<T>(s: seq<T>, at: seq<nat>): (r: seq<T>)
    requires forall k :: 0 <= k < |at| ==> at[k] < |s|
    ensures |r| == |at|
  {
    seq(|at|, k requires 0 <= k < |at| => s[at[k]])
  }

  function UpdateFor(id: DocID, changed: set<string>, data: IndexData): UpdateQuery
    requires id in data.docs && |data.docs[id]| == |data.fields|
  {
    var at := ChangedPositions(data.fields, changed);
    UpdateQuery(id, Selected(data.fields, at), Selected(data.docs[id], at))
  }

  ghost predicate Known(ids: seq<DocID>, attrs: map<DocID, set<string>>) {
    forall k :: 0 <= k < |ids| ==> ids[k] in attrs
  }

  /** The documents of one shard with one placement, in list order. */
  function Picked(ids: seq<DocID>, attrs: map<DocID, set<string>>, data: IndexData, cfg: SourceConfig,
                  chunk: nat, placement: Placement): seq<DocID>
    requires cfg.parts > 0 && Known(ids, attrs)
  {
    if ids == [] then []
    else
      Picked(Front(ids), attrs, data, cfg, chunk, placement) +
      if IndexChunk(Last(ids), cfg.parts) == chunk && PlacementOf(Last(ids), attrs, data, cfg) == placement
      then [Last(ids)] else []
  }

  lemma {:induction false} PickedAre(ids: seq<DocID>, attrs: map<DocID, set<string>>, data: IndexData, cfg: SourceConfig,
                                     chunk: nat, placement: Placement)
    requires cfg.parts > 0 && Known(ids, attrs)
    ensures forall id :: id in Picked(ids, attrs, data, cfg, chunk, placement) <==>
              id in ids && IndexChunk(id, cfg.parts) == chunk && PlacementOf(id, attrs, data, cfg) == placement
  {
    if ids != [] {
      PickedAre(Front(ids), attrs, data, cfg, chunk, placement);
      assert ids == Front(ids) + [Last(ids)];
      hide PlacementOf, IndexChunk;
    }
  }

  /** The lists of one shard. */
  function ListsFor(ids: seq<DocID>, attrs: map<DocID, set<string>>, data: IndexData, cfg: SourceConfig, chunk: nat): QueryLists
    requires cfg.parts > 0 && Known(ids, attrs) && DataFits(data)
  {
    PickedAre(ids, attrs, data, cfg, chunk, ToReplace);
    PickedAre(ids, attrs, data, cfg, chunk, ToUpdate);
    var replaced := Picked(ids, attrs, data, cfg, chunk, ToReplace);
    var updated := Picked(ids, attrs, data, cfg, chunk, ToUpdate);
    QueryLists(seq(|replaced|, k requires 0 <= k < |replaced| => assert replaced[k] in replaced; data.docs[replaced[k]]),
               seq(|updated|, k requires 0 <= k < |updated| =>
                 assert updated[k] in updated; UpdateFor(updated[k], attrs[updated[k]], data)),
               Picked(ids, attrs, data, cfg, chunk, ToDelete))
  }

  lemma {:induction false} PickedDistinct(ids: seq<DocID>, attrs: map<DocID, set<string>>, data: IndexData, cfg: SourceConfig,
                                          chunk: nat, placement: Placement)
    requires cfg.parts > 0 && Known(ids, attrs) && Distinct(ids)
    ensures Distinct(Picked(ids, attrs, data, cfg, chunk, placement))
  {
    if ids != [] {
      var prior := Picked(Front(ids), attrs, data, cfg, chunk, placement);
      PickedDistinct(Front(ids), attrs, data, cfg, chunk, placement);
      PickedAre(Front(ids), attrs, data, cfg, chunk, placement);
      hide PlacementOf, IndexChunk;
      assert Last(ids) !in prior;
    }
  }

  /* ---------- the sharded partition ---------- */

  /** How often an id occurs on a list. */
  function Count(s: seq<DocID>, id: DocID): nat {
    if s == [] then 0 else Count(Front(s), id) + if Last(s) == id then 1 else 0
  }

  /** How often an id occurs on the three lists of a shard. */
  function CountIn(ids: seq<DocID>, attrs: map<DocID, set<string>>, data: IndexData, cfg: SourceConfig, chunk: nat,
                   id: DocID): nat
    requires cfg.parts > 0 && Known(ids, attrs)
  {
    Count(Picked(ids, attrs, data, cfg, chunk, ToReplace), id)
    + Count(Picked(ids, attrs, data, cfg, chunk, ToUpdate), id)
    + Count(Picked(ids, attrs, data, cfg, chunk, ToDelete), id)
  }

  /** How often an id occurs on the lists of the first `n` shards. */
  function CountUpTo(ids: seq<DocID>, attrs: map<DocID, set<string>>, data: IndexData, cfg: SourceConfig, n: nat, id: DocID): nat
    requires cfg.parts > 0 && Known(ids, attrs)
  {
    if n == 0 then 0 else CountUpTo(ids, attrs, data, cfg, n - 1, id) + CountIn(ids, attrs, data, cfg, n - 1, id)
  }

  lemma {:induction false} CountPicked(ids: seq<DocID>, attrs: map<DocID, set<string>>, data: IndexData, cfg: SourceConfig,
                                       chunk: nat, placement: Placement, id: DocID)
    requires cfg.parts > 0 && Known(ids, attrs)
    ensures Count(Picked(ids, attrs, data, cfg, chunk, placement), id)
         == if id in ids && IndexChunk(id, cfg.parts) == chunk && PlacementOf(id, attrs, data, cfg) == placement
            then Count(ids, id) else 0
  {
    if ids != [] {
      var prior, last := Picked(Front(ids), attrs, data, cfg, chunk, placement), Last(ids);
      CountPicked(Front(ids), attrs, data, cfg, chunk, placement, id);
      NotCounted(Front(ids), id);
      assert Front(prior + [last]) == prior && prior + [] == prior;
      assert Count(prior + [last], id) == Count(prior, id) + if last == id then 1 else 0;
      assert id in ids <==> id in Front(ids) || id == last;
      hide PlacementOf, IndexChunk;
    }
  }

  lemma {:induction false} NotCounted(ids: seq<DocID>, id: DocID)
    ensures Count(ids, id) == 0 <==> id !in ids
  {
    if ids != [] {
      NotCounted(Front(ids), id);
      assert id in ids <==> id in Front(ids) || id == Last(ids);
    }
  }

  lemma CountOfShard(ids: seq<DocID>, attrs: map<DocID, set<string>>, data: IndexData, cfg: SourceConfig, chunk: nat, id: DocID)
    requires cfg.parts > 0 && Known(ids, attrs)
    ensures CountIn(ids, attrs, data, cfg, chunk, id) ==
            if id in ids && IndexChunk(id, cfg.parts) == chunk then Count(ids, id) else 0
  {
    CountPicked(ids, attrs, data, cfg, chunk, ToReplace, id);
    CountPicked(ids, attrs, data, cfg, chunk, ToUpdate, id);
    CountPicked(ids, attrs, data, cfg, chunk, ToDelete, id);
    hide Picked, IndexChunk, PlacementOf, Count;
  }

  lemma {:induction false} CountOfShards(ids: seq<DocID>, attrs: map<DocID, set<string>>, data: IndexData, cfg: SourceConfig,
                                         n: nat, id: DocID)
    requires cfg.parts > 0 && Known(ids, attrs)
    ensures CountUpTo(ids, attrs, data, cfg, n, id) ==
            if id in ids && IndexChunk(id, cfg.parts) < n then Count(ids, id) else 0
  {
    if n > 0 {
      CountOfShards(ids, attrs, data, cfg, n - 1, id);
      CountOfShard(ids, attrs, data, cfg, n - 1, id);
      hide CountIn, IndexChunk, Count;
    }
  }

  /** Exact sharded partition: over all shards and all three lists every changed document occurs exactly as often
      as it was listed, which is once, and no other document occurs. */
  lemma PlacedExactlyOnce(ids: seq<DocID>, attrs: map<DocID, set<string>>, data: IndexData, cfg: SourceConfig, id: DocID)
    requires cfg.parts > 0 && Known(ids, attrs) && Distinct(ids)
    ensures CountUpTo(ids, attrs, data, cfg, cfg.parts, id) == if id in ids then 1 else 0
  {
    CountOfShards(ids, attrs, data, cfg, cfg.parts, id);
    DistinctCount(ids, id);
    hide CountUpTo, IndexChunk;
  }

  lemma {:induction false} DistinctCount(ids: seq<DocID>, id: DocID)
    requires Distinct(ids)
    ensures Count(ids, id) == if id in ids then 1 else 0
  {
    if ids != [] {
      DistinctCount(Front(ids), id);
      NotCounted(Front(ids), Last(ids));
      assert id in ids <==> id in Front(ids) || id == Last(ids);
      assert Last(ids) !in Front(ids);
    }
  }

  /* ---------- partial updates ---------- */

  lemma {:induction false} PositionsAre(fields: seq<string>, changed: set<string>)
    ensures forall k, l :: 0 <= k < l < |ChangedPositions(fields, changed)| ==>
              ChangedPositions(fields, changed)[k] < ChangedPositions(fields, changed)[l]
    ensures forall i :: 0 <= i < |fields| && fields[i] in changed ==> i in ChangedPositions(fields, changed)
    ensures forall k :: 0 <= k < |ChangedPositions(fields, changed)| ==>
              fields[ChangedPositions(fields, changed)[k]] in changed
  {
    if fields != [] {
      PositionsAre(Front(fields), changed);
      var prior := ChangedPositions(Front(fields), changed);
      assert ChangedPositions(fields, changed) == prior + if Last(fields) in changed then [|fields| - 1] else [];
      assert forall i :: 0 <= i < |fields| - 1 ==> fields[i] == Front(fields)[i];
      hide ChangedPositions;
    }
  }

  /** A partial update names exactly the changed result columns, all of what changed when every changed field
      is a result column, and nothing exactly when none is. */
  lemma PartialUpdateIsComplete(id: DocID, changed: set<string>, data: IndexData)
    requires id in data.docs && |data.docs[id]| == |data.fields|
    ensures forall f :: f in UpdateFor(id, changed, data).fields <==> f in data.fields && f in changed
    ensures UpdateFor(id, changed, data).fields == [] <==> forall f :: f in changed ==> f !in data.fields
  {
    PositionsAre(data.fields, changed);
    var u, at := UpdateFor(id, changed, data), ChangedPositions(data.fields, changed);
    hide ChangedPositions, UpdateFor;
    assert u.fields == Selected(data.fields, at) by { UpdateSelects(id, changed, data); }
    forall f ensures f in u.fields <==> f in data.fields && f in changed {
      if f in data.fields && f in changed {
        var i :| 0 <= i < |data.fields| && data.fields[i] == f;
        var k :| 0 <= k < |at| && at[k] == i;
        assert u.fields[k] == f;
      }
    }
    if u.fields != [] {
      assert u.fields[0] in u.fields;
    }
  }

  lemma UpdateSelects(id: DocID, changed: set<string>, data: IndexData)
    requires id in data.docs && |data.docs[id]| == |data.fields|
    ensures var at := ChangedPositions(data.fields, changed);
            UpdateFor(id, changed, data) == UpdateQuery(id, Selected(data.fields, at), Selected(data.docs[id], at))
  {
  }

  /** A partial update lists its columns in column order, each once, with the fetched value of its own column. */
  lemma PartialUpdateIsAligned(id: DocID, changed: set<string>, data: IndexData)
    requires id in data.docs && |data.docs[id]| == |data.fields| && Distinct(data.fields)
    ensures var u := UpdateFor(id, changed, data); var at := ChangedPositions(data.fields, changed);
            && |u.fields| == |u.values| == |at|
            && (forall k, l :: 0 <= k < l < |at| ==> at[k] < at[l])
            && (forall k :: 0 <= k < |at| ==> u.fields[k] == data.fields[at[k]] && u.values[k] == data.docs[id][at[k]])
            && Distinct(u.fields)
  {
    PositionsAre(data.fields, changed);
    UpdateSelects(id, changed, data);
    hide ChangedPositions, UpdateFor;
  }
}
