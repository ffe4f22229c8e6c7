/** Coalescing of row changes (river/changeset.go): what the fold of a change list means for the rows of
    one document, and why an attribute that is not reported as changed has not changed. */
module ChangeSet {
  import opened Types

  /** Number of entries of the array a row is copied to before it is put in a set. */
  const ROW_ARRAY_LENGTH := 128

  datatype RowDiff = RowDiff(isInsert: bool, isUpdate: bool, isDelete: bool, before: Row, after: Row)

  type RowDiffs = map<PrimaryKey, RowDiff>

  datatype TableDiffs = TableDiffs(columns: seq<string>, columnMap: ColumnMap, changes: RowDiffs)

  type DocDiffs = map<string, TableDiffs>

  /* ---------- the fold ---------- */

  function FirstDiff(c: TableRowChange): RowDiff {
    RowDiff(c.action.InsertAction?, c.action.UpdateAction?, c.action.DeleteAction?, c.oldRow, c.newRow)
  }

  function MergedDiff(diff: RowDiff, c: TableRowChange): RowDiff {
    var isInsert := diff.isInsert && !c.action.DeleteAction?;
    var isDelete := !diff.isInsert && c.action.DeleteAction?;
    RowDiff(isInsert, !isInsert && !isDelete, isDelete, diff.before, c.newRow)
  }

  function AddToTable(diffs: RowDiffs, c: TableRowChange): RowDiffs {
    diffs[c.pk := if c.pk in diffs then MergedDiff(diffs[c.pk], c) else FirstDiff(c)]
  }

  function TableFold(history: seq<TableRowChange>): RowDiffs {
    if history == [] then map[] else AddToTable(TableFold(Front(history)), Last(history))
  }

  function AddToDoc(diffs: DocDiffs, c: TableRowChange): DocDiffs {
    var table := if c.tableName in diffs then diffs[c.tableName] else TableDiffs(c.columns, c.columnMap, map[]);
    diffs[c.tableName := table.(changes := AddToTable(table.changes, c))]
  }

  function DocFold(history: seq<TableRowChange>): DocDiffs {
    if history == [] then map[] else AddToDoc(DocFold(Front(history)), Last(history))
  }

  function PruneRows(diffs: RowDiffs): RowDiffs {
    map pk | pk in diffs && diffs[pk].before != diffs[pk].after :: diffs[pk]
  }

  function PruneTables(diffs: DocDiffs): DocDiffs {
    map t | t in diffs && PruneRows(diffs[t].changes) != map[] ::
      diffs[t].(changes := PruneRows(diffs[t].changes))
  }

  /* ---------- changed columns and attributes ---------- */

  /** A row as a fixed-size array, which is what makes it usable as a set element. */
  function RowArray(row: Row): (padded: seq<Value>)
    requires |row| <= ROW_ARRAY_LENGTH
    ensures |padded| == ROW_ARRAY_LENGTH
    ensures padded[..|row|] == row
  {
    row + NullRow(ROW_ARRAY_LENGTH - |row|)
  }

  ghost predicate DiffsFit(diffs: RowDiffs, width: nat) {
    width <= ROW_ARRAY_LENGTH &&
    forall pk :: pk in diffs ==> |diffs[pk].before| == width && |diffs[pk].after| == width
  }

  ghost function BeforeSet(diffs: RowDiffs, width: nat): set<seq<Value>>
    requires DiffsFit(diffs, width)
  {
    set pk | pk in diffs && (diffs[pk].isDelete || diffs[pk].isUpdate) :: RowArray(diffs[pk].before)
  }

  ghost function AfterSet(diffs: RowDiffs, width: nat): set<seq<Value>>
    requires DiffsFit(diffs, width)
  {
    set pk | pk in diffs && (diffs[pk].isInsert || diffs[pk].isUpdate) :: RowArray(diffs[pk].after)
  }

  ghost function DifferingColumns(t: TableDiffs): set<string>
    requires DiffsFit(t.changes, |t.columns|)
  {
    set pk, i | pk in t.changes && 0 <= i < |t.columns| && t.changes[pk].before[i] != t.changes[pk].after[i]
      :: t.columns[i]
  }

  ghost function ChangedColumns(t: TableDiffs): set<string>
    requires DiffsFit(t.changes, |t.columns|)
  {
    var before := BeforeSet(t.changes, |t.columns|);
    var after := AfterSet(t.changes, |t.columns|);
    if after == before then {}
    else if |after| > 1 || |before| > 1 then set i | 0 <= i < |t.columns| :: t.columns[i]
    else DifferingColumns(t)
  }

  ghost predicate AllDiffsFit(diffs: DocDiffs) {
    forall t :: t in diffs ==> DiffsFit(diffs[t].changes, |diffs[t].columns|)
  }

  ghost function TableAttrs(t: TableDiffs): set<string>
    requires DiffsFit(t.changes, |t.columns|)
  {
    set col, attr | col in ChangedColumns(t) && col in t.columnMap && attr in t.columnMap[col] :: attr
  }

  ghost function AttrsOf(diffs: DocDiffs): set<string>
    requires AllDiffsFit(diffs)
  {
    set t, attr | t in diffs && attr in TableAttrs(diffs[t]) :: attr
  }

  /* ---------- relational meaning of a history ---------- */

  /** The rows of one document in one table, already filtered to the indexed columns. */
  type TableRows = map<PrimaryKey, Row>

  type DocRows = map<string, TableRows>

  /** The filtered columns of a table and the index fields each of them feeds. */
  datatype TableSchema = TableSchema(columns: seq<string>, columnMap: ColumnMap)

  type Schema = map<string, TableSchema>

  function RowAt(rows: TableRows, pk: PrimaryKey, width: nat): Row {
    if pk in rows then rows[pk] else NullRow(width)
  }

  function ApplyRowChange(rows: TableRows, c: TableRowChange): TableRows {
    if c.action.DeleteAction? then rows - {c.pk} else rows[c.pk := c.newRow]
  }

  function ReplayRows(rows: TableRows, history: seq<TableRowChange>): TableRows {
    if history == [] then rows else ApplyRowChange(ReplayRows(rows, Front(history)), Last(history))
  }

  /** The change is what row-based replication emits when `rows` is the state just before it. */
  ghost predicate ChangeFits(rows: TableRows, c: TableRowChange, width: nat) {
    && |c.oldRow| == width && |c.newRow| == width
    && match c.action
       case InsertAction => c.pk !in rows && c.oldRow == NullRow(width)
       case UpdateAction => c.pk in rows && c.oldRow == rows[c.pk]
       case DeleteAction => c.pk in rows && c.oldRow == rows[c.pk] && c.newRow == NullRow(width)
  }

  ghost predicate HistoryFits(rows: TableRows, history: seq<TableRowChange>, width: nat) {
    history == [] ||
    (HistoryFits(rows, Front(history), width) && ChangeFits(ReplayRows(rows, Front(history)), Last(history), width))
  }

  ghost predicate RowsFit(rows: TableRows, width: nat) {
    forall pk :: pk in rows ==> |rows[pk]| == width
  }

  function OfTable(history: seq<TableRowChange>, t: string): seq<TableRowChange> {
    if history == [] then []
    else OfTable(Front(history), t) + (if Last(history).tableName == t then [Last(history)] else [])
  }

  function RowsOf(rows: DocRows, t: string): TableRows {
    if t in rows then rows[t] else map[]
  }

  function ReplayDoc(rows: DocRows, history: seq<TableRowChange>): DocRows {
    if history == [] then rows
    else
      var prior := ReplayDoc(rows, Front(history));
      var c := Last(history);
      prior[c.tableName := ApplyRowChange(RowsOf(prior, c.tableName), c)]
  }

  ghost predicate SchemaFits(schema: Schema) {
    forall t :: t in schema ==> |schema[t].columns| <= ROW_ARRAY_LENGTH
  }

  ghost predicate CarriesSchema(schema: Schema, history: seq<TableRowChange>) {
    forall k :: 0 <= k < |history| ==>
      && history[k].tableName in schema
      && history[k].columns == schema[history[k].tableName].columns
      && history[k].columnMap == schema[history[k].tableName].columnMap
  }

  /** Every change carries the columns of its table, and each table's part of the history fits its rows. */
  ghost predicate DocHistoryFits(schema: Schema, rows: DocRows, history: seq<TableRowChange>) {
    && SchemaFits(schema) && CarriesSchema(schema, history)
    && (forall t :: t in schema ==>
          && RowsFit(RowsOf(rows, t), |schema[t].columns|)
          && HistoryFits(RowsOf(rows, t), OfTable(history, t), |schema[t].columns|))
  }

  /** Positions of the columns of a table that feed an index field. */
  function Feeding(t: TableSchema, attr: string): set<nat> {
    set i: nat | i < |t.columns| && t.columns[i] in t.columnMap && attr in t.columnMap[t.columns[i]]
  }

  function Project(row: Row, at: set<nat>): map<nat, Value> {
    map i | i in at && i < |row| :: row[i]
  }

  ghost predicate AllNull(p: map<nat, Value>) {
    forall i :: i in p ==> p[i] == Null
  }

  /** The distinct projections, other than all-NULL ones, of a set of rows: all that a field may depend on. */
  ghost function Projections(rows: TableRows, at: set<nat>): set<map<nat, Value>> {
    set pk | pk in rows && !AllNull(Project(rows[pk], at)) :: Project(rows[pk], at)
  }

  /** The field sees the same set of projections in every table. */
  ghost predicate SameField(schema: Schema, rows0: DocRows, rows1: DocRows, attr: string) {
    forall t :: t in schema ==>
      Projections(RowsOf(rows0, t), Feeding(schema[t], attr)) == Projections(RowsOf(rows1, t), Feeding(schema[t], attr))
  }

  /* ---------- the telescoping fold ---------- */

  ghost predicate ExactlyOne(d: RowDiff) {
    && (d.isInsert || d.isUpdate || d.isDelete)
    && !(d.isInsert && d.isUpdate) && !(d.isInsert && d.isDelete) && !(d.isUpdate && d.isDelete)
  }

  /** What the diff kept for a key says about the rows at both ends of the history. */
  ghost predicate DiffSpans(d: RowDiff, pk: PrimaryKey, rows0: TableRows, rows1: TableRows, width: nat) {
    && d.before == RowAt(rows0, pk, width)
    && d.after == RowAt(rows1, pk, width)
    && ExactlyOne(d)
    && (d.isInsert ==> pk !in rows0 && pk in rows1)
    && (d.isDelete ==> pk !in rows1)
    && (d.isUpdate && pk !in rows1 ==> pk !in rows0)
  }

  /** A key the fold has no diff for is a key whose row has not changed. */
  ghost predicate KeySpans(diffs: RowDiffs, pk: PrimaryKey, rows0: TableRows, rows1: TableRows, width: nat) {
    if pk in diffs then DiffSpans(diffs[pk], pk, rows0, rows1, width)
    else (pk in rows0 <==> pk in rows1) && RowAt(rows0, pk, width) == RowAt(rows1, pk, width)
  }

  lemma KeySpansStep(diffs: RowDiffs, pk: PrimaryKey, rows0: TableRows, rows1: TableRows, c: TableRowChange, width: nat)
    requires KeySpans(diffs, pk, rows0, rows1, width)
    requires ChangeFits(rows1, c, width)
    ensures KeySpans(AddToTable(diffs, c), pk, rows0, ApplyRowChange(rows1, c), width)
  {
  }

  /** The diff kept for a key telescopes: it runs from the row the key had before the whole history to the
      row it has afterwards, and exactly one of its three flags is set. */
  lemma {:induction false} FoldTelescopes(rows: TableRows, history: seq<TableRowChange>, pk: PrimaryKey, width: nat)
    requires HistoryFits(rows, history, width)
    ensures KeySpans(TableFold(history), pk, rows, ReplayRows(rows, history), width)
  {
    if history != [] {
      FoldTelescopes(rows, Front(history), pk, width);
      KeySpansStep(TableFold(Front(history)), pk, rows, ReplayRows(rows, Front(history)), Last(history), width);
    }
  }

  lemma {:induction false} ReplayKeepsWidth(rows: TableRows, history: seq<TableRowChange>, width: nat)
    requires RowsFit(rows, width) && HistoryFits(rows, history, width)
    ensures RowsFit(ReplayRows(rows, history), width)
  {
    if history != [] {
      ReplayKeepsWidth(rows, Front(history), width);
    }
  }

  /** The diffs are exactly those of the keys the history touches. */
  lemma {:induction false} FoldKeys(history: seq<TableRowChange>, pk: PrimaryKey)
    ensures pk in TableFold(history) <==> exists k :: 0 <= k < |history| && history[k].pk == pk
  {
    if history != [] {
      FoldKeys(Front(history), pk);
      assert history[|history| - 1].pk == Last(history).pk;
      assert forall k :: 0 <= k < |history| - 1 ==> history[k] == Front(history)[k];
    }
  }

  /* ---------- what is compared after pruning ---------- */

  lemma SameArraySameRow(a: Row, b: Row)
    requires |a| == |b| <= ROW_ARRAY_LENGTH && RowArray(a) == RowArray(b)
    ensures a == b
  {
    assert a == RowArray(a)[..|a|] == RowArray(b)[..|b|] == b;
  }

  lemma FoldFits(rows: TableRows, history: seq<TableRowChange>, width: nat)
    requires width <= ROW_ARRAY_LENGTH && RowsFit(rows, width) && HistoryFits(rows, history, width)
    ensures DiffsFit(TableFold(history), width)
    ensures DiffsFit(PruneRows(TableFold(history)), width)
  {
    ReplayKeepsWidth(rows, history, width);
    forall pk | pk in TableFold(history)
      ensures |TableFold(history)[pk].before| == width && |TableFold(history)[pk].after| == width
    {
      FoldTelescopes(rows, history, pk, width);
    }
  }

  /** The compared sets: the after-set is exactly the final rows of the keys that survive pruning, and the
      before-set is their initial rows plus, at most, the all-NULL row. */
  lemma ComparedSets(rows: TableRows, history: seq<TableRowChange>, width: nat)
    requires width <= ROW_ARRAY_LENGTH && RowsFit(rows, width) && HistoryFits(rows, history, width)
    ensures DiffsFit(PruneRows(TableFold(history)), width)
    ensures RowsFit(ReplayRows(rows, history), width)
    ensures var kept := PruneRows(TableFold(history)); var final := ReplayRows(rows, history);
            && AfterSet(kept, width) == (set pk | pk in kept && pk in final :: RowArray(final[pk]))
            && (set pk | pk in kept && pk in rows :: RowArray(rows[pk])) <= BeforeSet(kept, width)
            && BeforeSet(kept, width)
               <= (set pk | pk in kept && pk in rows :: RowArray(rows[pk])) + {RowArray(NullRow(width))}
  {
    FoldFits(rows, history, width);
    ReplayKeepsWidth(rows, history, width);
    var kept := PruneRows(TableFold(history));
    var final := ReplayRows(rows, history);
    forall pk | pk in kept
      ensures DiffSpans(kept[pk], pk, rows, final, width)
      ensures kept[pk].isInsert || kept[pk].isUpdate <==> pk in final
      ensures pk in rows ==> kept[pk].isDelete || kept[pk].isUpdate
    {
      FoldTelescopes(rows, history, pk, width);
    }
    AfterSetIs(kept, final, width);
    BeforeSetIs(kept, rows, width);
  }

  lemma AfterSetIs(kept: RowDiffs, final: TableRows, width: nat)
    requires DiffsFit(kept, width) && RowsFit(final, width)
    requires forall pk :: pk in kept ==> kept[pk].after == RowAt(final, pk, width)
    requires forall pk :: pk in kept ==> (kept[pk].isInsert || kept[pk].isUpdate <==> pk in final)
    ensures AfterSet(kept, width) == set pk | pk in kept && pk in final :: RowArray(final[pk])
  {
  }

  lemma BeforeSetIs(kept: RowDiffs, rows: TableRows, width: nat)
    requires DiffsFit(kept, width) && RowsFit(rows, width)
    requires forall pk :: pk in kept ==> kept[pk].before == RowAt(rows, pk, width)
    requires forall pk :: pk in kept && pk in rows ==> kept[pk].isDelete || kept[pk].isUpdate
    ensures var initial := set pk | pk in kept && pk in rows :: RowArray(rows[pk]);
            initial <= BeforeSet(kept, width) <= initial + {RowArray(NullRow(width))}
  {
  }

  /* ---------- soundness of change detection ---------- */

  lemma NullRowProjects(width: nat, at: set<nat>)
    ensures AllNull(Project(NullRow(width), at))
  {
  }

  /** A column outside the reported ones holds the same value before and after, unless the sets agree. */
  lemma UnreportedColumnsAgree(t: TableDiffs, schema: TableSchema, attr: string, pk: PrimaryKey)
    requires schema == TableSchema(t.columns, t.columnMap)
    requires DiffsFit(t.changes, |t.columns|) && attr !in TableAttrs(t)
    requires BeforeSet(t.changes, |t.columns|) != AfterSet(t.changes, |t.columns|)
    requires pk in t.changes
    ensures Project(t.changes[pk].before, Feeding(schema, attr)) == Project(t.changes[pk].after, Feeding(schema, attr))
  {
    var d := t.changes[pk];
    forall i | i in Feeding(schema, attr) ensures d.before[i] == d.after[i] {
      assert t.columns[i] !in ChangedColumns(t);
    }
  }

  /** Every projection of a row at one end of the history is a projection of a row at the other end. */
  lemma ProjectionHasTwin(schema: TableSchema, rows: TableRows, history: seq<TableRowChange>, attr: string,
                          pk: PrimaryKey, forward: bool) returns (twin: PrimaryKey)
    requires var width := |schema.columns|;
             width <= ROW_ARRAY_LENGTH && RowsFit(rows, width) && HistoryFits(rows, history, width)
    requires DiffsFit(PruneRows(TableFold(history)), |schema.columns|)
    requires attr !in TableAttrs(TableDiffs(schema.columns, schema.columnMap, PruneRows(TableFold(history))))
    requires pk in if forward then rows else ReplayRows(rows, history)
    requires var row := (if forward then rows else ReplayRows(rows, history))[pk];
             !AllNull(Project(row, Feeding(schema, attr)))
    ensures var from := if forward then rows else ReplayRows(rows, history);
            var to := if forward then ReplayRows(rows, history) else rows;
            twin in to && Project(to[twin], Feeding(schema, attr)) == Project(from[pk], Feeding(schema, attr))
  {
    var width, at := |schema.columns|, Feeding(schema, attr);
    var final := ReplayRows(rows, history);
    var t := TableDiffs(schema.columns, schema.columnMap, PruneRows(TableFold(history)));
    FoldTelescopes(rows, history, pk, width);
    ReplayKeepsWidth(rows, history, width);
    NullRowProjects(width, at);
    twin := pk;
    if pk in t.changes {
      if BeforeSet(t.changes, width) == AfterSet(t.changes, width) {
        twin := TwinInComparedSets(rows, history, width, pk, forward);
      } else {
        UnreportedColumnsAgree(t, schema, attr, pk);
      }
    }
  }

  /** When the compared sets agree, a surviving key's row occurs at the other end too, or is all NULL. */
  lemma TwinInComparedSets(rows: TableRows, history: seq<TableRowChange>, width: nat, pk: PrimaryKey, forward: bool)
    returns (twin: PrimaryKey)
    requires width <= ROW_ARRAY_LENGTH && RowsFit(rows, width) && HistoryFits(rows, history, width)
    requires DiffsFit(PruneRows(TableFold(history)), width)
    requires pk in PruneRows(TableFold(history))
    requires BeforeSet(PruneRows(TableFold(history)), width) == AfterSet(PruneRows(TableFold(history)), width)
    requires pk in if forward then rows else ReplayRows(rows, history)
    ensures var from := if forward then rows else ReplayRows(rows, history);
            var to := if forward then ReplayRows(rows, history) else rows;
            from[pk] != NullRow(width) ==> twin in to && to[twin] == from[pk]
  {
    var kept := PruneRows(TableFold(history));
    var final := ReplayRows(rows, history);
    ComparedSets(rows, history, width);
    var row := if forward then rows[pk] else final[pk];
    assert RowArray(row) in BeforeSet(kept, width);
    assert RowArray(row) in AfterSet(kept, width);
    twin := pk;
    if forward {
      twin :| twin in kept && twin in final && RowArray(final[twin]) == RowArray(row);
      SameArraySameRow(final[twin], row);
    } else if row != NullRow(width) {
      if RowArray(row) == RowArray(NullRow(width)) {
        SameArraySameRow(row, NullRow(width));
      }
      twin :| twin in kept && twin in rows && RowArray(rows[twin]) == RowArray(row);
      SameArraySameRow(rows[twin], row);
    }
  }

  /** One table: a field none of whose feeding columns is reported sees the same projections. */
  lemma TableDetectionIsSound(schema: TableSchema, rows: TableRows, history: seq<TableRowChange>, attr: string)
    requires var width := |schema.columns|;
             width <= ROW_ARRAY_LENGTH && RowsFit(rows, width) && HistoryFits(rows, history, width)
    requires DiffsFit(PruneRows(TableFold(history)), |schema.columns|)
    requires attr !in TableAttrs(TableDiffs(schema.columns, schema.columnMap, PruneRows(TableFold(history))))
    ensures Projections(rows, Feeding(schema, attr)) == Projections(ReplayRows(rows, history), Feeding(schema, attr))
  {
    var at := Feeding(schema, attr);
    var final := ReplayRows(rows, history);
    forall p | p in Projections(rows, at) ensures p in Projections(final, at) {
      var pk :| pk in rows && !AllNull(Project(rows[pk], at)) && Project(rows[pk], at) == p;
      var twin := ProjectionHasTwin(schema, rows, history, attr, pk, true);
    }
    forall p | p in Projections(final, at) ensures p in Projections(rows, at) {
      var pk :| pk in final && !AllNull(Project(final[pk], at)) && Project(final[pk], at) == p;
      var twin := ProjectionHasTwin(schema, rows, history, attr, pk, false);
    }
  }

  /* ---------- all tables of a document ---------- */

  /** The attributes reported for a change list. */
  ghost function ChangedAttrs(history: seq<TableRowChange>): set<string>
    requires AllDiffsFit(PruneTables(DocFold(history)))
  {
    AttrsOf(PruneTables(DocFold(history)))
  }

  /** The nested fold is one independent fold per table. */
  lemma {:induction false} DocFoldByTable(schema: Schema, history: seq<TableRowChange>, t: string)
    requires CarriesSchema(schema, history)
    ensures t in DocFold(history) <==> OfTable(history, t) != []
    ensures t in DocFold(history) ==>
              t in schema &&
              DocFold(history)[t] == TableDiffs(schema[t].columns, schema[t].columnMap, TableFold(OfTable(history, t)))
  {
    if history != [] {
      var prior, c := Front(history), Last(history);
      DocFoldByTable(schema, prior, t);
      assert c == history[|history| - 1];
      if c.tableName == t {
        assert Front(OfTable(history, t)) == OfTable(prior, t);
      } else {
        assert OfTable(history, t) == OfTable(prior, t);
      }
    }
  }

  lemma {:induction false} ReplayDocByTable(rows: DocRows, history: seq<TableRowChange>, t: string)
    ensures RowsOf(ReplayDoc(rows, history), t) == ReplayRows(RowsOf(rows, t), OfTable(history, t))
  {
    if history != [] {
      var prior, c := Front(history), Last(history);
      ReplayDocByTable(rows, prior, t);
      if c.tableName == t {
        assert Front(OfTable(history, t)) == OfTable(prior, t);
      } else {
        assert OfTable(history, t) == OfTable(prior, t);
      }
    }
  }

  lemma DocFoldFits(schema: Schema, rows: DocRows, history: seq<TableRowChange>)
    requires DocHistoryFits(schema, rows, history)
    ensures AllDiffsFit(DocFold(history))
    ensures AllDiffsFit(PruneTables(DocFold(history)))
  {
    forall t | t in DocFold(history) ensures DiffsFit(DocFold(history)[t].changes, |DocFold(history)[t].columns|) {
      DocFoldByTable(schema, history, t);
      FoldFits(RowsOf(rows, t), OfTable(history, t), |schema[t].columns|);
    }
  }

  /** Soundness of change detection. Whatever rows the document starts from and whatever well-formed history
      of inserts, updates and deletes follows: a field that is not reported as changed sees, in every table,
      the same distinct not-all-NULL projections onto its feeding columns after the history as before it. */
  lemma ChangeDetectionIsSound(schema: Schema, rows: DocRows, history: seq<TableRowChange>, attr: string)
    requires DocHistoryFits(schema, rows, history)
    ensures AllDiffsFit(PruneTables(DocFold(history)))
    ensures attr !in ChangedAttrs(history) ==> SameField(schema, rows, ReplayDoc(rows, history), attr)
  {
    DocFoldFits(schema, rows, history);
    if attr !in ChangedAttrs(history) {
      UnreportedIsSame(schema, rows, history, attr);
    }
  }

  lemma UnreportedIsSame(schema: Schema, rows: DocRows, history: seq<TableRowChange>, attr: string)
    requires DocHistoryFits(schema, rows, history)
    requires AllDiffsFit(PruneTables(DocFold(history)))
    requires attr !in ChangedAttrs(history)
    ensures SameField(schema, rows, ReplayDoc(rows, history), attr)
  {
    hide Projections, Feeding, DocHistoryFits, AllDiffsFit, PruneTables, DocFold, ChangedAttrs, ReplayDoc;
    forall t | t in schema
      ensures Projections(RowsOf(rows, t), Feeding(schema[t], attr))
           == Projections(RowsOf(ReplayDoc(rows, history), t), Feeding(schema[t], attr))
    {
      UnreportedInTable(schema, rows, history, attr, t);
    }
  }

  lemma UnreportedInTable(schema: Schema, rows: DocRows, history: seq<TableRowChange>, attr: string, t: string)
    requires DocHistoryFits(schema, rows, history) && t in schema
    requires AllDiffsFit(PruneTables(DocFold(history))) && attr !in ChangedAttrs(history)
    ensures Projections(RowsOf(rows, t), Feeding(schema[t], attr))
         == Projections(RowsOf(ReplayDoc(rows, history), t), Feeding(schema[t], attr))
  {
    var part := OfTable(history, t);
    hide Projections, Feeding, OfTable, ReplayDoc, ReplayRows, TableFold, PruneRows, DocFold, PruneTables, TableAttrs,
      ChangedAttrs, AllDiffsFit, HistoryFits;
    FoldFits(RowsOf(rows, t), part, |schema[t].columns|);
    NotInTableAttrs(schema, history, attr, t);
    ReplayDocByTable(rows, history, t);
    TableDetectionIsSound(schema[t], RowsOf(rows, t), part, attr);
  }

  lemma NotInTableAttrs(schema: Schema, history: seq<TableRowChange>, attr: string, t: string)
    requires CarriesSchema(schema, history) && t in schema
    requires DiffsFit(PruneRows(TableFold(OfTable(history, t))), |schema[t].columns|)
    requires AllDiffsFit(PruneTables(DocFold(history))) && attr !in ChangedAttrs(history)
    ensures attr !in TableAttrs(TableDiffs(schema[t].columns, schema[t].columnMap, PruneRows(TableFold(OfTable(history, t)))))
  {
    DocFoldByTable(schema, history, t);
    var kept := TableDiffs(schema[t].columns, schema[t].columnMap, PruneRows(TableFold(OfTable(history, t))));
    if kept.changes == map[] {
      NoDiffNoAttrs(kept);
    } else {
      NoFoldNoDiffs(history, t);
      hide OfTable, TableFold, PruneRows, DocFold, TableAttrs;
      assert kept == PruneTables(DocFold(history))[t];
    }
  }

  lemma NoFoldNoDiffs(history: seq<TableRowChange>, t: string)
    ensures OfTable(history, t) == [] ==> PruneRows(TableFold(OfTable(history, t))) == map[]
  {
  }

  lemma NoDiffNoAttrs(t: TableDiffs)
    requires t.changes == map[] && DiffsFit(t.changes, |t.columns|)
    ensures TableAttrs(t) == {}
  {
    assert BeforeSet(t.changes, |t.columns|) == AfterSet(t.changes, |t.columns|);
  }

  /* ---------- precision: histories that must be recognised as changing nothing ---------- */

  ghost predicate NetNoOp(schema: Schema, rows0: DocRows, rows1: DocRows) {
    forall t, pk :: t in schema ==>
      RowAt(RowsOf(rows0, t), pk, |schema[t].columns|) == RowAt(RowsOf(rows1, t), pk, |schema[t].columns|)
  }

  /** Nothing survives pruning exactly when every key ends with the filtered row it started with, an absent
      row counting as all NULL; the document is then classed as unchanged. */
  lemma NetNoOpIsDetected(schema: Schema, rows: DocRows, history: seq<TableRowChange>)
    requires DocHistoryFits(schema, rows, history)
    ensures PruneTables(DocFold(history)) == map[] <==> NetNoOp(schema, rows, ReplayDoc(rows, history))
    ensures NetNoOp(schema, rows, ReplayDoc(rows, history)) ==> ChangedAttrs(history) == {}
  {
    var final := ReplayDoc(rows, history);
    DocFoldFits(schema, rows, history);
    forall t, pk | t in schema
      ensures pk in PruneRows(TableFold(OfTable(history, t)))
         <==> RowAt(RowsOf(rows, t), pk, |schema[t].columns|) != RowAt(RowsOf(final, t), pk, |schema[t].columns|)
    {
      ReplayDocByTable(rows, history, t);
      FoldTelescopes(RowsOf(rows, t), OfTable(history, t), pk, |schema[t].columns|);
    }
    forall t ensures t in PruneTables(DocFold(history)) <==>
                     t in schema && PruneRows(TableFold(OfTable(history, t))) != map[]
    {
      DocFoldByTable(schema, history, t);
      if t !in DocFold(history) {
        assert TableFold(OfTable(history, t)) == map[];
      }
    }
    forall t | t in schema ensures PruneRows(TableFold(OfTable(history, t))) == map[] <==>
                                   forall pk :: pk !in PruneRows(TableFold(OfTable(history, t)))
    {
      SomeKey(PruneRows(TableFold(OfTable(history, t))));
    }
    SomeKey(PruneTables(DocFold(history)));
  }

  lemma SomeKey<K, V>(m: map<K, V>)
    ensures m == map[] || exists k :: k in m
  {
    if m != map[] {
      assert m.Keys != {};
      var k :| k in m.Keys;
    }
  }

  ghost function DeletedRows(history: seq<TableRowChange>): set<Row> {
    set k | 0 <= k < |history| && history[k].action.DeleteAction? :: history[k].oldRow
  }

  ghost function InsertedRows(history: seq<TableRowChange>): set<Row> {
    set k | 0 <= k < |history| && history[k].action.InsertAction? :: history[k].newRow
  }

  /** Rows deleted and inserted again under other keys: no key is touched twice. */
  ghost predicate RowsRewritten(history: seq<TableRowChange>, width: nat) {
    && (forall j, k :: 0 <= j < k < |history| ==> history[j].pk != history[k].pk)
    && (forall k :: 0 <= k < |history| ==>
          && |history[k].oldRow| == |history[k].newRow| == width
          && match history[k].action
             case InsertAction => history[k].oldRow == NullRow(width)
             case DeleteAction => history[k].newRow == NullRow(width)
             case UpdateAction => false)
    && DeletedRows(history) == InsertedRows(history)
  }

  lemma {:induction false} UntouchedTwiceKeepsFirst(history: seq<TableRowChange>, pk: PrimaryKey)
    requires forall j, k :: 0 <= j < k < |history| ==> history[j].pk != history[k].pk
    ensures forall k :: 0 <= k < |history| ==>
              history[k].pk in TableFold(history) && TableFold(history)[history[k].pk] == FirstDiff(history[k])
    ensures pk in TableFold(history) ==> exists k :: 0 <= k < |history| && history[k].pk == pk
  {
    FoldKeys(history, pk);
    if history != [] {
      var prior, c := Front(history), Last(history);
      FoldKeys(prior, c.pk);
      UntouchedTwiceKeepsFirst(prior, pk);
      forall k | 0 <= k < |history|
        ensures history[k].pk in TableFold(history) && TableFold(history)[history[k].pk] == FirstDiff(history[k])
      {
        if k < |prior| {
          assert history[k] == prior[k];
        }
      }
    }
  }

  lemma RewriteFits(history: seq<TableRowChange>, width: nat)
    requires width <= ROW_ARRAY_LENGTH && RowsRewritten(history, width)
    ensures DiffsFit(PruneRows(TableFold(history)), width)
  {
    forall pk | pk in TableFold(history)
      ensures |TableFold(history)[pk].before| == width && |TableFold(history)[pk].after| == width
    {
      UntouchedTwiceKeepsFirst(history, pk);
    }
  }

  lemma RewriteBeforeIsAfter(history: seq<TableRowChange>, width: nat, a: seq<Value>)
    requires width <= ROW_ARRAY_LENGTH && RowsRewritten(history, width)
    requires DiffsFit(PruneRows(TableFold(history)), width)
    requires a in BeforeSet(PruneRows(TableFold(history)), width)
    ensures a in AfterSet(PruneRows(TableFold(history)), width)
  {
    var kept := PruneRows(TableFold(history));
    var pk :| pk in kept && (kept[pk].isDelete || kept[pk].isUpdate) && RowArray(kept[pk].before) == a;
    UntouchedTwiceKeepsFirst(history, pk);
    assert kept[pk].before in DeletedRows(history);
    assert kept[pk].before in InsertedRows(history);
    var k :| 0 <= k < |history| && history[k].action.InsertAction? && history[k].newRow == kept[pk].before;
    assert kept[history[k].pk] == FirstDiff(history[k]);
  }

  lemma RewriteAfterIsBefore(history: seq<TableRowChange>, width: nat, a: seq<Value>)
    requires width <= ROW_ARRAY_LENGTH && RowsRewritten(history, width)
    requires DiffsFit(PruneRows(TableFold(history)), width)
    requires a in AfterSet(PruneRows(TableFold(history)), width)
    ensures a in BeforeSet(PruneRows(TableFold(history)), width)
  {
    var kept := PruneRows(TableFold(history));
    var pk :| pk in kept && (kept[pk].isInsert || kept[pk].isUpdate) && RowArray(kept[pk].after) == a;
    UntouchedTwiceKeepsFirst(history, pk);
    assert kept[pk].after in InsertedRows(history);
    assert kept[pk].after in DeletedRows(history);
    var k :| 0 <= k < |history| && history[k].action.DeleteAction? && history[k].oldRow == kept[pk].after;
    assert kept[history[k].pk] == FirstDiff(history[k]);
  }

  /** The surviving diffs of a rewrite compare equal. */
  lemma RewriteComparesEqual(history: seq<TableRowChange>, width: nat)
    requires width <= ROW_ARRAY_LENGTH && RowsRewritten(history, width)
    ensures DiffsFit(PruneRows(TableFold(history)), width)
    ensures BeforeSet(PruneRows(TableFold(history)), width) == AfterSet(PruneRows(TableFold(history)), width)
  {
    var kept := PruneRows(TableFold(history));
    RewriteFits(history, width);
    forall a | a in BeforeSet(kept, width) ensures a in AfterSet(kept, width) {
      RewriteBeforeIsAfter(history, width, a);
    }
    forall a | a in AfterSet(kept, width) ensures a in BeforeSet(kept, width) {
      RewriteAfterIsBefore(history, width, a);
    }
  }

  /** Rows deleted and re-inserted under fresh surrogate keys, in any interleaving, change nothing as long as
      the distinct deleted and inserted filtered rows agree as sets in every table. */
  lemma RewriteIsDetected(schema: Schema, history: seq<TableRowChange>)
    requires SchemaFits(schema) && CarriesSchema(schema, history)
    requires forall t :: t in schema ==> RowsRewritten(OfTable(history, t), |schema[t].columns|)
    ensures AllDiffsFit(PruneTables(DocFold(history)))
    ensures ChangedAttrs(history) == {}
  {
    forall t | t in PruneTables(DocFold(history))
      ensures DiffsFit(PruneTables(DocFold(history))[t].changes, |PruneTables(DocFold(history))[t].columns|)
      ensures TableAttrs(PruneTables(DocFold(history))[t]) == {}
    {
      DocFoldByTable(schema, history, t);
      RewriteComparesEqual(OfTable(history, t), |schema[t].columns|);
    }
  }

  /* ---------- nothing is reported without a cause ---------- */

  /** The key's row differs at the two ends of a history, absent rows counting as all NULL. */
  ghost predicate RowDiffers(rows0: TableRows, rows1: TableRows, pk: PrimaryKey, width: nat) {
    RowAt(rows0, pk, width) != RowAt(rows1, pk, width)
  }

  /** A reported field has a cause: in some table that feeds it some row really changed. */
  lemma ReportedHasCause(schema: Schema, rows: DocRows, history: seq<TableRowChange>, attr: string)
    requires DocHistoryFits(schema, rows, history)
    ensures AllDiffsFit(PruneTables(DocFold(history)))
    ensures attr in ChangedAttrs(history) ==>
              exists t, pk :: t in schema && Feeding(schema[t], attr) != {} &&
                RowDiffers(RowsOf(rows, t), RowsOf(ReplayDoc(rows, history), t), pk, |schema[t].columns|)
  {
    DocFoldFits(schema, rows, history);
    if attr in ChangedAttrs(history) {
      var diffs := PruneTables(DocFold(history));
      var t :| t in diffs && attr in TableAttrs(diffs[t]);
      DocFoldByTable(schema, history, t);
      ReplayDocByTable(rows, history, t);
      ReportedFeeds(diffs[t], schema[t], attr);
      SomeKey(diffs[t].changes);
      var pk :| pk in diffs[t].changes;
      FoldTelescopes(RowsOf(rows, t), OfTable(history, t), pk, |schema[t].columns|);
      hide TableAttrs, ReplayDoc, DocFold, OfTable, ReplayRows, TableFold, HistoryFits, Feeding, ChangedAttrs;
      assert RowDiffers(RowsOf(rows, t), RowsOf(ReplayDoc(rows, history), t), pk, |schema[t].columns|);
    }
  }

  lemma ReportedFeeds(t: TableDiffs, schema: TableSchema, attr: string)
    requires DiffsFit(t.changes, |t.columns|) && t.columns == schema.columns && t.columnMap == schema.columnMap
    requires attr in TableAttrs(t)
    ensures Feeding(schema, attr) != {}
  {
    var col :| col in ChangedColumns(t) && col in t.columnMap && attr in t.columnMap[col];
    var i :| 0 <= i < |t.columns| && t.columns[i] == col;
    assert i in Feeding(schema, attr);
  }

  /** When one row of one table changes, and nothing else, exactly the fields fed by a column that differs are reported. */
  lemma OneRowIsExact(schema: TableSchema, rows: TableRows, history: seq<TableRowChange>, pk: PrimaryKey, attr: string)
    requires var width := |schema.columns|;
             width <= ROW_ARRAY_LENGTH && RowsFit(rows, width) && HistoryFits(rows, history, width)
    requires forall k :: 0 <= k < |history| ==> history[k].pk == pk
    ensures DiffsFit(PruneRows(TableFold(history)), |schema.columns|)
    ensures |RowAt(rows, pk, |schema.columns|)| == |RowAt(ReplayRows(rows, history), pk, |schema.columns|)| == |schema.columns|
    ensures attr in TableAttrs(TableDiffs(schema.columns, schema.columnMap, PruneRows(TableFold(history))))
        <==> exists i :: i in Feeding(schema, attr) &&
               RowAt(rows, pk, |schema.columns|)[i] != RowAt(ReplayRows(rows, history), pk, |schema.columns|)[i]
  {
    var width, kept := |schema.columns|, PruneRows(TableFold(history));
    var before, after := RowAt(rows, pk, width), RowAt(ReplayRows(rows, history), pk, width);
    FoldFits(rows, history, width);
    ReplayKeepsWidth(rows, history, width);
    FoldTelescopes(rows, history, pk, width);
    forall other | other in kept ensures other == pk {
      FoldKeys(history, other);
    }
    var t := TableDiffs(schema.columns, schema.columnMap, kept);
    assert pk in kept <==> before != after;
    assert pk in kept ==> kept[pk].before == before && kept[pk].after == after;
    hide TableFold, ReplayRows, HistoryFits, PruneRows;
    if pk in kept {
      OneDiffIsExact(t, schema, pk, attr);
    } else {
      assert kept == map[];
      assert TableAttrs(t) == {};
    }
  }

  lemma OneDiffIsExact(t: TableDiffs, schema: TableSchema, pk: PrimaryKey, attr: string)
    requires DiffsFit(t.changes, |t.columns|) && t.columns == schema.columns && t.columnMap == schema.columnMap
    requires t.changes.Keys == {pk} && t.changes[pk].before != t.changes[pk].after && ExactlyOne(t.changes[pk])
    ensures attr in TableAttrs(t)
        <==> exists i :: i in Feeding(schema, attr) && t.changes[pk].before[i] != t.changes[pk].after[i]
  {
    OneDiffColumns(t, pk);
    var d := t.changes[pk];
    hide ChangedColumns;
    if attr in TableAttrs(t) {
      var col :| col in ChangedColumns(t) && col in t.columnMap && attr in t.columnMap[col];
      var i :| 0 <= i < |t.columns| && t.columns[i] == col && d.before[i] != d.after[i];
      assert i in Feeding(schema, attr);
    }
    if i :| i in Feeding(schema, attr) && d.before[i] != d.after[i] {
      assert t.columns[i] in ChangedColumns(t);
    }
  }

  lemma OneDiffColumns(t: TableDiffs, pk: PrimaryKey)
    requires DiffsFit(t.changes, |t.columns|)
    requires t.changes.Keys == {pk} && t.changes[pk].before != t.changes[pk].after && ExactlyOne(t.changes[pk])
    ensures forall col :: col in ChangedColumns(t) <==>
              exists i :: 0 <= i < |t.columns| && t.columns[i] == col && t.changes[pk].before[i] != t.changes[pk].after[i]
  {
    var d, width := t.changes[pk], |t.columns|;
    var before, after := BeforeSet(t.changes, width), AfterSet(t.changes, width);
    assert before == if d.isDelete || d.isUpdate then {RowArray(d.before)} else {};
    assert after == if d.isInsert || d.isUpdate then {RowArray(d.after)} else {};
    assert before != after by {
      if RowArray(d.before) == RowArray(d.after) {
        SameArraySameRow(d.before, d.after);
      }
      assert d.isDelete ==> RowArray(d.before) in before;
      assert d.isInsert ==> RowArray(d.after) in after;
      assert d.isUpdate ==> RowArray(d.before) in before && RowArray(d.before) !in after;
    }
    assert |before| <= 1 && |after| <= 1;
    hide BeforeSet, AfterSet, RowArray;
    assert ChangedColumns(t) == DifferingColumns(t);
    hide ChangedColumns;
    assert pk in t.changes;
  }

  /** When the changed rows of a table end as several different rows, not the same as they started and none of them all NULL,
      every field that the table feeds is reported. */
  lemma SeveralRowsReportAll(schema: TableSchema, rows: TableRows, history: seq<TableRowChange>, attr: string)
    requires var width := |schema.columns|;
             width <= ROW_ARRAY_LENGTH && RowsFit(rows, width) && HistoryFits(rows, history, width)
    requires DiffsFit(PruneRows(TableFold(history)), |schema.columns|) && RowsFit(ReplayRows(rows, history), |schema.columns|)
    requires var kept, final := PruneRows(TableFold(history)), ReplayRows(rows, history);
             var ends := set pk | pk in kept && pk in final :: RowArray(final[pk]);
             && |ends| > 1 && RowArray(NullRow(|schema.columns|)) !in ends
             && ends != set pk | pk in kept && pk in rows :: RowArray(rows[pk])
    requires Feeding(schema, attr) != {}
    ensures attr in TableAttrs(TableDiffs(schema.columns, schema.columnMap, PruneRows(TableFold(history))))
  {
    var width, kept, final := |schema.columns|, PruneRows(TableFold(history)), ReplayRows(rows, history);
    ComparedSets(rows, history, width);
    var t := TableDiffs(schema.columns, schema.columnMap, kept);
    var before, after := BeforeSet(kept, width), AfterSet(kept, width);
    var starts := set pk | pk in kept && pk in rows :: RowArray(rows[pk]);
    hide TableFold, ReplayRows, HistoryFits, PruneRows, BeforeSet, AfterSet, RowArray;
    assert before <= starts + {RowArray(NullRow(width))} && starts <= before;
    assert before != after;
    var i :| i in Feeding(schema, attr);
    assert t.columns[i] in ChangedColumns(t);
  }
}
