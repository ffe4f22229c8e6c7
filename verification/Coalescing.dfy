/** The change sets of river/changeset.go as the objects they are: maps of row diffs updated in place, with
    loops over those maps in no particular order. Every method is tied to the functions of `ChangeSet`. */
module Coalescing {
  import opened Types
  import opened ChangeSet

  /** Copies a row to a fixed-size array (river/rule.go). */
  method RowToArray(row: Row) returns (padded: seq<Value>)
    requires |row| <= ROW_ARRAY_LENGTH
    ensures padded == RowArray(row)
  {
    var m := new Value[ROW_ARRAY_LENGTH](_ => Null);
    for colNo := 0 to |row|
      invariant m[..colNo] == row[..colNo]
      invariant forall k :: colNo <= k < m.Length ==> m[k] == Null
    {
      m[colNo] := row[colNo];
      assert row[..colNo + 1] == row[..colNo] + [row[colNo]];
      assert m[..colNo + 1] == m[..colNo] + [m[colNo]];
    }
    padded := m[..];
    assert m[..|row|] == row;
  }

  class TableChangeSet {
    const columns: seq<string>
    const columnMap: ColumnMap
    var changes: RowDiffs

    constructor (columns: seq<string>, columnMap: ColumnMap)
      ensures View() == TableDiffs(columns, columnMap, map[])
    {
      this.columns, this.columnMap, changes := columns, columnMap, map[];
    }

    ghost function View(): TableDiffs
      reads this
    {
      TableDiffs(columns, columnMap, changes)
    }

    method ApplyChange(c: TableRowChange)
      modifies this
      ensures changes == AddToTable(old(changes), c)
    {
      if c.pk in changes {
        var diff := changes[c.pk];
        var isInsert := diff.isInsert && c.action != DeleteAction;
        var isDelete := !diff.isInsert && c.action == DeleteAction;
        changes := changes[c.pk := RowDiff(isInsert, !isInsert && !isDelete, isDelete, diff.before, c.newRow)];
      } else {
        changes := changes[c.pk := RowDiff(c.action == InsertAction, c.action == UpdateAction,
                                           c.action == DeleteAction, c.oldRow, c.newRow)];
      }
    }

    /** Deletes map entries while ranging over the map. */
    method PruneUnchangedRows()
      modifies this
      ensures changes == PruneRows(old(changes))
    {
      var rest := changes.Keys;
      while rest != {}
        invariant rest <= old(changes).Keys
        invariant forall pk :: pk in changes <==>
                    pk in old(changes) && (pk in rest || old(changes)[pk].before != old(changes)[pk].after)
        invariant forall pk :: pk in changes ==> changes[pk] == old(changes)[pk]
        decreases rest
      {
        var pk :| pk in rest;
        if changes[pk].before == changes[pk].after {
          changes := changes - {pk};
        }
        rest := rest - {pk};
      }
    }

    /** The sets of rows before and after, in whatever order the diffs are visited. */
    method CollectRows() returns (before: set<seq<Value>>, after: set<seq<Value>>)
      requires DiffsFit(changes, |columns|)
      ensures before == BeforeSet(changes, |columns|)
      ensures after == AfterSet(changes, |columns|)
    {
      before, after := {}, {};
      ghost var done: RowDiffs := map[];
      var rest := changes.Keys;
      while rest != {}
        invariant rest <= changes.Keys && done == changes - rest
        invariant DiffsFit(done, |columns|)
        invariant before == BeforeSet(done, |columns|) && after == AfterSet(done, |columns|)
        decreases rest
      {
        var pk :| pk in rest;
        var diff := changes[pk];
        if diff.isDelete || diff.isUpdate {
          var row := RowToArray(diff.before);
          before := before + {row};
        }
        if diff.isInsert || diff.isUpdate {
          var row := RowToArray(diff.after);
          after := after + {row};
        }
        ghost var prior := done;
        done := done[pk := diff];
        OneMoreDiff(prior, pk, diff, |columns|);
        rest := rest - {pk};
        assert done == changes - rest;
      }
      assert done == changes;
    }

    /** The columns in which some diff differs. */
    method CollectDifferingColumns() returns (columnSet: set<string>)
      requires DiffsFit(changes, |columns|)
      ensures columnSet == DifferingColumns(View())
    {
      columnSet := {};
      var rest := changes.Keys;
      while rest != {}
        invariant rest <= changes.Keys
        invariant columnSet == set pk, i | pk in changes && pk !in rest && 0 <= i < |columns| &&
                                           changes[pk].before[i] != changes[pk].after[i] :: columns[i]
        decreases rest
      {
        var pk :| pk in rest;
        var diff := changes[pk];
        ghost var prior := columnSet;
        for colNo := 0 to |columns|
          invariant columnSet == prior + set i | 0 <= i < colNo && diff.before[i] != diff.after[i] :: columns[i]
        {
          if diff.before[colNo] != diff.after[colNo] {
            columnSet := columnSet + {columns[colNo]};
          }
        }
        rest := rest - {pk};
      }
    }

    method ChangedColumnNames() returns (names: seq<string>)
      requires DiffsFit(changes, |columns|)
      ensures (set name | name in names) == ChangedColumns(View())
      ensures names == columns || forall j, k :: 0 <= j < k < |names| ==> names[j] != names[k]
    {
      var before, after := CollectRows();
      if after == before {
        return [];
      }
      if |after| > 1 || |before| > 1 {
        return columns;
      }
      var columnSet := CollectDifferingColumns();
      names := [];
      var rest := columnSet;
      while rest != {}
        invariant rest <= columnSet
        invariant forall name :: name in names <==> name in columnSet - rest
        invariant forall j, k :: 0 <= j < k < |names| ==> names[j] != names[k]
        decreases rest
      {
        var col :| col in rest;
        assert col !in names;
        names := names + [col];
        rest := rest - {col};
      }
    }
  }

  lemma OneMoreDiff(done: RowDiffs, pk: PrimaryKey, diff: RowDiff, width: nat)
    requires DiffsFit(done, width) && pk !in done && |diff.before| == |diff.after| == width
    ensures DiffsFit(done[pk := diff], width)
    ensures BeforeSet(done[pk := diff], width) ==
            BeforeSet(done, width) + if diff.isDelete || diff.isUpdate then {RowArray(diff.before)} else {}
    ensures AfterSet(done[pk := diff], width) ==
            AfterSet(done, width) + if diff.isInsert || diff.isUpdate then {RowArray(diff.after)} else {}
  {
    var more := done[pk := diff];
    forall k | k in done ensures more[k] == done[k] {
    }
    forall a | a in BeforeSet(done, width) ensures a in BeforeSet(more, width) {
      var k :| k in done && (done[k].isDelete || done[k].isUpdate) && RowArray(done[k].before) == a;
      assert k in more;
    }
    forall a | a in AfterSet(done, width) ensures a in AfterSet(more, width) {
      var k :| k in done && (done[k].isInsert || done[k].isUpdate) && RowArray(done[k].after) == a;
      assert k in more;
    }
    assert pk in more;
  }

  class DocChangeSet {
    var changes: map<string, TableChangeSet>

    constructor ()
      ensures Valid() && View() == map[] && changes.Values == {}
    {
      changes := map[];
    }

    /** Different tables have different change sets. */
    ghost predicate Valid()
      reads this
    {
      forall t, u :: t in changes && u in changes && t != u ==> changes[t] != changes[u]
    }

    ghost function View(): DocDiffs
      reads this, changes.Values
    {
      map t | t in changes :: changes[t].View()
    }

    method ApplyChange(c: TableRowChange)
      requires Valid()
      modifies this, changes.Values
      ensures Valid() && fresh(changes.Values - old(changes.Values))
      ensures View() == AddToDoc(old(View()), c)
    {
      var table := c.tableName;
      if table !in changes {
        var tableChangeSet := new TableChangeSet(c.columns, c.columnMap);
        changes := changes[table := tableChangeSet];
      }
      changes[table].ApplyChange(c);
    }

    /** Prunes one table and drops it when nothing is left. */
    method PruneTable(table: string)
      requires Valid() && table in changes
      modifies this, changes[table]
      ensures Valid() && changes.Values <= old(changes.Values)
      ensures View() == WithPruned(old(View()), table)
    {
      hide PruneRows;
      var tcs := changes[table];
      tcs.PruneUnchangedRows();
      assert View() == old(View())[table := PrunedTable(old(View())[table])];
      if tcs.changes == map[] {
        changes := changes - {table};
      }
    }

    /** Deletes map entries while ranging over the map. */
    method PruneUnchangedTables()
      requires Valid()
      modifies this, changes.Values
      ensures Valid() && changes.Values <= old(changes.Values)
      ensures View() == PruneTables(old(View()))
    {
      ghost var diffs := View();
      var rest := changes.Keys;
      while rest != {}
        invariant Valid() && rest <= changes.Keys && changes.Values <= old(changes.Values)
        invariant View() == PrunedExcept(diffs, rest)
        decreases rest
      {
        var t :| t in rest;
        PruneTable(t);
        PruneOneMore(diffs, rest, t);
        rest := rest - {t};
        assert rest <= View().Keys;
      }
      assert PrunedExcept(diffs, {}) == PruneTables(diffs);
    }
  }

  ghost function PrunedTable(t: TableDiffs): TableDiffs {
    t.(changes := PruneRows(t.changes))
  }

  ghost function WithPruned(diffs: DocDiffs, t: string): DocDiffs
    requires t in diffs
  {
    if PrunedTable(diffs[t]).changes == map[] then diffs - {t} else diffs[t := PrunedTable(diffs[t])]
  }

  /** Part of the tables is still to be pruned. */
  ghost function PrunedExcept(diffs: DocDiffs, rest: set<string>): DocDiffs {
    map t | t in diffs && (t in rest || PrunedTable(diffs[t]).changes != map[]) ::
      if t in rest then diffs[t] else PrunedTable(diffs[t])
  }

  lemma PruneOneMore(diffs: DocDiffs, rest: set<string>, t: string)
    requires t in rest && t in diffs
    ensures WithPruned(PrunedExcept(diffs, rest), t) == PrunedExcept(diffs, rest - {t})
  {
    hide PruneRows;
  }

  lemma FoldOneMore(changes: seq<TableRowChange>, i: nat)
    requires i < |changes|
    ensures DocFold(changes[..i + 1]) == AddToDoc(DocFold(changes[..i]), changes[i])
  {
    assert Front(changes[..i + 1]) == changes[..i];
    hide AddToDoc;
  }

  method NewDocChangeSet(changeList: seq<TableRowChange>) returns (s: DocChangeSet)
    ensures fresh(s) && fresh(s.changes.Values) && s.Valid()
    ensures s.View() == PruneTables(DocFold(changeList))
  {
    s := new DocChangeSet();
    for i := 0 to |changeList|
      invariant fresh(s) && fresh(s.changes.Values) && s.Valid()
      invariant s.View() == DocFold(changeList[..i])
    {
      hide DocFold, AddToDoc;
      FoldOneMore(changeList, i);
      s.ApplyChange(changeList[i]);
    }
    assert changeList[..|changeList|] == changeList;
    s.PruneUnchangedTables();
  }

  lemma TableDiffsFit(diffs: DocDiffs, t: string)
    requires AllDiffsFit(diffs) && t in diffs
    ensures DiffsFit(diffs[t].changes, |diffs[t].columns|)
  {
  }

  /** Names of the attributes of a document whose values changed. */
  method ComputeChangedAttrs(changeList: seq<TableRowChange>) returns (attrs: set<string>)
    requires AllDiffsFit(PruneTables(DocFold(changeList)))
    ensures attrs == ChangedAttrs(changeList)
  {
    hide PruneTables, DocFold, TableAttrs;
    attrs := {};
    var dcs := NewDocChangeSet(changeList);
    ghost var diffs := dcs.View();
    var rest := dcs.changes.Keys;
    while rest != {}
      invariant rest <= dcs.changes.Keys == diffs.Keys
      invariant forall t :: t in dcs.changes ==> dcs.changes[t].View() == diffs[t]
      invariant attrs == set t, attr | t in diffs && t !in rest && attr in TableAttrs(diffs[t]) :: attr
      decreases rest
    {
      var t :| t in rest;
      TableDiffsFit(diffs, t);
      var tableAttrs := TableAttrNames(dcs.changes[t]);
      attrs := attrs + tableAttrs;
      rest := rest - {t};
    }
  }

  /** The attributes fed by the changed columns of one table. */
  method TableAttrNames(tcs: TableChangeSet) returns (attrs: set<string>)
    requires DiffsFit(tcs.changes, |tcs.columns|)
    ensures attrs == TableAttrs(tcs.View())
  {
    attrs := {};
    var names := tcs.ChangedColumnNames();
    for i := 0 to |names|
      invariant attrs == set col, attr | col in names[..i] && col in tcs.columnMap && attr in tcs.columnMap[col] :: attr
    {
      assert names[..i + 1] == names[..i] + [names[i]];
      if names[i] in tcs.columnMap {
        var colAttrs := tcs.columnMap[names[i]];
        ghost var prior := attrs;
        for j := 0 to |colAttrs|
          invariant attrs == prior + set attr | attr in colAttrs[..j]
        {
          assert colAttrs[..j + 1] == colAttrs[..j] + [colAttrs[j]];
          attrs := attrs + {colAttrs[j]};
        }
        assert colAttrs[..|colAttrs|] == colAttrs;
      }
    }
    assert forall col :: col in names[..|names|] <==> col in ChangedColumns(tcs.View());
  }
}
