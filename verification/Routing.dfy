/** The loops of river/rule.go that fill keys, filtered rows and change lists, tied to the functions of `Rule`. */
module Routing {
  import opened Types
  import opened Rule

  method RealPKColumns(t: Table) returns (cols: seq<nat>)
    ensures cols == PKColumns(t)
  {
    if |t.pkColumns| > 0 {
      return t.pkColumns;
    }
    var filled := new nat[|t.columns|];
    for i := 0 to |t.columns|
      invariant forall k :: 0 <= k < i ==> filled[k] == k
    {
      filled[i] := i;
    }
    cols := filled[..];
  }

  method NewPrimaryKeyFromRow(pkCols: seq<nat>, row: Row) returns (pk: PrimaryKey)
    requires Indexable(pkCols, row)
    ensures pk == KeyOfRow(pkCols, row)
  {
    var v := new Value[KEY_LENGTH](_ => Null);
    for i := 0 to |pkCols|
      invariant forall k :: 0 <= k < KEY_LENGTH ==> v[k] == if k < i then row[pkCols[k]] else Null
    {
      v[i] := row[pkCols[i]];
    }
    pk := PrimaryKey(|pkCols|, v[..]);
  }

  /** The write position stays inside the two slices because distinct columns are distinct keys of the map. */
  method FilterColumns(columns: seq<string>, columnMap: ColumnMap, row: Row) returns (names: seq<string>, filtered: Row)
    requires Distinct(columns) && |columns| == |row|
    ensures names == FilterNames(columns, columnMap) && filtered == FilterRow(columns, columnMap, row)
  {
    KeptIsBounded(columns, columnMap);
    names, filtered := FillKept(columns, columnMap, row);
  }

  method FillKept(columns: seq<string>, columnMap: ColumnMap, row: Row) returns (names: seq<string>, filtered: Row)
    requires |KeptColumns(columns, columnMap)| <= |columnMap| && |columns| == |row|
    ensures names == KeptColumns(columns, columnMap) + seq(|columnMap| - |KeptColumns(columns, columnMap)|, _ => "")
    ensures filtered == KeptValues(columns, columnMap, row) + NullRow(|columnMap| - |KeptColumns(columns, columnMap)|)
  {
    names := seq(|columnMap|, _ => "");
    filtered := NullRow(|columnMap|);
    var i := 0;
    assert KeptColumns(columns[..0], columnMap) == [] && KeptValues(columns[..0], columnMap, row) == [];
    hide KeptColumns, KeptValues;
    for colNo := 0 to |columns|
      invariant i == |KeptColumns(columns[..colNo], columnMap)| <= |columnMap|
      invariant |names| == |filtered| == |columnMap|
      invariant names[..i] == KeptColumns(columns[..colNo], columnMap)
      invariant filtered[..i] == KeptValues(columns[..colNo], columnMap, row)
      invariant forall k :: i <= k < |columnMap| ==> names[k] == "" && filtered[k] == Null
    {
      NextKept(columns, columnMap, row, colNo);
      if columns[colNo] in columnMap {
        names := names[i := columns[colNo]];
        filtered := filtered[i := row[colNo]];
        i := i + 1;
      }
    }
    assert columns[..|columns|] == columns;
    PaddedNames(names, i);
    PaddedRow(filtered, i);
  }

  lemma PaddedNames(names: seq<string>, n: nat)
    requires n <= |names| && forall k :: n <= k < |names| ==> names[k] == ""
    ensures names == names[..n] + seq(|names| - n, _ => "")
  {
  }

  lemma PaddedRow(row: Row, n: nat)
    requires n <= |row| && forall k :: n <= k < |row| ==> row[k] == Null
    ensures row == row[..n] + NullRow(|row| - n)
  {
  }

  lemma {:induction false} KeptIsPrefix(columns: seq<string>, columnMap: ColumnMap, row: Row, n: nat)
    requires n <= |columns| <= |row|
    ensures KeptColumns(columns[..n], columnMap) <= KeptColumns(columns, columnMap)
    ensures KeptValues(columns[..n], columnMap, row) <= KeptValues(columns, columnMap, row)
  {
    if n == |columns| {
      assert columns[..n] == columns;
    } else {
      assert Front(columns)[..n] == columns[..n];
      KeptIsPrefix(Front(columns), columnMap, row, n);
    }
  }

  /** Where the next kept column goes. */
  lemma NextKept(columns: seq<string>, columnMap: ColumnMap, row: Row, n: nat)
    requires n < |columns| == |row| && |KeptColumns(columns, columnMap)| <= |columnMap|
    ensures |KeptColumns(columns[..n + 1], columnMap)| <= |columnMap|
    ensures KeptColumns(columns[..n + 1], columnMap)
         == KeptColumns(columns[..n], columnMap) + if columns[n] in columnMap then [columns[n]] else []
    ensures KeptValues(columns[..n + 1], columnMap, row)
         == KeptValues(columns[..n], columnMap, row) + if columns[n] in columnMap then [row[n]] else []
  {
    assert Front(columns[..n + 1]) == columns[..n] && Last(columns[..n + 1]) == columns[n];
    KeptIsPrefix(columns, columnMap, row, n + 1);
  }

  method InsertedTableRow(r: IngestRule, t: Table, docID: DocID, pkCols: seq<nat>, row: Row, now: int)
    returns (c: TableRowChange)
    requires TableShape(t) && pkCols == PKColumns(t) && |row| == |t.columns|
    ensures c == InsertedChange(r, t, docID, row, now)
  {
    var pk := NewPrimaryKeyFromRow(pkCols, row);
    var columns, filtered := FilterColumns(t.columns, r.columnMap, row);
    c := TableRowChange(InsertAction, columns, r.columnMap, docID, 0, r.index, NullRow(|filtered|), filtered,
                        pk, r.tableName, now);
  }

  method UpdatedTableRow(r: IngestRule, t: Table, docID: DocID, pkCols: seq<nat>, oldRow: Row, newRow: Row, now: int)
    returns (c: TableRowChange)
    requires TableShape(t) && pkCols == PKColumns(t) && |oldRow| == |newRow| == |t.columns|
    ensures c == UpdatedChange(r, t, docID, oldRow, newRow, now)
  {
    var pk := NewPrimaryKeyFromRow(pkCols, oldRow);
    var _, oldFiltered := FilterColumns(t.columns, r.columnMap, oldRow);
    var columns, newFiltered := FilterColumns(t.columns, r.columnMap, newRow);
    c := TableRowChange(UpdateAction, columns, r.columnMap, docID, 0, r.index, oldFiltered, newFiltered,
                        pk, r.tableName, now);
  }

  method DeletedTableRow(r: IngestRule, t: Table, docID: DocID, pkCols: seq<nat>, row: Row, now: int)
    returns (c: TableRowChange)
    requires TableShape(t) && pkCols == PKColumns(t) && |row| == |t.columns|
    ensures c == DeletedChange(r, t, docID, row, now)
  {
    var pk := NewPrimaryKeyFromRow(pkCols, row);
    var columns, filtered := FilterColumns(t.columns, r.columnMap, row);
    c := TableRowChange(DeleteAction, columns, r.columnMap, docID, 0, r.index, filtered, NullRow(|filtered|),
                        pk, r.tableName, now);
  }

  lemma {:induction false} EmitStopsAtError(r: IngestRule, t: Table, idCol: nat, steps: seq<RowStep>, k: nat, now: int)
    requires TableShape(t) && StepsShape(t, steps) && idCol < |t.columns| && k <= |steps|
    requires EmitSteps(r, t, idCol, steps[..k], now).Err?
    ensures EmitSteps(r, t, idCol, steps, now).Err?
    decreases |steps| - k
  {
    if k < |steps| {
      assert Front(steps[..k + 1]) == steps[..k];
      EmitStopsAtError(r, t, idCol, steps, k + 1, now);
    } else {
      assert steps[..k] == steps;
    }
  }

  lemma NoSteps(r: IngestRule, t: Table, idCol: nat, now: int)
    requires TableShape(t) && idCol < |t.columns|
    ensures EmitSteps(r, t, idCol, [], now) == Ok([])
  {
  }

  lemma EmitOneMore(r: IngestRule, t: Table, idCol: nat, steps: seq<RowStep>, n: nat, now: int)
    requires TableShape(t) && StepsShape(t, steps) && idCol < |t.columns| && n < |steps|
    ensures EmitSteps(r, t, idCol, steps[..n + 1], now)
         == match (EmitSteps(r, t, idCol, steps[..n], now), StepChanges(r, t, idCol, steps[n], now))
            case (Ok(prior), Ok(more)) => Ok(prior + more)
            case _ => Err
  {
    assert Front(steps[..n + 1]) == steps[..n] && Last(steps[..n + 1]) == steps[n];
  }

  method MakeInsertChangeSet(r: IngestRule, e: RowsEvent, idColNo: nat, now: int) returns (res: Result<seq<TableRowChange>>)
    requires EventShape(e) && e.action == InsertAction && idColNo < |e.table.columns|
    ensures res == EmitSteps(r, e.table, idColNo, StepsOf(e), now)
  {
    ghost var steps := StepsOf(e);
    var c := new TableRowChange[|e.rows|];
    var pkColumns := RealPKColumns(e.table);
    hide InsertedChange, DeletedChange, EmitSteps;
    assert EmitSteps(r, e.table, idColNo, steps[..0], now) == Ok([]) by { NoSteps(r, e.table, idColNo, now); }
    for i := 0 to |e.rows|
      invariant EmitSteps(r, e.table, idColNo, steps[..i], now) == Ok(c[..i])
    {
      EmitOneMore(r, e.table, idColNo, steps, i, now);
      match CoerceToUint64(e.rows[i][idColNo])
      case Err =>
        EmitStopsAtError(r, e.table, idColNo, steps, i + 1, now);
        return Err;
      case Ok(docID) =>
        c[i] := InsertedTableRow(r, e.table, docID, pkColumns, e.rows[i], now);
        assert c[..i + 1] == c[..i] + [c[i]];
    }
    assert steps[..|e.rows|] == steps;
    assert c[..|e.rows|] == c[..];
    res := Ok(c[..]);
  }

  method MakeDeleteChangeSet(r: IngestRule, e: RowsEvent, idColNo: nat, now: int) returns (res: Result<seq<TableRowChange>>)
    requires EventShape(e) && e.action == DeleteAction && idColNo < |e.table.columns|
    ensures res == EmitSteps(r, e.table, idColNo, StepsOf(e), now)
  {
    ghost var steps := StepsOf(e);
    var c := new TableRowChange[|e.rows|];
    var pkColumns := RealPKColumns(e.table);
    hide InsertedChange, DeletedChange, EmitSteps;
    assert EmitSteps(r, e.table, idColNo, steps[..0], now) == Ok([]) by { NoSteps(r, e.table, idColNo, now); }
    for i := 0 to |e.rows|
      invariant EmitSteps(r, e.table, idColNo, steps[..i], now) == Ok(c[..i])
    {
      EmitOneMore(r, e.table, idColNo, steps, i, now);
      match CoerceToUint64(e.rows[i][idColNo])
      case Err =>
        EmitStopsAtError(r, e.table, idColNo, steps, i + 1, now);
        return Err;
      case Ok(docID) =>
        c[i] := DeletedTableRow(r, e.table, docID, pkColumns, e.rows[i], now);
        assert c[..i + 1] == c[..i] + [c[i]];
    }
    assert steps[..|e.rows|] == steps;
    assert c[..|e.rows|] == c[..];
    res := Ok(c[..]);
  }

  /** One pair of rows: a change of document becomes a delete followed by an insert. */
  method RoutePair(r: IngestRule, t: Table, idColNo: nat, pkColumns: seq<nat>, oldRow: Row, newRow: Row, now: int)
    returns (res: Result<seq<TableRowChange>>)
    requires TableShape(t) && pkColumns == PKColumns(t) && |oldRow| == |newRow| == |t.columns| && idColNo < |t.columns|
    ensures res == StepChanges(r, t, idColNo, UpdateRow(oldRow, newRow), now)
  {
    var oldDocID := CoerceToUint64(oldRow[idColNo]);
    if oldDocID.Err? {
      return Err;
    }
    var newDocID := oldDocID;
    if newRow[idColNo] != Null {
      newDocID := CoerceToUint64(newRow[idColNo]);
      if newDocID.Err? {
        return Err;
      }
    }
    if oldDocID == newDocID {
      var updated := UpdatedTableRow(r, t, newDocID.value, pkColumns, oldRow, newRow, now);
      return Ok([updated]);
    }
    var gone := DeletedTableRow(r, t, oldDocID.value, pkColumns, oldRow, now);
    var came := InsertedTableRow(r, t, newDocID.value, pkColumns, newRow, now);
    res := Ok([gone, came]);
  }

  /** Rows come in pairs, the old row first. */
  method MakeUpdateChangeSet(r: IngestRule, e: RowsEvent, idColNo: nat, now: int) returns (res: Result<seq<TableRowChange>>)
    requires EventShape(e) && e.action == UpdateAction && idColNo < |e.table.columns|
    ensures res == EmitSteps(r, e.table, idColNo, StepsOf(e), now)
  {
    ghost var steps := StepsOf(e);
    var c: seq<TableRowChange> := [];
    var pkColumns := RealPKColumns(e.table);
    hide StepChanges, EmitSteps;
    assert EmitSteps(r, e.table, idColNo, steps[..0], now) == Ok([]) by { NoSteps(r, e.table, idColNo, now); }
    for i := 0 to |e.rows| / 2
      invariant EmitSteps(r, e.table, idColNo, steps[..i], now) == Ok(c)
    {
      EmitOneMore(r, e.table, idColNo, steps, i, now);
      var pair := RoutePair(r, e.table, idColNo, pkColumns, e.rows[i * 2], e.rows[i * 2 + 1], now);
      if pair.Err? {
        EmitStopsAtError(r, e.table, idColNo, steps, i + 1, now);
        return Err;
      }
      c := c + pair.value;
    }
    assert steps[..|e.rows| / 2] == steps;
    res := Ok(c);
  }

  method FieldIndex(t: Table, fieldName: string) returns (at: Option<nat>)
    ensures at == IndexOf(t.columns, fieldName)
  {
    for i := 0 to |t.columns|
      invariant IndexOf(t.columns[..i], fieldName) == None
    {
      assert Front(t.columns[..i + 1]) == t.columns[..i];
      if fieldName == t.columns[i] {
        FirstMatchStays(t.columns, i + 1, fieldName);
        return Some(i);
      }
    }
    assert t.columns[..|t.columns|] == t.columns;
    at := None;
  }

  lemma {:induction false} FirstMatchStays(names: seq<string>, k: nat, name: string)
    requires k <= |names| && IndexOf(names[..k], name).Some?
    ensures IndexOf(names, name) == IndexOf(names[..k], name)
    decreases |names| - k
  {
    if k < |names| {
      assert Front(names[..k + 1]) == names[..k];
      FirstMatchStays(names, k + 1, name);
    } else {
      assert names[..k] == names;
    }
  }

  method Apply(r: IngestRule, e: RowsEvent, now: int) returns (res: Result<seq<TableRowChange>>)
    requires EventShape(e)
    ensures res == Emit(r, e, now)
  {
    if r.tableName != e.table.name {
      return Ok([]);
    }
    IndexIsInRange(e.table.columns, r.docIDField);
    var idColNo := FieldIndex(e.table, r.docIDField);
    if idColNo.None? {
      return Err;
    }
    match e.action
    case InsertAction => res := MakeInsertChangeSet(r, e, idColNo.value, now);
    case UpdateAction => res := MakeUpdateChangeSet(r, e, idColNo.value, now);
    case DeleteAction => res := MakeDeleteChangeSet(r, e, idColNo.value, now);
  }

  lemma {:induction false} RulesStopAtError(rules: seq<IngestRule>, e: RowsEvent, k: nat, now: int)
    requires EventShape(e) && k <= |rules| && !EmitRules(rules[..k], e, now).ok
    ensures EmitRules(rules, e, now) == EmitRules(rules[..k], e, now)
    decreases |rules| - k
  {
    if k < |rules| {
      assert Front(rules[..k + 1]) == rules[..k];
      RulesStopAtError(rules, e, k + 1, now);
    } else {
      assert rules[..k] == rules;
    }
  }

  /** Sends the changes of every rule, in rule order, until one fails. */
  method ApplyRuleSet(rules: seq<IngestRule>, e: RowsEvent, now: int) returns (sent: seq<TableRowChange>, ok: bool)
    requires EventShape(e)
    ensures Routed(sent, ok) == EmitRules(rules, e, now)
  {
    sent := [];
    for ruleID := 0 to |rules|
      invariant EmitRules(rules[..ruleID], e, now) == Routed(sent, true)
    {
      assert Front(rules[..ruleID + 1]) == rules[..ruleID];
      var docs := Apply(rules[ruleID], e, now);
      if docs.Err? {
        RulesStopAtError(rules, e, ruleID + 1, now);
        return sent, false;
      }
      sent := sent + docs.value;
    }
    assert rules[..|rules|] == rules;
    ok := true;
  }
}
