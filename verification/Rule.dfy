/** Routing of binlog row events (river/rule.go): one row event on a whole table becomes, for every document,
    the inserts, updates and deletes of that document's rows. */
module Rule {
  import opened Types
  import opened ChangeSet
  import opened Decimal

  const KEY_LENGTH := 16

  datatype Table = Table(name: string, columns: seq<string>, pkColumns: seq<nat>)

  datatype RowsEvent = RowsEvent(table: Table, action: Action, rows: seq<Row>)

  datatype IngestRule = IngestRule(tableName: string, docIDField: string, index: string, columnMap: ColumnMap)

  /* ---------- coercion of document ids (util/coerce.go) ---------- */

  function ParseUint64(s: string): Result<nat> {
    if s != [] && (forall i :: 0 <= i < |s| ==> IsDigit(s[i])) && DecimalValue(s) < UINT64_RANGE
    then Ok(DecimalValue(s))
    else Err
  }

  /** NULL coerces to zero; a machine integer is reinterpreted modulo 2^64. */
  function CoerceToUint64(v: Value): Result<DocID> {
    match v
    case Null => Ok(0)
    case Num(n) => Ok(n % UINT64_RANGE)
    case Text(s) => ParseUint64(s)
  }

  /* ---------- keys and filtered rows ---------- */

  ghost predicate TableShape(t: Table) {
    && Distinct(t.columns)
    && |PKColumns(t)| <= KEY_LENGTH
    && forall k :: 0 <= k < |t.pkColumns| ==> t.pkColumns[k] < |t.columns|
  }

  /** Without a declared key all columns together are the key. */
  function PKColumns(t: Table): seq<nat> {
    if t.pkColumns != [] then t.pkColumns else seq(|t.columns|, i requires 0 <= i => i as nat)
  }

  ghost predicate Indexable(at: seq<nat>, row: Row) {
    |at| <= KEY_LENGTH && forall k :: 0 <= k < |at| ==> at[k] < |row|
  }

  function KeyOfRow(at: seq<nat>, row: Row): PrimaryKey
    requires forall k :: 0 <= k < |at| ==> at[k] < |row|
  {
    PrimaryKey(|at|, seq(KEY_LENGTH, i requires 0 <= i => if i < |at| then row[at[i]] else Null))
  }

  function KeptColumns(columns: seq<string>, columnMap: ColumnMap): seq<string> {
    if columns == [] then []
    else KeptColumns(Front(columns), columnMap) + if Last(columns) in columnMap then [Last(columns)] else []
  }

  function KeptValues(columns: seq<string>, columnMap: ColumnMap, row: Row): (kept: Row)
    requires |columns| <= |row|
    ensures |kept| == |KeptColumns(columns, columnMap)|
  {
    if columns == [] then []
    else KeptValues(Front(columns), columnMap, row)
         + if Last(columns) in columnMap then [row[|columns| - 1]] else []
  }

  lemma {:induction false} KeptIsBounded(columns: seq<string>, columnMap: ColumnMap)
    requires Distinct(columns)
    ensures |KeptColumns(columns, columnMap)| <= |columnMap|
  {
    KeptAreKeys(columns, columnMap);
    var kept := set c | c in columns && c in columnMap;
    SubsetIsSmaller(kept, columnMap.Keys);
  }

  lemma {:induction false} KeptAreKeys(columns: seq<string>, columnMap: ColumnMap)
    requires Distinct(columns)
    ensures |KeptColumns(columns, columnMap)| == |set c | c in columns && c in columnMap|
  {
    if columns == [] {
      assert (set c | c in columns && c in columnMap) == {};
    } else {
      KeptAreKeys(Front(columns), columnMap);
      OneMoreKey(columns, columnMap);
    }
  }

  lemma OneMoreKey(columns: seq<string>, columnMap: ColumnMap)
    requires Distinct(columns) && columns != []
    ensures |set c | c in columns && c in columnMap|
         == |set c | c in Front(columns) && c in columnMap| + if Last(columns) in columnMap then 1 else 0
  {
    var c := Last(columns);
    var prior := set c | c in Front(columns) && c in columnMap;
    assert columns == Front(columns) + [c];
    assert c !in Front(columns);
    assert (set c | c in columns && c in columnMap) == if c in columnMap then prior + {c} else prior;
  }

  lemma {:induction false} SubsetIsSmaller<T>(a: set<T>, b: set<T>)
    requires a <= b
    ensures |a| <= |b|
  {
    if a != {} {
      var x :| x in a;
      SubsetIsSmaller(a - {x}, b - {x});
    }
  }

  /** The indexed columns of a row, padded to the size of the column map when the map names others too. */
  function FilterRow(columns: seq<string>, columnMap: ColumnMap, row: Row): (filtered: Row)
    requires Distinct(columns) && |columns| == |row|
    ensures |filtered| == |columnMap|
  {
    KeptIsBounded(columns, columnMap);
    KeptValues(columns, columnMap, row) + NullRow(|columnMap| - |KeptColumns(columns, columnMap)|)
  }

  function FilterNames(columns: seq<string>, columnMap: ColumnMap): (names: seq<string>)
    requires Distinct(columns)
    ensures |names| == |columnMap|
  {
    KeptIsBounded(columns, columnMap);
    KeptColumns(columns, columnMap) + seq(|columnMap| - |KeptColumns(columns, columnMap)|, _ => "")
  }

  /* ---------- what one row of an event is turned into ---------- */

  function InsertedChange(r: IngestRule, t: Table, docID: DocID, row: Row, now: int): TableRowChange
    requires TableShape(t) && |row| == |t.columns|
  {
    TableRowChange(InsertAction, FilterNames(t.columns, r.columnMap), r.columnMap, docID, 0, r.index,
                   NullRow(|r.columnMap|), FilterRow(t.columns, r.columnMap, row),
                   KeyOfRow(PKColumns(t), row), r.tableName, now)
  }

  function UpdatedChange(r: IngestRule, t: Table, docID: DocID, before: Row, after: Row, now: int): TableRowChange
    requires TableShape(t) && |before| == |after| == |t.columns|
  {
    TableRowChange(UpdateAction, FilterNames(t.columns, r.columnMap), r.columnMap, docID, 0, r.index,
                   FilterRow(t.columns, r.columnMap, before), FilterRow(t.columns, r.columnMap, after),
                   KeyOfRow(PKColumns(t), before), r.tableName, now)
  }

  function DeletedChange(r: IngestRule, t: Table, docID: DocID, row: Row, now: int): TableRowChange
    requires TableShape(t) && |row| == |t.columns|
  {
    TableRowChange(DeleteAction, FilterNames(t.columns, r.columnMap), r.columnMap, docID, 0, r.index,
                   FilterRow(t.columns, r.columnMap, row), NullRow(|r.columnMap|),
                   KeyOfRow(PKColumns(t), row), r.tableName, now)
  }

  /** One logical row operation of an event. */
  datatype RowStep = InsertRow(row: Row) | UpdateRow(before: Row, after: Row) | DeleteRow(row: Row)

  function StepsOf(e: RowsEvent): seq<RowStep> {
    match e.action
    case InsertAction => seq(|e.rows|, i requires 0 <= i < |e.rows| => InsertRow(e.rows[i]))
    case UpdateAction => seq(|e.rows| / 2, i requires 0 <= i < |e.rows| / 2 => UpdateRow(e.rows[2 * i], e.rows[2 * i + 1]))
    case DeleteAction => seq(|e.rows|, i requires 0 <= i < |e.rows| => DeleteRow(e.rows[i]))
  }

  ghost predicate StepShape(t: Table, step: RowStep) {
    match step
    case InsertRow(row) => |row| == |t.columns|
    case UpdateRow(before, after) => |before| == |after| == |t.columns|
    case DeleteRow(row) => |row| == |t.columns|
  }

  /** The document a row belongs to after an update, as the rule sees it: a NULL id means "unchanged". */
  function UpdatedDoc(idCol: nat, before: Row, after: Row): Result<DocID>
    requires idCol < |before| == |after|
  {
    if after[idCol] == Null then CoerceToUint64(before[idCol]) else CoerceToUint64(after[idCol])
  }

  function StepChanges(r: IngestRule, t: Table, idCol: nat, step: RowStep, now: int): Result<seq<TableRowChange>>
    requires TableShape(t) && StepShape(t, step) && idCol < |t.columns|
  {
    match step
    case InsertRow(row) =>
      (match CoerceToUint64(row[idCol])
       case Err => Err
       case Ok(id) => Ok([InsertedChange(r, t, id, row, now)]))
    case DeleteRow(row) =>
      (match CoerceToUint64(row[idCol])
       case Err => Err
       case Ok(id) => Ok([DeletedChange(r, t, id, row, now)]))
    case UpdateRow(before, after) =>
      (match (CoerceToUint64(before[idCol]), UpdatedDoc(idCol, before, after))
       case (Ok(oldID), Ok(newID)) =>
         if oldID == newID then Ok([UpdatedChange(r, t, newID, before, after, now)])
         else Ok([DeletedChange(r, t, oldID, before, now), InsertedChange(r, t, newID, after, now)])
       case _ => Err)
  }

  ghost predicate StepsShape(t: Table, steps: seq<RowStep>) {
    forall k :: 0 <= k < |steps| ==> StepShape(t, steps[k])
  }

  /** All changes of an event, or an error as soon as one id cannot be read. */
  function EmitSteps(r: IngestRule, t: Table, idCol: nat, steps: seq<RowStep>, now: int): Result<seq<TableRowChange>>
    requires TableShape(t) && StepsShape(t, steps) && idCol < |t.columns|
  {
    if steps == [] then Ok([])
    else
      match (EmitSteps(r, t, idCol, Front(steps), now), StepChanges(r, t, idCol, Last(steps), now))
      case (Ok(prior), Ok(more)) => Ok(prior + more)
      case _ => Err
  }

  function IndexOf(names: seq<string>, name: string): Option<nat> {
    if names == [] then None
    else if IndexOf(Front(names), name).Some? then IndexOf(Front(names), name)
    else if Last(names) == name then Some(|names| - 1) else None
  }

  lemma {:induction false} IndexIsInRange(names: seq<string>, name: string)
    ensures IndexOf(names, name).Some? ==> IndexOf(names, name).value < |names|
  {
    if names != [] {
      IndexIsInRange(Front(names), name);
    }
  }

  ghost predicate EventShape(e: RowsEvent) {
    TableShape(e.table) && forall k :: 0 <= k < |e.rows| ==> |e.rows[k]| == |e.table.columns|
  }

  /** What a single rule makes of an event. */
  function Emit(r: IngestRule, e: RowsEvent, now: int): Result<seq<TableRowChange>>
    requires EventShape(e)
  {
    if r.tableName != e.table.name then Ok([])
    else
      IndexIsInRange(e.table.columns, r.docIDField);
      match IndexOf(e.table.columns, r.docIDField)
      case None => Err
      case Some(idCol) => EmitSteps(r, e.table, idCol, StepsOf(e), now)
  }

  datatype Routed = Routed(changes: seq<TableRowChange>, ok: bool)

  /** What a rule set sends for an event: an error stops it, after the changes of earlier rules were sent. */
  function EmitRules(rules: seq<IngestRule>, e: RowsEvent, now: int): Routed
    requires EventShape(e)
  {
    if rules == [] then Routed([], true)
    else
      var prior := EmitRules(Front(rules), e, now);
      if !prior.ok then prior
      else match Emit(Last(rules), e, now)
           case Err => Routed(prior.changes, false)
           case Ok(more) => Routed(prior.changes + more, true)
  }

  /* ---------- replaying the event on the whole table ---------- */

  type FullTable = map<PrimaryKey, Row>

  ghost predicate FullTableFits(t: Table, rows: FullTable) {
    && TableShape(t) && RowsFit(rows, |t.columns|)
    && forall pk :: pk in rows ==> KeyOfRow(PKColumns(t), rows[pk]) == pk
  }

  function ApplyStep(t: Table, rows: FullTable, step: RowStep): FullTable
    requires TableShape(t) && StepShape(t, step)
  {
    match step
    case InsertRow(row) => rows[KeyOfRow(PKColumns(t), row) := row]
    case UpdateRow(before, after) => (rows - {KeyOfRow(PKColumns(t), before)})[KeyOfRow(PKColumns(t), after) := after]
    case DeleteRow(row) => rows - {KeyOfRow(PKColumns(t), row)}
  }

  function ApplySteps(t: Table, rows: FullTable, steps: seq<RowStep>): FullTable
    requires TableShape(t) && StepsShape(t, steps)
  {
    if steps == [] then rows else ApplyStep(t, ApplySteps(t, rows, Front(steps)), Last(steps))
  }

  /** The step is what row-based replication writes when `rows` is the table just before it. */
  ghost predicate StepFits(t: Table, rows: FullTable, step: RowStep) {
    && TableShape(t) && StepShape(t, step)
    && match step
       case InsertRow(row) => KeyOfRow(PKColumns(t), row) !in rows
       case DeleteRow(row) =>
         KeyOfRow(PKColumns(t), row) in rows && rows[KeyOfRow(PKColumns(t), row)] == row
       case UpdateRow(before, after) =>
         var key, newKey := KeyOfRow(PKColumns(t), before), KeyOfRow(PKColumns(t), after);
         key in rows && rows[key] == before && (newKey == key || newKey !in rows)
  }

  ghost predicate StepsFit(t: Table, rows: FullTable, steps: seq<RowStep>) {
    && TableShape(t) && StepsShape(t, steps)
    && (steps == [] ||
        (StepsFit(t, rows, Front(steps)) && StepFits(t, ApplySteps(t, rows, Front(steps)), Last(steps))))
  }

  /** The rows of one document, filtered to the indexed columns. */
  ghost function DocView(r: IngestRule, t: Table, idCol: nat, rows: FullTable, d: DocID): TableRows
    requires Distinct(t.columns) && RowsFit(rows, |t.columns|) && idCol < |t.columns|
  {
    map pk | pk in rows && CoerceToUint64(rows[pk][idCol]) == Ok(d) :: FilterRow(t.columns, r.columnMap, rows[pk])
  }

  function ForDoc(changes: seq<TableRowChange>, d: DocID): seq<TableRowChange> {
    if changes == [] then []
    else ForDoc(Front(changes), d) + if Last(changes).docID == d then [Last(changes)] else []
  }

  /** When the emitted changes of an update describe it correctly: a NULL new id stands for the document the
      rule keeps the row in, and a row that stays with its document keeps its key. */
  ghost predicate UpdateIsTracked(t: Table, idCol: nat, before: Row, after: Row)
    requires TableShape(t) && |before| == |after| == |t.columns| && idCol < |t.columns|
  {
    && (after[idCol] == Null ==> CoerceToUint64(before[idCol]) == Ok(0))
    && (UpdatedDoc(idCol, before, after) == CoerceToUint64(before[idCol]) ==>
          KeyOfRow(PKColumns(t), before) == KeyOfRow(PKColumns(t), after))
  }

  ghost predicate StepIsTracked(t: Table, idCol: nat, step: RowStep)
    requires TableShape(t) && StepShape(t, step) && idCol < |t.columns|
  {
    step.UpdateRow? ==> UpdateIsTracked(t, idCol, step.before, step.after)
  }

  lemma ApplyStepFits(t: Table, rows: FullTable, step: RowStep)
    requires FullTableFits(t, rows) && StepShape(t, step)
    ensures FullTableFits(t, ApplyStep(t, rows, step))
  {
  }

  lemma {:induction false} ApplyStepsFits(t: Table, rows: FullTable, steps: seq<RowStep>)
    requires FullTableFits(t, rows) && StepsShape(t, steps)
    ensures FullTableFits(t, ApplySteps(t, rows, steps))
  {
    if steps != [] {
      ApplyStepsFits(t, rows, Front(steps));
    }
  }

  /* ---------- routing refines replay ---------- */

  lemma {:induction false} ForDocAppend(a: seq<TableRowChange>, b: seq<TableRowChange>, d: DocID)
    ensures ForDoc(a + b, d) == ForDoc(a, d) + ForDoc(b, d)
  {
    if b == [] {
      assert a + b == a;
    } else {
      assert Front(a + b) == a + Front(b);
      ForDocAppend(a, Front(b), d);
    }
  }

  lemma {:induction false} HistoryAppend(rows: TableRows, a: seq<TableRowChange>, b: seq<TableRowChange>, width: nat)
    ensures ReplayRows(rows, a + b) == ReplayRows(ReplayRows(rows, a), b)
    ensures HistoryFits(rows, a + b, width) <==>
            HistoryFits(rows, a, width) && HistoryFits(ReplayRows(rows, a), b, width)
  {
    if b == [] {
      assert a + b == a;
    } else {
      hide ApplyRowChange, ChangeFits;
      assert Front(a + b) == a + Front(b);
      HistoryAppend(rows, a, Front(b), width);
    }
  }

  lemma ForDocOne(c: TableRowChange, d: DocID)
    ensures ForDoc([c], d) == if c.docID == d then [c] else []
  {
    assert Front([c]) == [];
  }

  lemma ReplayOne(rows: TableRows, c: TableRowChange)
    ensures ReplayRows(rows, [c]) == ApplyRowChange(rows, c)
  {
    assert Front([c]) == [];
  }

  lemma OneChangeFits(rows: TableRows, c: TableRowChange, width: nat)
    ensures HistoryFits(rows, [c], width) <==> ChangeFits(rows, c, width)
  {
    assert Front([c]) == [];
  }

  /** The changes a step sends to one document. */
  function StepForDoc(r: IngestRule, t: Table, idCol: nat, step: RowStep, now: int, d: DocID): seq<TableRowChange>
    requires TableShape(t) && StepShape(t, step) && idCol < |t.columns|
    requires StepChanges(r, t, idCol, step, now).Ok?
  {
    ForDoc(StepChanges(r, t, idCol, step, now).value, d)
  }

  lemma MoveForDoc(a: TableRowChange, b: TableRowChange, d: DocID)
    requires a.docID != b.docID
    ensures ForDoc([a, b], d) == if a.docID == d then [a] else if b.docID == d then [b] else []
  {
    assert [a, b] == [a] + [b];
    hide ForDoc;
    ForDocAppend([a], [b], d);
    ForDocOne(a, d);
    ForDocOne(b, d);
  }

  /** Restricting after the step equals replaying the step's changes for the document after restricting. */
  ghost predicate StepRefines(r: IngestRule, t: Table, idCol: nat, rows: FullTable, step: RowStep,
                              changes: seq<TableRowChange>, d: DocID)
    requires TableShape(t) && RowsFit(rows, |t.columns|) && StepShape(t, step) && idCol < |t.columns|
  {
    && HistoryFits(DocView(r, t, idCol, rows, d), ForDoc(changes, d), |r.columnMap|)
    && ReplayRows(DocView(r, t, idCol, rows, d), ForDoc(changes, d)) == DocView(r, t, idCol, ApplyStep(t, rows, step), d)
  }

  lemma ViewAt(r: IngestRule, t: Table, idCol: nat, rows: FullTable, key: PrimaryKey, d: DocID)
    requires Distinct(t.columns) && RowsFit(rows, |t.columns|) && idCol < |t.columns|
    ensures key in DocView(r, t, idCol, rows, d) <==> key in rows && CoerceToUint64(rows[key][idCol]) == Ok(d)
    ensures key in DocView(r, t, idCol, rows, d) ==>
              DocView(r, t, idCol, rows, d)[key] == FilterRow(t.columns, r.columnMap, rows[key])
  {
  }

  lemma ViewAfterOwnPut(r: IngestRule, t: Table, idCol: nat, rows: FullTable, key: PrimaryKey, row: Row, d: DocID)
    requires Distinct(t.columns) && RowsFit(rows, |t.columns|) && |row| == |t.columns| && idCol < |t.columns|
    requires CoerceToUint64(row[idCol]) == Ok(d)
    ensures DocView(r, t, idCol, rows[key := row], d)
         == DocView(r, t, idCol, rows, d)[key := FilterRow(t.columns, r.columnMap, row)]
  {
    hide FilterRow, CoerceToUint64;
  }

  lemma ViewAfterOtherPut(r: IngestRule, t: Table, idCol: nat, rows: FullTable, key: PrimaryKey, row: Row, d: DocID)
    requires Distinct(t.columns) && RowsFit(rows, |t.columns|) && |row| == |t.columns| && idCol < |t.columns|
    requires CoerceToUint64(row[idCol]) != Ok(d)
    ensures DocView(r, t, idCol, rows[key := row], d) == DocView(r, t, idCol, rows, d) - {key}
  {
    hide FilterRow, CoerceToUint64;
  }

  lemma ViewAfterPut(r: IngestRule, t: Table, idCol: nat, rows: FullTable, key: PrimaryKey, row: Row, d: DocID, id: DocID)
    requires Distinct(t.columns) && RowsFit(rows, |t.columns|) && |row| == |t.columns| && idCol < |t.columns|
    requires CoerceToUint64(row[idCol]) == Ok(id)
    ensures DocView(r, t, idCol, rows[key := row], d)
         == if id == d then DocView(r, t, idCol, rows, d)[key := FilterRow(t.columns, r.columnMap, row)]
            else DocView(r, t, idCol, rows, d) - {key}
  {
    hide FilterRow, CoerceToUint64, DocView;
    if id == d {
      ViewAfterOwnPut(r, t, idCol, rows, key, row, d);
    } else {
      ViewAfterOtherPut(r, t, idCol, rows, key, row, d);
    }
  }

  lemma ViewAfterDrop(r: IngestRule, t: Table, idCol: nat, rows: FullTable, key: PrimaryKey, d: DocID)
    requires Distinct(t.columns) && RowsFit(rows, |t.columns|) && idCol < |t.columns|
    ensures DocView(r, t, idCol, rows - {key}, d) == DocView(r, t, idCol, rows, d) - {key}
  {
  }

  /** Replaying the changes of one step for a document: at most one of them is addressed to it. */
  lemma OneChangeRefines(view: TableRows, next: TableRows, c: TableRowChange, d: DocID, width: nat)
    requires c.docID == d ==> ChangeFits(view, c, width) && next == ApplyRowChange(view, c)
    requires c.docID != d ==> next == view
    ensures HistoryFits(view, ForDoc([c], d), width) && ReplayRows(view, ForDoc([c], d)) == next
  {
    NoChange(view, width);
    hide ForDoc, ReplayRows, HistoryFits, ChangeFits, ApplyRowChange;
    ForDocOne(c, d);
    ReplayOne(view, c);
    OneChangeFits(view, c, width);
  }

  lemma NoChange(view: TableRows, width: nat)
    ensures HistoryFits(view, [], width) && ReplayRows(view, []) == view
  {
  }

  lemma TwoChangesRefine(view: TableRows, next: TableRows, a: TableRowChange, b: TableRowChange, d: DocID, width: nat)
    requires a.docID != b.docID
    requires a.docID == d ==> ChangeFits(view, a, width) && next == ApplyRowChange(view, a)
    requires b.docID == d ==> ChangeFits(view, b, width) && next == ApplyRowChange(view, b)
    requires a.docID != d && b.docID != d ==> next == view
    ensures HistoryFits(view, ForDoc([a, b], d), width) && ReplayRows(view, ForDoc([a, b], d)) == next
  {
    NoChange(view, width);
    hide ForDoc, ReplayRows, HistoryFits, ChangeFits, ApplyRowChange;
    MoveForDoc(a, b, d);
    ReplayOne(view, a);
    ReplayOne(view, b);
    OneChangeFits(view, a, width);
    OneChangeFits(view, b, width);
  }

  lemma InsertRefines(r: IngestRule, t: Table, idCol: nat, rows: FullTable, row: Row, now: int, d: DocID, id: DocID)
    requires FullTableFits(t, rows) && StepFits(t, rows, InsertRow(row)) && idCol < |t.columns|
    requires CoerceToUint64(row[idCol]) == Ok(id)
    ensures StepRefines(r, t, idCol, rows, InsertRow(row), [InsertedChange(r, t, id, row, now)], d)
  {
    hide FilterRow, FilterNames, CoerceToUint64, DocView, HistoryFits, ReplayRows, ForDoc;
    var view, key := DocView(r, t, idCol, rows, d), KeyOfRow(PKColumns(t), row);
    ViewAfterPut(r, t, idCol, rows, key, row, d, id);
    ViewAt(r, t, idCol, rows, key, d);
    assert view - {key} == view;
    OneChangeRefines(view, DocView(r, t, idCol, rows[key := row], d), InsertedChange(r, t, id, row, now), d, |r.columnMap|);
  }

  lemma DeleteRefines(r: IngestRule, t: Table, idCol: nat, rows: FullTable, row: Row, now: int, d: DocID, id: DocID)
    requires FullTableFits(t, rows) && StepFits(t, rows, DeleteRow(row)) && idCol < |t.columns|
    requires CoerceToUint64(row[idCol]) == Ok(id)
    ensures StepRefines(r, t, idCol, rows, DeleteRow(row), [DeletedChange(r, t, id, row, now)], d)
  {
    hide FilterRow, FilterNames, CoerceToUint64, DocView, HistoryFits, ReplayRows, ForDoc;
    var view, key := DocView(r, t, idCol, rows, d), KeyOfRow(PKColumns(t), row);
    ViewAfterDrop(r, t, idCol, rows, key, d);
    ViewAt(r, t, idCol, rows, key, d);
    if id != d {
      assert view - {key} == view;
    }
    OneChangeRefines(view, DocView(r, t, idCol, rows - {key}, d), DeletedChange(r, t, id, row, now), d, |r.columnMap|);
  }

  lemma StayRefines(r: IngestRule, t: Table, idCol: nat, rows: FullTable, before: Row, after: Row, now: int,
                    d: DocID, id: DocID)
    requires FullTableFits(t, rows) && StepFits(t, rows, UpdateRow(before, after)) && idCol < |t.columns|
    requires CoerceToUint64(before[idCol]) == CoerceToUint64(after[idCol]) == Ok(id)
    requires KeyOfRow(PKColumns(t), before) == KeyOfRow(PKColumns(t), after)
    ensures StepRefines(r, t, idCol, rows, UpdateRow(before, after), [UpdatedChange(r, t, id, before, after, now)], d)
  {
    hide FilterRow, FilterNames, CoerceToUint64, DocView, HistoryFits, ReplayRows, ForDoc;
    var view, key := DocView(r, t, idCol, rows, d), KeyOfRow(PKColumns(t), before);
    assert (rows - {key})[key := after] == rows[key := after];
    ViewAfterPut(r, t, idCol, rows, key, after, d, id);
    ViewAt(r, t, idCol, rows, key, d);
    if id != d {
      assert view - {key} == view;
    }
    OneChangeRefines(view, DocView(r, t, idCol, rows[key := after], d), UpdatedChange(r, t, id, before, after, now), d,
                     |r.columnMap|);
  }

  lemma MoveRefines(r: IngestRule, t: Table, idCol: nat, rows: FullTable, before: Row, after: Row, now: int,
                    d: DocID, oldID: DocID, newID: DocID)
    requires FullTableFits(t, rows) && StepFits(t, rows, UpdateRow(before, after)) && idCol < |t.columns|
    requires CoerceToUint64(before[idCol]) == Ok(oldID) && CoerceToUint64(after[idCol]) == Ok(newID) && oldID != newID
    ensures StepRefines(r, t, idCol, rows, UpdateRow(before, after),
                        [DeletedChange(r, t, oldID, before, now), InsertedChange(r, t, newID, after, now)], d)
  {
    hide FilterRow, FilterNames, CoerceToUint64, DocView, HistoryFits, ReplayRows, ForDoc;
    var view, key := DocView(r, t, idCol, rows, d), KeyOfRow(PKColumns(t), before);
    var newKey := KeyOfRow(PKColumns(t), after);
    ViewAfterDrop(r, t, idCol, rows, key, d);
    ViewAfterPut(r, t, idCol, rows - {key}, newKey, after, d, newID);
    ViewAt(r, t, idCol, rows, key, d);
    ViewAt(r, t, idCol, rows, newKey, d);
    MovedView(view, key, newKey);
    TwoChangesRefine(view, DocView(r, t, idCol, (rows - {key})[newKey := after], d),
                     DeletedChange(r, t, oldID, before, now), InsertedChange(r, t, newID, after, now), d, |r.columnMap|);
  }

  lemma MovedView(view: TableRows, key: PrimaryKey, newKey: PrimaryKey)
    ensures key !in view ==> view - {key} == view
    ensures newKey !in view - {key} ==> view - {key} - {newKey} == view - {key}
  {
  }

  /** One tracked step: the changes sent to any document describe what happened to its rows. */
  lemma StepRefinesReplay(r: IngestRule, t: Table, idCol: nat, rows: FullTable, step: RowStep, now: int, d: DocID)
    requires FullTableFits(t, rows) && StepFits(t, rows, step) && idCol < |t.columns|
    requires StepIsTracked(t, idCol, step)
    requires StepChanges(r, t, idCol, step, now).Ok?
    ensures StepRefines(r, t, idCol, rows, step, StepChanges(r, t, idCol, step, now).value, d)
  {
    match step
    case InsertRow(row) =>
      InsertRefines(r, t, idCol, rows, row, now, d, CoerceToUint64(row[idCol]).value);
    case DeleteRow(row) =>
      DeleteRefines(r, t, idCol, rows, row, now, d, CoerceToUint64(row[idCol]).value);
    case UpdateRow(before, after) =>
      var oldID, newID := CoerceToUint64(before[idCol]).value, UpdatedDoc(idCol, before, after).value;
      if oldID == newID {
        StayRefines(r, t, idCol, rows, before, after, now, d, oldID);
      } else {
        MoveRefines(r, t, idCol, rows, before, after, now, d, oldID, newID);
      }
  }

  ghost predicate StepsAreTracked(t: Table, idCol: nat, steps: seq<RowStep>)
    requires TableShape(t) && StepsShape(t, steps) && idCol < |t.columns|
  {
    forall k :: 0 <= k < |steps| ==> StepIsTracked(t, idCol, steps[k])
  }

  /** Routing refines table replay. Applying all rows of an event to the table and then restricting to the rows
      of any document equals restricting first and then applying, in order, the changes emitted for that
      document; and those changes are a well-formed history of it. Rows that move between documents and
      events with many rows are included. */
  lemma {:induction false} RoutingRefinesReplay(r: IngestRule, t: Table, idCol: nat, rows: FullTable,
                                                steps: seq<RowStep>, now: int, d: DocID)
    requires FullTableFits(t, rows) && StepsFit(t, rows, steps) && idCol < |t.columns|
    requires StepsAreTracked(t, idCol, steps)
    requires EmitSteps(r, t, idCol, steps, now).Ok?
    ensures FullTableFits(t, ApplySteps(t, rows, steps))
    ensures var sent := ForDoc(EmitSteps(r, t, idCol, steps, now).value, d);
            && HistoryFits(DocView(r, t, idCol, rows, d), sent, |r.columnMap|)
            && ReplayRows(DocView(r, t, idCol, rows, d), sent)
               == DocView(r, t, idCol, ApplySteps(t, rows, steps), d)
  {
    ApplyStepsFits(t, rows, steps);
    if steps == [] {
      assert ForDoc([], d) == [];
    } else {
      var prior, step := Front(steps), Last(steps);
      RoutingRefinesReplay(r, t, idCol, rows, prior, now, d);
      var mid := ApplySteps(t, rows, prior);
      StepRefinesReplay(r, t, idCol, mid, step, now, d);
      var sent, more := EmitSteps(r, t, idCol, prior, now).value, StepChanges(r, t, idCol, step, now).value;
      ForDocAppend(sent, more, d);
      HistoryAppend(DocView(r, t, idCol, rows, d), ForDoc(sent, d), ForDoc(more, d), |r.columnMap|);
    }
  }

  /** Exactly when the changes of one update describe it to every document. */
  lemma UpdateRefinesReplayIff(r: IngestRule, t: Table, idCol: nat, rows: FullTable, before: Row, after: Row, now: int)
    requires FullTableFits(t, rows) && StepFits(t, rows, UpdateRow(before, after)) && idCol < |t.columns|
    requires StepChanges(r, t, idCol, UpdateRow(before, after), now).Ok?
    ensures FullTableFits(t, ApplyStep(t, rows, UpdateRow(before, after)))
    ensures (forall d :: ReplayRows(DocView(r, t, idCol, rows, d), StepForDoc(r, t, idCol, UpdateRow(before, after), now, d))
                      == DocView(r, t, idCol, ApplyStep(t, rows, UpdateRow(before, after)), d))
            <==> UpdateIsTracked(t, idCol, before, after)
  {
    var step := UpdateRow(before, after);
    ApplyStepFits(t, rows, step);
    if UpdateIsTracked(t, idCol, before, after) {
      forall d ensures ReplayRows(DocView(r, t, idCol, rows, d), StepForDoc(r, t, idCol, step, now, d))
                    == DocView(r, t, idCol, ApplyStep(t, rows, step), d)
      {
        StepRefinesReplay(r, t, idCol, rows, step, now, d);
      }
    } else {
      var d := CoerceToUint64(before[idCol]).value;
      UntrackedUpdateIsMisread(r, t, idCol, rows, before, after, now, d);
    }
  }

  /** What an untracked update emits: one change, of the old key in the old document. */
  lemma UntrackedEmitsUpdate(r: IngestRule, t: Table, idCol: nat, before: Row, after: Row, now: int, d: DocID)
    requires TableShape(t) && |before| == |after| == |t.columns| && idCol < |t.columns|
    requires StepChanges(r, t, idCol, UpdateRow(before, after), now).Ok?
    requires !UpdateIsTracked(t, idCol, before, after) && CoerceToUint64(before[idCol]) == Ok(d)
    ensures StepForDoc(r, t, idCol, UpdateRow(before, after), now, d) == [UpdatedChange(r, t, d, before, after, now)]
  {
    hide KeyOfRow, FilterRow, FilterNames, PKColumns;
    ForDocOne(UpdatedChange(r, t, d, before, after, now), d);
    hide ForDoc;
  }

  lemma UntrackedRowIsGone(t: Table, idCol: nat, rows: FullTable, before: Row, after: Row, d: DocID)
    requires TableShape(t) && |before| == |after| == |t.columns| && idCol < |t.columns|
    requires StepShape(t, UpdateRow(before, after))
    requires !UpdateIsTracked(t, idCol, before, after) && CoerceToUint64(before[idCol]) == Ok(d)
    ensures var key, left := KeyOfRow(PKColumns(t), before), ApplyStep(t, rows, UpdateRow(before, after));
            key in left ==> left[key] == after && CoerceToUint64(after[idCol]) != Ok(d)
  {
    hide KeyOfRow, PKColumns;
  }

  /** An untracked update leaves the row under its old key in its old document, where it no longer is. */
  lemma UntrackedUpdateIsMisread(r: IngestRule, t: Table, idCol: nat, rows: FullTable, before: Row, after: Row,
                                 now: int, d: DocID)
    requires FullTableFits(t, rows) && StepFits(t, rows, UpdateRow(before, after)) && idCol < |t.columns|
    requires StepChanges(r, t, idCol, UpdateRow(before, after), now).Ok?
    requires !UpdateIsTracked(t, idCol, before, after) && CoerceToUint64(before[idCol]) == Ok(d)
    ensures FullTableFits(t, ApplyStep(t, rows, UpdateRow(before, after)))
    ensures ReplayRows(DocView(r, t, idCol, rows, d), StepForDoc(r, t, idCol, UpdateRow(before, after), now, d))
         != DocView(r, t, idCol, ApplyStep(t, rows, UpdateRow(before, after)), d)
  {
    ApplyStepFits(t, rows, UpdateRow(before, after));
    hide KeyOfRow, FilterRow, FilterNames, PKColumns, DocView, ApplyStep, StepForDoc, StepChanges, UpdateIsTracked,
      CoerceToUint64, ReplayRows;
    var key, left := KeyOfRow(PKColumns(t), before), ApplyStep(t, rows, UpdateRow(before, after));
    var c := UpdatedChange(r, t, d, before, after, now);
    UntrackedEmitsUpdate(r, t, idCol, before, after, now, d);
    ReplayOne(DocView(r, t, idCol, rows, d), c);
    UntrackedRowIsGone(t, idCol, rows, before, after, d);
    ViewAt(r, t, idCol, left, key, d);
    assert key in ReplayRows(DocView(r, t, idCol, rows, d), [c]);
  }
}
