/** What a rule reads from a row (river/rule.go, util/coerce.go): the id column by its name, the document id by its value, the
    key by its columns, and every mapped column; so that what is said of filtered rows holds of the rows themselves. */
module Relevance {
  import opened Types
  import opened Decimal
  import opened ChangeSet
  import opened Rule
  import opened Sync
  import opened Pipeline

  /* ---------- the id column ---------- */

  /** The first column of that name, if there is one. */
  lemma {:induction false} IndexOfIs(names: seq<string>, name: string)
    ensures IndexOf(names, name).None? <==> name !in names
    ensures IndexOf(names, name).Some? ==>
              var i := IndexOf(names, name).value;
              i < |names| && names[i] == name && forall k :: 0 <= k < i ==> names[k] != name
  {
    if names != [] {
      IndexOfIs(Front(names), name);
      assert names == Front(names) + [Last(names)];
    }
  }

  /* ---------- document ids ---------- */

  lemma {:induction false} DigitsAreBounded(n: nat)
    ensures ParseUint64(PrintNat(n)) == if n < UINT64_RANGE then Ok(n) else Err
  {
    PrintedValue(n);
    assert forall k :: 0 <= k < |PrintNat(n)| ==> IsDigit(PrintNat(n)[k]);
    hide PrintNat;
  }

  /** A number that fits is its own document id, whether it comes as a number or printed; anything that is not a number does
      not have one. */
  lemma DocumentIDIsValue(n: nat, s: string)
    ensures n < UINT64_RANGE ==> CoerceToUint64(Num(n)) == Ok(n) && CoerceToUint64(Text(PrintNat(n))) == Ok(n)
    ensures n >= UINT64_RANGE ==> CoerceToUint64(Text(PrintNat(n))).Err?
    ensures s == [] || (exists k :: 0 <= k < |s| && !IsDigit(s[k])) ==> CoerceToUint64(Text(s)).Err?
  {
    DigitsAreBounded(n);
    NotDigitsIsError(s);
    hide ParseUint64, PrintNat, DecimalValue;
  }

  lemma NotDigitsIsError(s: string)
    ensures s == [] || (exists k :: 0 <= k < |s| && !IsDigit(s[k])) ==> ParseUint64(s).Err?
  {
    hide DecimalValue;
  }

  /* ---------- keys ---------- */

  /** Two rows have the same key if and only if they agree in every key column. */
  lemma SameKeyIff(at: seq<nat>, a: Row, b: Row)
    requires Indexable(at, a) && Indexable(at, b)
    ensures KeyOfRow(at, a) == KeyOfRow(at, b) <==> forall k :: 0 <= k < |at| ==> a[at[k]] == b[at[k]]
  {
    if KeyOfRow(at, a) == KeyOfRow(at, b) {
      forall k | 0 <= k < |at| ensures a[at[k]] == b[at[k]] {
        assert KeyOfRow(at, a).value[k] == a[at[k]] && KeyOfRow(at, b).value[k] == b[at[k]];
      }
    }
  }

  lemma DeclaredKeyDecides(t: Table, a: Row, b: Row)
    requires TableShape(t) && t.pkColumns != [] && |a| == |b| == |t.columns|
    ensures KeyOfRow(PKColumns(t), a) == KeyOfRow(PKColumns(t), b)
        <==> forall k :: 0 <= k < |t.pkColumns| ==> a[t.pkColumns[k]] == b[t.pkColumns[k]]
  {
    SameKeyIff(t.pkColumns, a, b);
    hide KeyOfRow;
  }

  /** Without a declared key, rows of the same width with the same key are the same row. */
  lemma NoKeyIsWholeRow(t: Table, a: Row, b: Row)
    requires TableShape(t) && t.pkColumns == [] && |a| == |b| == |t.columns|
    ensures KeyOfRow(PKColumns(t), a) == KeyOfRow(PKColumns(t), b) <==> a == b
  {
    var at := PKColumns(t);
    SameKeyIff(at, a, b);
    hide KeyOfRow;
    if KeyOfRow(at, a) == KeyOfRow(at, b) {
      forall k | 0 <= k < |a| ensures a[k] == b[k] {
        assert at[k] == k;
      }
    }
  }

  /* ---------- what an event does to a table ---------- */

  /** Inserted rows are put under their keys, deleted ones removed; an update removes the row before and puts the row after. */
  function ApplyRows(t: Table, rows: FullTable, action: Action, changed: seq<Row>): FullTable
    requires TableShape(t) && forall k :: 0 <= k < |changed| ==> |changed[k]| == |t.columns|
  {
    if changed == [] then rows
    else
      match action
      case InsertAction => ApplyRows(t, rows, action, Front(changed))[KeyOfRow(PKColumns(t), Last(changed)) := Last(changed)]
      case DeleteAction => ApplyRows(t, rows, action, Front(changed)) - {KeyOfRow(PKColumns(t), Last(changed))}
      case UpdateAction =>
        var n := |changed|;
        if n % 2 == 1 then ApplyRows(t, rows, action, Front(changed))
        else (ApplyRows(t, rows, action, changed[..n - 2]) - {KeyOfRow(PKColumns(t), changed[n - 2])})
               [KeyOfRow(PKColumns(t), changed[n - 1]) := changed[n - 1]]
  }

  lemma LastStep(e: RowsEvent, less: RowsEvent, step: RowStep)
    requires e.rows != [] && less.action == e.action && less.table == e.table
    requires match e.action
             case InsertAction => less.rows == Front(e.rows) && step == InsertRow(Last(e.rows))
             case DeleteAction => less.rows == Front(e.rows) && step == DeleteRow(Last(e.rows))
             case UpdateAction => |e.rows| >= 2 && |e.rows| % 2 == 0 && less.rows == e.rows[..|e.rows| - 2] &&
                                  step == UpdateRow(e.rows[|e.rows| - 2], e.rows[|e.rows| - 1])
    ensures StepsOf(e) == StepsOf(less) + [step]
  {
    assert |StepsOf(e)| == |StepsOf(less)| + 1;
  }

  lemma OneMoreStep(t: Table, rows: FullTable, steps: seq<RowStep>, step: RowStep)
    requires TableShape(t) && StepsShape(t, steps) && StepShape(t, step)
    ensures StepsShape(t, steps + [step])
    ensures ApplySteps(t, rows, steps + [step]) == ApplyStep(t, ApplySteps(t, rows, steps), step)
  {
    assert Front(steps + [step]) == steps;
    hide ApplyStep, TableShape, StepShape;
  }

  /** The steps that an event is read as do to the table what its rows do. */
  lemma {:induction false} StepsApplyRows(e: RowsEvent, rows: FullTable)
    requires EventShape(e)
    ensures StepsShape(e.table, StepsOf(e))
    ensures ApplySteps(e.table, rows, StepsOf(e)) == ApplyRows(e.table, rows, e.action, e.rows)
    decreases |e.rows|
  {
    hide KeyOfRow, PKColumns, StepsOf, ApplySteps, TableShape, Distinct;
    var n := |e.rows|;
    if n == 0 {
      NoStep(e, rows);
    } else if e.action.UpdateAction? && n % 2 == 0 {
      var less, step := e.(rows := e.rows[..n - 2]), UpdateRow(e.rows[n - 2], e.rows[n - 1]);
      StepsApplyRows(less, rows);
      LastStep(e, less, step);
      OneMoreStep(e.table, rows, StepsOf(less), step);
    } else {
      var less := e.(rows := Front(e.rows));
      StepsApplyRows(less, rows);
      if e.action.UpdateAction? {
        OddRow(e, less);
      } else {
        var step := if e.action.InsertAction? then InsertRow(Last(e.rows)) else DeleteRow(Last(e.rows));
        LastStep(e, less, step);
        OneMoreStep(e.table, rows, StepsOf(less), step);
      }
    }
  }

  lemma NoStep(e: RowsEvent, rows: FullTable)
    requires EventShape(e) && e.rows == []
    ensures StepsOf(e) == [] && ApplySteps(e.table, rows, []) == rows
  {
  }

  lemma OddRow(e: RowsEvent, less: RowsEvent)
    requires e.action.UpdateAction? && |e.rows| % 2 == 1 && less == e.(rows := Front(e.rows))
    ensures StepsOf(e) == StepsOf(less)
  {
  }

  /* ---------- mapped columns ---------- */

  /** Where a mapped column goes: after the mapped columns before it. */
  function PlaceOf(columns: seq<string>, columnMap: ColumnMap, k: nat): nat
    requires k <= |columns|
  {
    |KeptColumns(columns[..k], columnMap)|
  }

  lemma {:induction false} KeptAt(columns: seq<string>, columnMap: ColumnMap, row: Row, k: nat)
    requires k < |columns| <= |row| && columns[k] in columnMap
    ensures PlaceOf(columns, columnMap, k) < |KeptColumns(columns, columnMap)|
    ensures KeptColumns(columns, columnMap)[PlaceOf(columns, columnMap, k)] == columns[k]
    ensures KeptValues(columns, columnMap, row)[PlaceOf(columns, columnMap, k)] == row[k]
  {
    if k == |columns| - 1 {
      assert columns[..k] == Front(columns);
    } else {
      assert columns[..k] == Front(columns)[..k];
      KeptAt(Front(columns), columnMap, row, k);
    }
  }

  lemma {:induction false} KeptFrom(columns: seq<string>, columnMap: ColumnMap, j: nat) returns (k: nat)
    requires j < |KeptColumns(columns, columnMap)|
    ensures k < |columns| && columns[k] in columnMap && PlaceOf(columns, columnMap, k) == j
  {
    if j < |KeptColumns(Front(columns), columnMap)| {
      k := KeptFrom(Front(columns), columnMap, j);
      assert columns[..k] == Front(columns)[..k];
    } else {
      k := |columns| - 1;
      assert columns[..k] == Front(columns);
    }
  }

  /** Every mapped column is kept, under its name and with its value. */
  lemma MappedIsKept(columns: seq<string>, columnMap: ColumnMap, row: Row, k: nat)
    requires Distinct(columns) && |columns| == |row| && k < |columns| && columns[k] in columnMap
    ensures var j := PlaceOf(columns, columnMap, k);
            && j < |columnMap| && FilterNames(columns, columnMap)[j] == columns[k]
            && FilterRow(columns, columnMap, row)[j] == row[k]
  {
    KeptIsBounded(columns, columnMap);
    KeptAt(columns, columnMap, row, k);
    hide KeptColumns, KeptValues;
  }

  /** Every kept position is that of a mapped column, and the rest is padding. */
  lemma KeptIsMapped(columns: seq<string>, columnMap: ColumnMap, row: Row, j: nat)
    requires Distinct(columns) && |columns| == |row| && j < |columnMap|
    ensures (exists k :: 0 <= k < |columns| && columns[k] in columnMap && PlaceOf(columns, columnMap, k) == j)
            || (|KeptColumns(columns, columnMap)| <= j
                && FilterNames(columns, columnMap)[j] == "" && FilterRow(columns, columnMap, row)[j] == Null)
  {
    KeptIsBounded(columns, columnMap);
    if j < |KeptColumns(columns, columnMap)| {
      var k := KeptFrom(columns, columnMap, j);
    }
    hide KeptColumns, KeptValues, PlaceOf;
  }

  /* ---------- the table columns that feed a field ---------- */

  /** The columns of a table whose values feed an index field. */
  function FedBy(columns: seq<string>, columnMap: ColumnMap, attr: string): set<nat> {
    set k: nat | k < |columns| && columns[k] in columnMap && attr in columnMap[columns[k]]
  }

  function Filtered(columns: seq<string>, columnMap: ColumnMap): TableSchema
    requires Distinct(columns)
  {
    TableSchema(FilterNames(columns, columnMap), columnMap)
  }

  /** Each feeding column is at a feeding position of the filtered row. */
  lemma FeedingPlace(columns: seq<string>, columnMap: ColumnMap, attr: string, row: Row, k: nat)
    requires Distinct(columns) && |columns| == |row| && k in FedBy(columns, columnMap, attr)
    ensures PlaceOf(columns, columnMap, k) in Feeding(Filtered(columns, columnMap), attr)
    ensures PlaceOf(columns, columnMap, k) < |columnMap|
    ensures FilterRow(columns, columnMap, row)[PlaceOf(columns, columnMap, k)] == row[k]
  {
    MappedIsKept(columns, columnMap, row, k);
    hide PlaceOf, FilterNames, FilterRow;
  }

  /** Each feeding position is that of a feeding column, or padding. */
  lemma FeedingColumn(columns: seq<string>, columnMap: ColumnMap, attr: string, row: Row, j: nat)
    requires Distinct(columns) && |columns| == |row| && j in Feeding(Filtered(columns, columnMap), attr)
    ensures j < |columnMap|
    ensures (exists k :: k in FedBy(columns, columnMap, attr) && PlaceOf(columns, columnMap, k) == j)
            || (|KeptColumns(columns, columnMap)| <= j && FilterRow(columns, columnMap, row)[j] == Null)
  {
    KeptIsMapped(columns, columnMap, row, j);
    if k :| 0 <= k < |columns| && columns[k] in columnMap && PlaceOf(columns, columnMap, k) == j {
      MappedIsKept(columns, columnMap, row, k);
      assert k in FedBy(columns, columnMap, attr);
    }
    hide PlaceOf, FilterNames, FilterRow, KeptColumns;
  }

  lemma NotPadding(columns: seq<string>, columnMap: ColumnMap, row: Row, k: nat)
    requires k < |columns| <= |row| && columns[k] in columnMap
    ensures PlaceOf(columns, columnMap, k) < |KeptColumns(columns, columnMap)|
  {
    KeptAt(columns, columnMap, row, k);
  }

  /** Filtered rows agree on the feeding positions exactly when the rows agree on the feeding columns. */
  lemma SameProjectionIff(columns: seq<string>, columnMap: ColumnMap, attr: string, a: Row, b: Row)
    requires Distinct(columns) && |a| == |b| == |columns|
    ensures Project(FilterRow(columns, columnMap, a), Feeding(Filtered(columns, columnMap), attr))
         == Project(FilterRow(columns, columnMap, b), Feeding(Filtered(columns, columnMap), attr))
        <==> Project(a, FedBy(columns, columnMap, attr)) == Project(b, FedBy(columns, columnMap, attr))
  {
    var fa, fb := FilterRow(columns, columnMap, a), FilterRow(columns, columnMap, b);
    var at, from := Feeding(Filtered(columns, columnMap), attr), FedBy(columns, columnMap, attr);
    forall j | j in at ensures j < |columnMap| {
      FeedingColumn(columns, columnMap, attr, a, j);
    }
    assert forall k :: k in from ==> k < |columns|;
    SameProjectionMeans(fa, fb, at);
    SameProjectionMeans(a, b, from);
    hide Project, Feeding, FedBy, FilterRow, PlaceOf;
    if forall j :: j in at ==> fa[j] == fb[j] {
      forall k | k in from ensures a[k] == b[k] {
        FeedingPlace(columns, columnMap, attr, a, k);
        FeedingPlace(columns, columnMap, attr, b, k);
      }
    }
    if forall k :: k in from ==> a[k] == b[k] {
      forall j | j in at ensures fa[j] == fb[j] {
        SameAtPlace(columns, columnMap, attr, a, b, j);
      }
    }
  }

  lemma SameAtPlace(columns: seq<string>, columnMap: ColumnMap, attr: string, a: Row, b: Row, j: nat)
    requires Distinct(columns) && |a| == |b| == |columns| && j in Feeding(Filtered(columns, columnMap), attr)
    requires forall k :: k in FedBy(columns, columnMap, attr) ==> k < |columns| && a[k] == b[k]
    ensures j < |columnMap| && FilterRow(columns, columnMap, a)[j] == FilterRow(columns, columnMap, b)[j]
  {
    FeedingColumn(columns, columnMap, attr, a, j);
    FeedingColumn(columns, columnMap, attr, b, j);
    hide Feeding, FilterRow, PlaceOf, KeptColumns;
    if k :| k in FedBy(columns, columnMap, attr) && PlaceOf(columns, columnMap, k) == j {
      FeedingPlace(columns, columnMap, attr, a, k);
      FeedingPlace(columns, columnMap, attr, b, k);
    }
  }

  lemma SameProjectionMeans(a: Row, b: Row, at: set<nat>)
    requires forall j :: j in at ==> j < |a| && j < |b|
    ensures Project(a, at) == Project(b, at) <==> forall j :: j in at ==> a[j] == b[j]
  {
    if Project(a, at) == Project(b, at) {
      forall j | j in at ensures a[j] == b[j] {
        assert Project(a, at)[j] == a[j] && Project(b, at)[j] == b[j];
      }
    }
  }

  /** All feeding positions of a filtered row are NULL exactly when all feeding columns of the row are. */
  lemma AllNullIff(columns: seq<string>, columnMap: ColumnMap, attr: string, row: Row)
    requires Distinct(columns) && |row| == |columns|
    ensures AllNull(Project(FilterRow(columns, columnMap, row), Feeding(Filtered(columns, columnMap), attr)))
        <==> AllNull(Project(row, FedBy(columns, columnMap, attr)))
  {
    var f := FilterRow(columns, columnMap, row);
    var at, from := Feeding(Filtered(columns, columnMap), attr), FedBy(columns, columnMap, attr);
    forall j | j in at ensures j < |columnMap| {
      FeedingColumn(columns, columnMap, attr, row, j);
    }
    assert forall k :: k in from ==> k < |columns|;
    AllNullMeans(f, at);
    AllNullMeans(row, from);
    hide Project, Feeding, FedBy, FilterRow, PlaceOf, AllNull, KeptColumns;
    if forall j :: j in at ==> f[j] == Null {
      forall k | k in from ensures row[k] == Null {
        FeedingPlace(columns, columnMap, attr, row, k);
      }
    }
    if forall k :: k in from ==> row[k] == Null {
      forall j | j in at ensures f[j] == Null {
        FeedingColumn(columns, columnMap, attr, row, j);
        if k :| k in from && PlaceOf(columns, columnMap, k) == j {
          FeedingPlace(columns, columnMap, attr, row, k);
        }
      }
    }
  }

  lemma AllNullMeans(row: Row, at: set<nat>)
    requires forall j :: j in at ==> j < |row|
    ensures AllNull(Project(row, at)) <==> forall j :: j in at ==> row[j] == Null
  {
    if AllNull(Project(row, at)) {
      forall j | j in at ensures row[j] == Null {
        assert j in Project(row, at);
      }
    }
  }

  /* ---------- documents ---------- */

  /** The rows of a document, as the table has them. */
  ghost function DocTable(idCol: nat, rows: FullTable, width: nat, d: DocID): FullTable
    requires RowsFit(rows, width) && idCol < width
  {
    map pk | pk in rows && CoerceToUint64(rows[pk][idCol]) == Ok(d) :: rows[pk]
  }

  /** The filtered view of a document sees the same projections exactly when the document's rows do. */
  lemma SameRowsSeen(r: IngestRule, t: Table, idCol: nat, before: FullTable, after: FullTable, d: DocID, attr: string)
    requires Distinct(t.columns) && idCol < |t.columns|
    requires RowsFit(before, |t.columns|) && RowsFit(after, |t.columns|)
    requires Projections(DocView(r, t, idCol, before, d), Feeding(Filtered(t.columns, r.columnMap), attr))
          == Projections(DocView(r, t, idCol, after, d), Feeding(Filtered(t.columns, r.columnMap), attr))
    ensures Projections(DocTable(idCol, before, |t.columns|, d), FedBy(t.columns, r.columnMap, attr))
         == Projections(DocTable(idCol, after, |t.columns|, d), FedBy(t.columns, r.columnMap, attr))
  {
    SeenFrom(r, t, idCol, before, after, d, attr);
    SeenFrom(r, t, idCol, after, before, d, attr);
    hide Projections, DocView, DocTable;
  }

  lemma SeenFrom(r: IngestRule, t: Table, idCol: nat, before: FullTable, after: FullTable, d: DocID, attr: string)
    requires Distinct(t.columns) && idCol < |t.columns|
    requires RowsFit(before, |t.columns|) && RowsFit(after, |t.columns|)
    requires Projections(DocView(r, t, idCol, before, d), Feeding(Filtered(t.columns, r.columnMap), attr))
          <= Projections(DocView(r, t, idCol, after, d), Feeding(Filtered(t.columns, r.columnMap), attr))
    ensures Projections(DocTable(idCol, before, |t.columns|, d), FedBy(t.columns, r.columnMap, attr))
         <= Projections(DocTable(idCol, after, |t.columns|, d), FedBy(t.columns, r.columnMap, attr))
  {
    var at, from := Feeding(Filtered(t.columns, r.columnMap), attr), FedBy(t.columns, r.columnMap, attr);
    var rows, other := DocTable(idCol, before, |t.columns|, d), DocTable(idCol, after, |t.columns|, d);
    var view, otherView := DocView(r, t, idCol, before, d), DocView(r, t, idCol, after, d);
    hide Project, AllNull, Feeding, FedBy, FilterRow, Filtered, CoerceToUint64;
    forall p | p in Projections(rows, from) ensures p in Projections(other, from) {
      var pk :| pk in rows && !AllNull(Project(rows[pk], from)) && Project(rows[pk], from) == p;
      AllNullIff(t.columns, r.columnMap, attr, rows[pk]);
      assert pk in view && view[pk] == FilterRow(t.columns, r.columnMap, rows[pk]);
      assert Project(view[pk], at) in Projections(view, at);
      var twin :| twin in otherView && !AllNull(Project(otherView[twin], at)) &&
        Project(otherView[twin], at) == Project(view[pk], at);
      assert twin in other && otherView[twin] == FilterRow(t.columns, r.columnMap, other[twin]);
      SameProjectionIff(t.columns, r.columnMap, attr, rows[pk], other[twin]);
      AllNullIff(t.columns, r.columnMap, attr, other[twin]);
      assert Project(other[twin], from) == p;
    }
  }

  /** Nothing relevant is skipped, in terms of the tables themselves. Whatever row events hit the tables, and whatever rule feeds
      an index from a table: when a field is not reported as changed for a document, the rows of the table whose id column,
      found by its name, holds the document's id have the same projections onto the columns that feed the field. */
  lemma UnreportedRowsAreUnaffected(rules: seq<IngestRule>, tables: Tables, contents: Contents, events: seq<Arrival>, k: nat,
                                    idCol: nat, d: DocID, attr: string)
    requires SetupFits(rules, tables) && ContentsFit(tables, contents) && EventsFit(rules, tables, contents, events)
    requires k < |rules| && rules[k].tableName in tables
    requires idCol < |tables[rules[k].tableName].columns| && tables[rules[k].tableName].columns[idCol] == rules[k].docIDField
    ensures ContentsFit(tables, After(rules, tables, contents, events))
    ensures AllDiffsFit(PruneTables(DocFold(OfDoc(SentFor(rules, tables, contents, events), rules[k].index, d))))
    ensures attr !in ChangedAttrs(OfDoc(SentFor(rules, tables, contents, events), rules[k].index, d)) ==>
              RowsUnaffected(rules[k], tables[rules[k].tableName], idCol, contents[rules[k].tableName],
                             After(rules, tables, contents, events)[rules[k].tableName], d, attr)
  {
    var r := rules[k];
    var t := tables[r.tableName];
    hide SetupFits, ContentsFit, EventsFit, After, SentFor, OfDoc, SchemaOf, ViewOf, AllDiffsFit, PruneTables, DocFold,
      ChangedAttrs, SameField, RowsUnaffected;
    UnreportedFieldIsUnaffected(rules, tables, contents, events, r.index, d, attr);
    if attr !in ChangedAttrs(OfDoc(SentFor(rules, tables, contents, events), r.index, d)) {
      SeenByRule(rules, tables, contents, After(rules, tables, contents, events), k, idCol, d, attr);
    }
  }

  ghost predicate RowsUnaffected(r: IngestRule, t: Table, idCol: nat, before: FullTable, after: FullTable, d: DocID,
                                 attr: string)
  {
    && idCol < |t.columns| && RowsFit(before, |t.columns|) && RowsFit(after, |t.columns|)
    && Projections(DocTable(idCol, before, |t.columns|, d), FedBy(t.columns, r.columnMap, attr))
       == Projections(DocTable(idCol, after, |t.columns|, d), FedBy(t.columns, r.columnMap, attr))
  }

  lemma SeenByRule(rules: seq<IngestRule>, tables: Tables, before: Contents, after: Contents, k: nat, idCol: nat, d: DocID,
                   attr: string)
    requires SetupFits(rules, tables) && ContentsFit(tables, before) && ContentsFit(tables, after)
    requires k < |rules| && rules[k].tableName in tables
    requires idCol < |tables[rules[k].tableName].columns| && tables[rules[k].tableName].columns[idCol] == rules[k].docIDField
    requires SameField(SchemaOf(rules, tables, rules[k].index), ViewOf(rules, tables, before, rules[k].index, d),
                       ViewOf(rules, tables, after, rules[k].index, d), attr)
    ensures RowsUnaffected(rules[k], tables[rules[k].tableName], idCol, before[rules[k].tableName],
                           after[rules[k].tableName], d, attr)
  {
    var r := rules[k];
    var name := r.tableName;
    var t := tables[name];
    RuleAtIs(rules, k);
    RuleIsFit(rules, tables, r.index, name);
    IndexOfIs(t.columns, r.docIDField);
    assert IDColumn(r, tables) == idCol;
    assert FullTableFits(t, before[name]) && FullTableFits(t, after[name]);
    ViewFits(rules, tables, before, r.index, d, name);
    ViewFits(rules, tables, after, r.index, d, name);
    assert SchemaOf(rules, tables, r.index)[name] == Filtered(t.columns, r.columnMap);
    hide SetupFits, ContentsFit, Projections, Feeding, DocView, DocTable, FedBy, Filtered, RuleAt, IndexOf, FilterNames,
      SchemaOf, ViewOf;
    SameRowsSeen(r, t, idCol, before[name], after[name], d, attr);
  }
}
