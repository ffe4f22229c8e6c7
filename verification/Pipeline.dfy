/** From binlog rows to changed attributes: routing by all rules, over events on all tables, and change detection taken
    together. */
module Pipeline {
  import opened Types
  import opened ChangeSet
  import opened Rule
  import opened Sync

  type Tables = map<string, Table>

  /** The rows of every table. */
  type Contents = map<string, FullTable>

  /** A row event and the time at which it is routed. */
  datatype Arrival = Arrival(event: RowsEvent, now: int)

  /* ---------- rules ---------- */

  /** The rule that feeds an index from a table. */
  function RuleAt(rules: seq<IngestRule>, index: string, t: string): Option<IngestRule> {
    if rules == [] then None
    else if Last(rules).index == index && Last(rules).tableName == t then Some(Last(rules))
    else RuleAt(Front(rules), index, t)
  }

  /** No two rules feed the same index from the same table. */
  ghost predicate OneRuleEach(rules: seq<IngestRule>) {
    forall j, k :: 0 <= j < k < |rules| ==> rules[j].index != rules[k].index || rules[j].tableName != rules[k].tableName
  }

  lemma {:induction false} RuleAtIs(rules: seq<IngestRule>, k: nat)
    requires OneRuleEach(rules) && k < |rules|
    ensures RuleAt(rules, rules[k].index, rules[k].tableName) == Some(rules[k])
  {
    if k < |rules| - 1 {
      RuleAtIs(Front(rules), k);
    }
  }

  lemma {:induction false} RuleAtFits(rules: seq<IngestRule>, index: string, t: string)
    requires RuleAt(rules, index, t).Some?
    ensures RuleAt(rules, index, t).value in rules
    ensures RuleAt(rules, index, t).value.index == index && RuleAt(rules, index, t).value.tableName == t
  {
    if !(Last(rules).index == index && Last(rules).tableName == t) {
      RuleAtFits(Front(rules), index, t);
      assert forall r :: r in Front(rules) ==> r in rules;
    }
  }

  /* ---------- the part of a change list that concerns one document and one table ---------- */

  function DocPart(changes: seq<TableRowChange>, index: string, d: DocID, t: string): seq<TableRowChange> {
    OfTable(OfDoc(changes, index, d), t)
  }

  lemma {:induction false} OfTableAppend(a: seq<TableRowChange>, b: seq<TableRowChange>, t: string)
    ensures OfTable(a + b, t) == OfTable(a, t) + OfTable(b, t)
  {
    if b == [] {
      assert a + b == a;
    } else {
      assert Front(a + b) == a + Front(b);
      OfTableAppend(a, Front(b), t);
    }
  }

  lemma OfDocMore(changes: seq<TableRowChange>, index: string, d: DocID)
    requires changes != []
    ensures OfDoc(changes, index, d) == OfDoc(Front(changes), index, d) +
              if Last(changes).index == index && Last(changes).docID == d then [Last(changes)] else []
  {
  }

  lemma {:induction false} OfDocAppend(a: seq<TableRowChange>, b: seq<TableRowChange>, index: string, d: DocID)
    ensures OfDoc(a + b, index, d) == OfDoc(a, index, d) + OfDoc(b, index, d)
  {
    if b == [] {
      assert a + b == a;
    } else {
      assert Front(a + b) == a + Front(b);
      OfDocAppend(a, Front(b), index, d);
      OfDocMore(a + b, index, d);
      OfDocMore(b, index, d);
      hide OfDoc;
    }
  }

  lemma DocPartAppend(a: seq<TableRowChange>, b: seq<TableRowChange>, index: string, d: DocID, t: string)
    ensures DocPart(a + b, index, d, t) == DocPart(a, index, d, t) + DocPart(b, index, d, t)
  {
    OfDocAppend(a, b, index, d);
    OfTableAppend(OfDoc(a, index, d), OfDoc(b, index, d), t);
    hide OfDoc, OfTable;
  }

  ghost predicate MadeBy(r: IngestRule, e: RowsEvent, now: int, c: TableRowChange)
    requires Distinct(e.table.columns)
  {
    && c.eventID == 0 && c.ts == now
    && r.tableName == e.table.name == c.tableName && c.index == r.index
    && c.columns == FilterNames(e.table.columns, r.columnMap) && c.columnMap == r.columnMap
  }

  lemma StepIsMadeBy(r: IngestRule, e: RowsEvent, idCol: nat, step: RowStep, now: int)
    requires TableShape(e.table) && StepShape(e.table, step) && idCol < |e.table.columns| && r.tableName == e.table.name
    requires StepChanges(r, e.table, idCol, step, now).Ok?
    ensures forall k :: 0 <= k < |StepChanges(r, e.table, idCol, step, now).value| ==>
              MadeBy(r, e, now, StepChanges(r, e.table, idCol, step, now).value[k])
  {
    hide CoerceToUint64, FilterNames, FilterRow, KeyOfRow, PKColumns, NullRow;
  }

  lemma {:induction false} StepsAreMadeBy(r: IngestRule, e: RowsEvent, idCol: nat, steps: seq<RowStep>, now: int)
    requires TableShape(e.table) && StepsShape(e.table, steps) && idCol < |e.table.columns| && r.tableName == e.table.name
    requires EmitSteps(r, e.table, idCol, steps, now).Ok?
    ensures forall k :: 0 <= k < |EmitSteps(r, e.table, idCol, steps, now).value| ==>
              MadeBy(r, e, now, EmitSteps(r, e.table, idCol, steps, now).value[k])
  {
    hide StepChanges, MadeBy, TableShape;
    if steps != [] {
      StepsAreMadeBy(r, e, idCol, Front(steps), now);
      StepIsMadeBy(r, e, idCol, Last(steps), now);
    }
  }

  lemma EmittedIsMadeBy(r: IngestRule, e: RowsEvent, now: int)
    requires EventShape(e) && Emit(r, e, now).Ok?
    ensures forall k :: 0 <= k < |Emit(r, e, now).value| ==> MadeBy(r, e, now, Emit(r, e, now).value[k])
  {
    IndexIsInRange(e.table.columns, r.docIDField);
    if r.tableName == e.table.name {
      StepsAreMadeBy(r, e, IndexOf(e.table.columns, r.docIDField).value, StepsOf(e), now);
    }
    hide IndexOf, EmitSteps, StepsOf, MadeBy, TableShape;
  }

  lemma {:induction false} DocPartOfRule(r: IngestRule, changes: seq<TableRowChange>, index: string, d: DocID, t: string)
    requires forall k :: 0 <= k < |changes| ==> changes[k].index == r.index && changes[k].tableName == r.tableName
    ensures DocPart(changes, index, d, t) == if r.index == index && r.tableName == t then ForDoc(changes, d) else []
  {
    hide DocPart;
    if changes != [] {
      var prior, last := Front(changes), Last(changes);
      DocPartOfRule(r, prior, index, d, t);
      DocPartAppend(prior, [last], index, d, t);
      assert changes == prior + [last];
      DocPartOne(last, index, d, t);
    } else {
      NoDocPart(index, d, t);
    }
  }

  lemma NoDocPart(index: string, d: DocID, t: string)
    ensures DocPart([], index, d, t) == []
  {
    assert OfDoc([], index, d) == [];
  }

  lemma DocPartOne(c: TableRowChange, index: string, d: DocID, t: string)
    ensures DocPart([c], index, d, t) == if c.index == index && c.docID == d && c.tableName == t then [c] else []
  {
    assert Front([c]) == [] && OfDoc([], index, d) == [] && OfTable([], t) == [];
  }

  /** What a rule set sends for a document from a table is what the one rule for its index and the table emits. */
  lemma {:induction false} DocPartOfRules(rules: seq<IngestRule>, e: RowsEvent, now: int, index: string, d: DocID, t: string)
    requires EventShape(e) && OneRuleEach(rules) && EmitRules(rules, e, now).ok
    ensures RuleAt(rules, index, t).None? ==> DocPart(EmitRules(rules, e, now).changes, index, d, t) == []
    ensures RuleAt(rules, index, t).Some? ==>
              && Emit(RuleAt(rules, index, t).value, e, now).Ok?
              && DocPart(EmitRules(rules, e, now).changes, index, d, t)
                 == ForDoc(Emit(RuleAt(rules, index, t).value, e, now).value, d)
  {
    if rules == [] {
      assert OfDoc([], index, d) == [];
    } else {
      var prior, r := Front(rules), Last(rules);
      hide Emit, EventShape, DocPart;
      DocPartOfRules(prior, e, now, index, d, t);
      EmittedIsMadeBy(r, e, now);
      ShapeIsDistinct(e);
      DocPartOfRule(r, Emit(r, e, now).value, index, d, t);
      DocPartAppend(EmitRules(prior, e, now).changes, Emit(r, e, now).value, index, d, t);
      if r.index == index && r.tableName == t {
        NoRule(prior, index, t);
      }
      hide MadeBy, ForDoc;
    }
  }

  lemma ShapeIsDistinct(e: RowsEvent)
    requires EventShape(e)
    ensures Distinct(e.table.columns)
  {
  }

  lemma {:induction false} NoRule(rules: seq<IngestRule>, index: string, t: string)
    requires forall k :: 0 <= k < |rules| ==> rules[k].index != index || rules[k].tableName != t
    ensures RuleAt(rules, index, t).None?
  {
    if rules != [] {
      NoRule(Front(rules), index, t);
    }
  }

  /* ---------- the whole database ---------- */

  /** The rules of an index read known tables, which have their id columns, and keep at most as many columns as a row array. */
  ghost predicate RuleFits(r: IngestRule, tables: Tables) {
    && r.tableName in tables && TableShape(tables[r.tableName])
    && IndexOf(tables[r.tableName].columns, r.docIDField).Some? && |r.columnMap| <= ROW_ARRAY_LENGTH
  }

  ghost predicate SetupFits(rules: seq<IngestRule>, tables: Tables) {
    && OneRuleEach(rules) && (forall k :: 0 <= k < |rules| ==> RuleFits(rules[k], tables))
    && forall t :: t in tables ==> tables[t].name == t
  }

  ghost predicate ContentsFit(tables: Tables, contents: Contents) {
    contents.Keys == tables.Keys && forall t :: t in tables ==> FullTableFits(tables[t], contents[t])
  }

  function IDColumn(r: IngestRule, tables: Tables): (idCol: nat)
    requires r.tableName in tables && IndexOf(tables[r.tableName].columns, r.docIDField).Some?
    ensures idCol < |tables[r.tableName].columns|
  {
    IndexIsInRange(tables[r.tableName].columns, r.docIDField);
    IndexOf(tables[r.tableName].columns, r.docIDField).value
  }

  /** What the rules of an index keep of each table. */
  ghost function SchemaOf(rules: seq<IngestRule>, tables: Tables, index: string): Schema
    requires SetupFits(rules, tables)
  {
    map t | t in tables && RuleAt(rules, index, t).Some? :: RuleSchema(rules, tables, index, t)
  }

  ghost function RuleSchema(rules: seq<IngestRule>, tables: Tables, index: string, t: string): TableSchema
    requires SetupFits(rules, tables) && t in tables && RuleAt(rules, index, t).Some?
  {
    RuleIsFit(rules, tables, index, t);
    var r := RuleAt(rules, index, t).value;
    TableSchema(FilterNames(tables[t].columns, r.columnMap), r.columnMap)
  }

  /** The rows of a document in each table, as its index sees them. */
  ghost function ViewOf(rules: seq<IngestRule>, tables: Tables, contents: Contents, index: string, d: DocID): DocRows
    requires SetupFits(rules, tables) && ContentsFit(tables, contents)
  {
    map t | t in tables && RuleAt(rules, index, t).Some? :: TableView(rules, tables, contents, index, d, t)
  }

  ghost function TableView(rules: seq<IngestRule>, tables: Tables, contents: Contents, index: string, d: DocID,
                           t: string): TableRows
    requires SetupFits(rules, tables) && ContentsFit(tables, contents) && t in tables && RuleAt(rules, index, t).Some?
  {
    RuleIsFit(rules, tables, index, t);
    var r := RuleAt(rules, index, t).value;
    DocView(r, tables[t], IDColumn(r, tables), contents[t], d)
  }

  lemma RuleIsFit(rules: seq<IngestRule>, tables: Tables, index: string, t: string)
    requires SetupFits(rules, tables) && RuleAt(rules, index, t).Some?
    ensures RuleFits(RuleAt(rules, index, t).value, tables) && RuleAt(rules, index, t).value.tableName == t
  {
    RuleAtFits(rules, index, t);
  }

  /** The event is what row-based replication writes for these contents, and every update in it is tracked by the rule. */
  ghost predicate EventFits(rules: seq<IngestRule>, tables: Tables, contents: Contents, e: RowsEvent)
    requires SetupFits(rules, tables)
  {
    && EventShape(e) && e.table.name in tables && e.table == tables[e.table.name] && e.table.name in contents
    && StepsFit(e.table, contents[e.table.name], StepsOf(e))
    && forall index :: RuleAt(rules, index, e.table.name).Some? ==> EventIsTracked(rules, tables, index, e)
  }

  ghost predicate EventIsTracked(rules: seq<IngestRule>, tables: Tables, index: string, e: RowsEvent)
    requires SetupFits(rules, tables) && EventShape(e) && e.table.name in tables && e.table == tables[e.table.name]
    requires RuleAt(rules, index, e.table.name).Some?
  {
    RuleIsFit(rules, tables, index, e.table.name);
    StepsAreTracked(e.table, IDColumn(RuleAt(rules, index, e.table.name).value, tables), StepsOf(e))
  }

  function ApplyEvent(contents: Contents, e: RowsEvent): Contents
    requires EventShape(e) && e.table.name in contents
  {
    contents[e.table.name := ApplySteps(e.table, contents[e.table.name], StepsOf(e))]
  }

  /** A sequence of events, each fitting the contents the ones before it lead to, and routed by every rule. */
  ghost predicate EventsFit(rules: seq<IngestRule>, tables: Tables, contents: Contents, events: seq<Arrival>)
    requires SetupFits(rules, tables)
    decreases |events|, 0
  {
    events == [] ||
    (&& EventsFit(rules, tables, contents, Front(events))
     && EventFits(rules, tables, After(rules, tables, contents, Front(events)), Last(events).event)
     && EmitRules(rules, Last(events).event, Last(events).now).ok)
  }

  ghost function After(rules: seq<IngestRule>, tables: Tables, contents: Contents, events: seq<Arrival>): Contents
    requires SetupFits(rules, tables) && EventsFit(rules, tables, contents, events)
    decreases |events|, 1
  {
    if events == [] then contents
    else ApplyEvent(After(rules, tables, contents, Front(events)), Last(events).event)
  }

  ghost function SentFor(rules: seq<IngestRule>, tables: Tables, contents: Contents, events: seq<Arrival>): seq<TableRowChange>
    requires SetupFits(rules, tables) && EventsFit(rules, tables, contents, events)
  {
    if events == [] then []
    else SentFor(rules, tables, contents, Front(events)) + EmitRules(rules, Last(events).event, Last(events).now).changes
  }

  lemma EventKeepsContents(rules: seq<IngestRule>, tables: Tables, contents: Contents, e: RowsEvent)
    requires SetupFits(rules, tables) && ContentsFit(tables, contents) && EventFits(rules, tables, contents, e)
    ensures ContentsFit(tables, ApplyEvent(contents, e))
  {
    assert StepsShape(e.table, StepsOf(e));
    hide SetupFits, EventShape, StepsOf, FullTableFits, ApplySteps, StepsFit;
    assert FullTableFits(e.table, contents[e.table.name]);
    ApplyStepsFits(e.table, contents[e.table.name], StepsOf(e));
  }

  lemma {:induction false} ContentsStayFit(rules: seq<IngestRule>, tables: Tables, contents: Contents, events: seq<Arrival>)
    requires SetupFits(rules, tables) && ContentsFit(tables, contents) && EventsFit(rules, tables, contents, events)
    ensures ContentsFit(tables, After(rules, tables, contents, events))
  {
    if events != [] {
      hide SetupFits, ContentsFit, EventFits, ApplyEvent;
      ContentsStayFit(rules, tables, contents, Front(events));
      EventKeepsContents(rules, tables, After(rules, tables, contents, Front(events)), Last(events).event);
    }
  }

  /* ---------- one event ---------- */

  /** What one event sends for a document from a table leads from the document's rows before it to those after it. */
  lemma EventIsHistory(rules: seq<IngestRule>, tables: Tables, contents: Contents, e: RowsEvent, now: int,
                       index: string, d: DocID, t: string)
    requires SetupFits(rules, tables) && ContentsFit(tables, contents) && EventFits(rules, tables, contents, e)
    requires EmitRules(rules, e, now).ok && t in tables && RuleAt(rules, index, t).Some?
    ensures ContentsFit(tables, ApplyEvent(contents, e))
    ensures var history := DocPart(EmitRules(rules, e, now).changes, index, d, t);
            var before := TableView(rules, tables, contents, index, d, t);
            && HistoryFits(before, history, |RuleAt(rules, index, t).value.columnMap|)
            && ReplayRows(before, history) == TableView(rules, tables, ApplyEvent(contents, e), index, d, t)
  {
    EventKeepsContents(rules, tables, contents, e);
    DocPartOfRules(rules, e, now, index, d, t);
    RuleIsFit(rules, tables, index, t);
    var r := RuleAt(rules, index, t).value;
    hide EmitRules, DocPart, RuleAt, OneRuleEach;
    if e.table.name == t {
      RuleRefinesReplay(rules, tables, contents, e, now, index, d);
    } else {
      assert Emit(r, e, now) == Ok([]) && ForDoc([], d) == [];
      hide Emit, EventShape, DocView, StepsFit;
    }
  }

  lemma RuleRefinesReplay(rules: seq<IngestRule>, tables: Tables, contents: Contents, e: RowsEvent, now: int,
                          index: string, d: DocID)
    requires SetupFits(rules, tables) && ContentsFit(tables, contents) && EventFits(rules, tables, contents, e)
    requires RuleAt(rules, index, e.table.name).Some? && Emit(RuleAt(rules, index, e.table.name).value, e, now).Ok?
    ensures ContentsFit(tables, ApplyEvent(contents, e))
    ensures var r := RuleAt(rules, index, e.table.name).value;
            var history := ForDoc(Emit(r, e, now).value, d);
            var before := TableView(rules, tables, contents, index, d, e.table.name);
            && HistoryFits(before, history, |r.columnMap|)
            && ReplayRows(before, history) == TableView(rules, tables, ApplyEvent(contents, e), index, d, e.table.name)
  {
    EventKeepsContents(rules, tables, contents, e);
    RuleIsFit(rules, tables, index, e.table.name);
    var r := RuleAt(rules, index, e.table.name).value;
    assert EventIsTracked(rules, tables, index, e);
    assert FullTableFits(e.table, contents[e.table.name]);
    var idCol := IDColumn(r, tables);
    assert Emit(r, e, now) == EmitSteps(r, e.table, idCol, StepsOf(e), now);
    hide EmitRules, RuleAt, OneRuleEach, Emit, EmitSteps, StepsOf, DocView, StepsFit, FullTableFits, HistoryFits, ReplayRows,
      IndexOf;
    RoutingRefinesReplay(r, e.table, idCol, contents[e.table.name], StepsOf(e), now, d);
  }

  /* ---------- sequences of events ---------- */

  /** What a sequence of events sends for a document from one table leads from its rows before them to those after. */
  lemma {:induction false} TableIsHistory(rules: seq<IngestRule>, tables: Tables, contents: Contents, events: seq<Arrival>,
                                          index: string, d: DocID, t: string)
    requires SetupFits(rules, tables) && ContentsFit(tables, contents) && EventsFit(rules, tables, contents, events)
    requires t in tables && RuleAt(rules, index, t).Some?
    ensures ContentsFit(tables, After(rules, tables, contents, events))
    ensures var history := DocPart(SentFor(rules, tables, contents, events), index, d, t);
            var before := TableView(rules, tables, contents, index, d, t);
            && HistoryFits(before, history, |RuleAt(rules, index, t).value.columnMap|)
            && ReplayRows(before, history)
               == TableView(rules, tables, After(rules, tables, contents, events), index, d, t)
  {
    assert events != [] ==> EventShape(Last(events).event);
    hide SetupFits, ContentsFit, EventFits, ApplyEvent, TableView, RuleAt, HistoryFits, ReplayRows, EmitRules, DocPart;
    ContentsStayFit(rules, tables, contents, events);
    if events == [] {
      EmptyDocPart(TableView(rules, tables, contents, index, d, t), index, d, t, |RuleAt(rules, index, t).value.columnMap|);
    } else {
      var prior, last := Front(events), Last(events);
      var mid := After(rules, tables, contents, prior);
      TableIsHistory(rules, tables, contents, prior, index, d, t);
      EventIsHistory(rules, tables, mid, last.event, last.now, index, d, t);
      var sent, more := SentFor(rules, tables, contents, prior), EmitRules(rules, last.event, last.now).changes;
      DocPartAppend(sent, more, index, d, t);
      HistoryAppend(TableView(rules, tables, contents, index, d, t), DocPart(sent, index, d, t), DocPart(more, index, d, t),
                    |RuleAt(rules, index, t).value.columnMap|);
    }
  }

  lemma EmptyDocPart(rows: TableRows, index: string, d: DocID, t: string, width: nat)
    ensures HistoryFits(rows, DocPart([], index, d, t), width) && ReplayRows(rows, DocPart([], index, d, t)) == rows
  {
    assert OfDoc([], index, d) == [];
  }

  /* ---------- the schema ---------- */

  /** A change of an index carries what the schema of the index says about its table. */
  ghost predicate Carries(schema: Schema, index: string, c: TableRowChange) {
    c.index == index ==>
      c.tableName in schema && c.columns == schema[c.tableName].columns && c.columnMap == schema[c.tableName].columnMap
  }

  ghost predicate AllCarry(schema: Schema, index: string, changes: seq<TableRowChange>) {
    forall k :: 0 <= k < |changes| ==> Carries(schema, index, changes[k])
  }

  ghost predicate FromRule(rules: seq<IngestRule>, e: RowsEvent, now: int, c: TableRowChange)
    requires Distinct(e.table.columns)
  {
    exists k :: 0 <= k < |rules| && MadeBy(rules[k], e, now, c)
  }

  lemma {:induction false} SentIsFromRule(rules: seq<IngestRule>, e: RowsEvent, now: int)
    requires EventShape(e) && EmitRules(rules, e, now).ok
    ensures forall j :: 0 <= j < |EmitRules(rules, e, now).changes| ==>
              FromRule(rules, e, now, EmitRules(rules, e, now).changes[j])
  {
    ShapeIsDistinct(e);
    hide Emit, MadeBy, EventShape;
    if rules != [] {
      var prior, r := EmitRules(Front(rules), e, now).changes, Last(rules);
      SentIsFromRule(Front(rules), e, now);
      EmittedIsMadeBy(r, e, now);
      forall j | 0 <= j < |EmitRules(rules, e, now).changes|
        ensures FromRule(rules, e, now, EmitRules(rules, e, now).changes[j])
      {
        if j < |prior| {
          var k :| 0 <= k < |rules| - 1 && MadeBy(Front(rules)[k], e, now, prior[j]);
          assert MadeBy(rules[k], e, now, prior[j]);
        } else {
          assert MadeBy(rules[|rules| - 1], e, now, EmitRules(rules, e, now).changes[j]);
        }
      }
    }
  }

  lemma EventCarries(rules: seq<IngestRule>, tables: Tables, contents: Contents, e: RowsEvent, now: int, index: string)
    requires SetupFits(rules, tables) && EventFits(rules, tables, contents, e) && EmitRules(rules, e, now).ok
    ensures AllCarry(SchemaOf(rules, tables, index), index, EmitRules(rules, e, now).changes)
  {
    var changes, schema := EmitRules(rules, e, now).changes, SchemaOf(rules, tables, index);
    ShapeIsDistinct(e);
    SentIsFromRule(rules, e, now);
    hide EmitRules, EventShape, FilterNames, RuleAt;
    forall j | 0 <= j < |changes| ensures Carries(schema, index, changes[j]) {
      assert FromRule(rules, e, now, changes[j]);
      var k :| 0 <= k < |rules| && MadeBy(rules[k], e, now, changes[j]);
      RuleAtIs(rules, k);
    }
  }

  lemma {:induction false} SentCarries(rules: seq<IngestRule>, tables: Tables, contents: Contents, events: seq<Arrival>,
                                       index: string)
    requires SetupFits(rules, tables) && EventsFit(rules, tables, contents, events)
    ensures AllCarry(SchemaOf(rules, tables, index), index, SentFor(rules, tables, contents, events))
  {
    if events != [] {
      hide SetupFits, EventFits, SchemaOf, Carries, EmitRules;
      SentCarries(rules, tables, contents, Front(events), index);
      EventCarries(rules, tables, After(rules, tables, contents, Front(events)), Last(events).event, Last(events).now, index);
    }
  }

  lemma {:induction false} OfDocCarries(schema: Schema, changes: seq<TableRowChange>, index: string, d: DocID)
    requires AllCarry(schema, index, changes)
    ensures CarriesSchema(schema, OfDoc(changes, index, d))
  {
    if changes != [] {
      assert AllCarry(schema, index, Front(changes)) && Carries(schema, index, Last(changes));
      OfDocCarries(schema, Front(changes), index, d);
    }
  }

  /* ---------- all tables of a document ---------- */

  lemma SchemaFitsRules(rules: seq<IngestRule>, tables: Tables, index: string)
    requires SetupFits(rules, tables)
    ensures SchemaFits(SchemaOf(rules, tables, index))
    ensures forall t :: t in SchemaOf(rules, tables, index) ==>
              && t in tables && RuleAt(rules, index, t).Some?
              && |SchemaOf(rules, tables, index)[t].columns| == |RuleAt(rules, index, t).value.columnMap|
  {
    forall t | t in tables && RuleAt(rules, index, t).Some?
      ensures |RuleSchema(rules, tables, index, t).columns| == |RuleAt(rules, index, t).value.columnMap| <= ROW_ARRAY_LENGTH
    {
      RuleIsFit(rules, tables, index, t);
      hide RuleAt, OneRuleEach, IndexOf;
    }
    hide SetupFits, RuleSchema, RuleAt;
  }

  lemma ViewFits(rules: seq<IngestRule>, tables: Tables, contents: Contents, index: string, d: DocID, t: string)
    requires SetupFits(rules, tables) && ContentsFit(tables, contents) && t in tables && RuleAt(rules, index, t).Some?
    ensures RowsFit(TableView(rules, tables, contents, index, d, t), |RuleAt(rules, index, t).value.columnMap|)
    ensures RowsOf(ViewOf(rules, tables, contents, index, d), t) == TableView(rules, tables, contents, index, d, t)
  {
    RuleIsFit(rules, tables, index, t);
    var r := RuleAt(rules, index, t).value;
    assert FullTableFits(tables[t], contents[t]);
    hide CoerceToUint64, RuleAt, OneRuleEach, IndexOf, IDColumn;
  }

  /** The changes sent for one document of an index, over any row events on any tables, are a well-formed history of it: in
      every table they lead from its rows before the events to its rows after them. */
  lemma EventsAreHistory(rules: seq<IngestRule>, tables: Tables, contents: Contents, events: seq<Arrival>, index: string,
                         d: DocID)
    requires SetupFits(rules, tables) && ContentsFit(tables, contents) && EventsFit(rules, tables, contents, events)
    ensures ContentsFit(tables, After(rules, tables, contents, events))
    ensures var history := OfDoc(SentFor(rules, tables, contents, events), index, d);
            var before := ViewOf(rules, tables, contents, index, d);
            && DocHistoryFits(SchemaOf(rules, tables, index), before, history)
            && forall t :: t in SchemaOf(rules, tables, index) ==>
                 RowsOf(ReplayDoc(before, history), t)
                 == RowsOf(ViewOf(rules, tables, After(rules, tables, contents, events), index, d), t)
  {
    hide SetupFits, ContentsFit, EventsFit, After, SentFor, OfDoc, OfTable, HistoryFits, ReplayRows, ReplayDoc, SchemaOf, ViewOf,
      TableView, RuleAt, SchemaFits, CarriesSchema, RowsFit, RowsOf, AllCarry;
    var sent, schema := SentFor(rules, tables, contents, events), SchemaOf(rules, tables, index);
    var before, history := ViewOf(rules, tables, contents, index, d), OfDoc(sent, index, d);
    ContentsStayFit(rules, tables, contents, events);
    var after := ViewOf(rules, tables, After(rules, tables, contents, events), index, d);
    SchemaFitsRules(rules, tables, index);
    SentCarries(rules, tables, contents, events, index);
    OfDocCarries(schema, sent, index, d);
    forall t | t in schema
      ensures RowsFit(RowsOf(before, t), |schema[t].columns|)
      ensures HistoryFits(RowsOf(before, t), OfTable(history, t), |schema[t].columns|)
      ensures RowsOf(ReplayDoc(before, history), t) == RowsOf(after, t)
    {
      ViewFits(rules, tables, contents, index, d, t);
      ViewFits(rules, tables, After(rules, tables, contents, events), index, d, t);
      TableIsHistory(rules, tables, contents, events, index, d, t);
      ReplayDocByTable(before, history, t);
    }
  }

  lemma SameFieldByTable(schema: Schema, rows0: DocRows, rows1: DocRows, rows2: DocRows, attr: string)
    requires forall t :: t in schema ==> RowsOf(rows1, t) == RowsOf(rows2, t)
    ensures SameField(schema, rows0, rows1, attr) <==> SameField(schema, rows0, rows2, attr)
  {
    hide Projections, Feeding, RowsOf;
  }

  /** Nothing relevant is skipped. Whatever row events hit the tables, rows that move between documents included: a field of an
      index not reported as changed for a document sees in every table the same projections of the document's rows after
      the events as before them. */
  lemma UnreportedFieldIsUnaffected(rules: seq<IngestRule>, tables: Tables, contents: Contents, events: seq<Arrival>,
                                    index: string, d: DocID, attr: string)
    requires SetupFits(rules, tables) && ContentsFit(tables, contents) && EventsFit(rules, tables, contents, events)
    ensures ContentsFit(tables, After(rules, tables, contents, events))
    ensures AllDiffsFit(PruneTables(DocFold(OfDoc(SentFor(rules, tables, contents, events), index, d))))
    ensures attr !in ChangedAttrs(OfDoc(SentFor(rules, tables, contents, events), index, d)) ==>
              SameField(SchemaOf(rules, tables, index), ViewOf(rules, tables, contents, index, d),
                        ViewOf(rules, tables, After(rules, tables, contents, events), index, d), attr)
  {
    hide SetupFits, ContentsFit, EventsFit, After, SentFor, OfDoc, ReplayDoc, SchemaOf, ViewOf, DocHistoryFits, RowsOf,
      AllDiffsFit, PruneTables, DocFold, ChangedAttrs, SameField;
    EventsAreHistory(rules, tables, contents, events, index, d);
    var schema, before := SchemaOf(rules, tables, index), ViewOf(rules, tables, contents, index, d);
    var history := OfDoc(SentFor(rules, tables, contents, events), index, d);
    ChangeDetectionIsSound(schema, before, history, attr);
    SameFieldByTable(schema, before, ReplayDoc(before, history),
                     ViewOf(rules, tables, After(rules, tables, contents, events), index, d), attr);
  }
}
