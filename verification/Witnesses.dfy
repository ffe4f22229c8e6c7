/** Inputs on which the code does not do what one would expect, each meeting every hypothesis of the theorem that says
    exactly when it does (river/batch.go, river/rule.go). */
module Witnesses {
  import opened Types
  import opened ChangeSet
  import opened Rule
  import opened Sql
  import opened Conventions
  import opened QueryBatch
  import opened Server
  import opened Reindex

  /* ---------- a document that appears through attributes alone ---------- */

  const GOODS := "goods"

  const PRICE := "price"

  const PRICE_FIELDS := [ID_FIELD, PRICE]

  const PRICE_SCHEMA: Schema := map[GOODS := TableSchema([PRICE], map[PRICE := [PRICE]])]

  const PRICE_SOURCE := SourceConfig({PRICE}, 1)

  const KEY := PrimaryKey(0, [])

  const NEW_GOODS := TableRowChange(InsertAction, [PRICE], map[PRICE := [PRICE]], 1, 0, "shop", [Null], [Num(5)], KEY, GOODS, 0)

  const NEW_DOC := DocBatch(map[], [NEW_GOODS])

  const EMPTY_SHOP: Cluster := map["shop" := map[]]

  ghost predicate CostsFive(rows: TableRows, pk: PrimaryKey) {
    pk in rows && |rows[pk]| > 0 && rows[pk][0] == Num(5)
  }

  ghost predicate HasPrice(rows: DocRows) {
    exists pk :: CostsFive(RowsOf(rows, GOODS), pk)
  }

  /** Returns a document if it has a row with price five. */
  ghost function PriceQuery(): Query {
    (d: DocID, rows: DocRows) => if HasPrice(rows) then Some([IntLit(d), IntLit(5)]) else None
  }

  lemma PriceRow(d: DocID)
    ensures HasID(PRICE_FIELDS, [IntLit(d), IntLit(5)]) && RowID(PRICE_FIELDS, [IntLit(d), IntLit(5)]) == d
  {
    var row := [IntLit(d), IntLit(5)];
    assert Front(PRICE_FIELDS) == [ID_FIELD] && Front(row) == [IntLit(d)];
    assert DocOf([ID_FIELD], [IntLit(d)]) == map[ID_FIELD := IntLit(d)];
    assert DocOf(PRICE_FIELDS, row) == map[ID_FIELD := IntLit(d), PRICE := IntLit(5)];
  }

  lemma PriceQueryFits()
    ensures QueryFits(PriceQuery(), PRICE_FIELDS)
  {
    hide HasID, RowID, HasPrice;
    forall d, rows | PriceQuery()(d, rows).Some?
      ensures HasID(PRICE_FIELDS, PriceQuery()(d, rows).value) && RowID(PRICE_FIELDS, PriceQuery()(d, rows).value) == d
    {
      PriceRow(d);
    }
  }

  lemma PriceIsFed()
    ensures Feeding(PRICE_SCHEMA[GOODS], PRICE) == {0}
  {
  }

  lemma PriceIsProjected(rows: DocRows)
    ensures HasPrice(rows) <==> map[0 := Num(5)] in Projections(RowsOf(rows, GOODS), {0})
  {
    var goods, five: map<nat, Value> := RowsOf(rows, GOODS), map[0 := Num(5)];
    forall pk | pk in goods ensures CostsFive(goods, pk) <==> Project(goods[pk], {0}) == five {
      var p := Project(goods[pk], {0});
      if CostsFive(goods, pk) {
        assert p.Keys == {0};
      }
      assert p == five ==> 0 in p;
    }
    if HasPrice(rows) {
      var pk :| CostsFive(goods, pk);
      assert !AllNull(five) by { assert 0 in five; }
    }
    hide Project, AllNull;
  }

  lemma PriceQueryIsDetermined()
    ensures FieldDetermined(PRICE_SCHEMA, PriceQuery(), PRICE_FIELDS)
  {
    forall d, a, b ensures SameQueryRow(PRICE_SCHEMA, PriceQuery(), PRICE_FIELDS, d, a, b) {
      PriceIsFed();
      PriceIsProjected(a);
      PriceIsProjected(b);
      hide HasPrice, Feeding, Projections;
      assert SameFields(PRICE_SCHEMA, PRICE_FIELDS, a, b) ==> SameField(PRICE_SCHEMA, a, b, PRICE_FIELDS[1]);
    }
  }

  lemma NewHistoryFits()
    ensures HistoryFits(map[], [NEW_GOODS], 1)
  {
    assert NullRow(1) == [Null];
    assert Front([NEW_GOODS]) == [] && ReplayRows(map[], []) == map[];
  }

  lemma NewHistoryReplays()
    ensures OfTable([NEW_GOODS], GOODS) == [NEW_GOODS]
    ensures ReplayDoc(map[], [NEW_GOODS]) == map[GOODS := map[KEY := [Num(5)]]]
  {
    assert Front([NEW_GOODS]) == [];
  }

  lemma NewDocFits()
    ensures DocBatchFits(PRICE_SCHEMA, NEW_DOC)
    ensures RowsAfter(NEW_DOC) == map[GOODS := map[KEY := [Num(5)]]]
  {
    hide HistoryFits, OfTable, ReplayDoc, DocFold, PruneTables, AllDiffsFit;
    NewHistoryFits();
    NewHistoryReplays();
    assert DocHistoryFits(PRICE_SCHEMA, map[], [NEW_GOODS]);
    hide DocHistoryFits;
    DocFoldFits(PRICE_SCHEMA, map[], [NEW_GOODS]);
  }

  lemma PricesBeforeAndAfter()
    ensures !HasPrice(map[]) && HasPrice(map[GOODS := map[KEY := [Num(5)]]])
  {
    assert CostsFive(RowsOf(map[GOODS := map[KEY := [Num(5)]]], GOODS), KEY);
  }

  /** Only the price is reported as changed. */
  lemma PriceIsReported()
    requires DocBatchFits(PRICE_SCHEMA, NEW_DOC)
    ensures ChangedAttrs(NEW_DOC.history) == {PRICE}
  {
    NewDocFits();
    PricesBeforeAndAfter();
    PriceIsFed();
    PriceIsProjected(NEW_DOC.rows);
    PriceIsProjected(RowsAfter(NEW_DOC));
    ChangeDetectionIsSound(PRICE_SCHEMA, NEW_DOC.rows, NEW_DOC.history, PRICE);
    PriceIsMapped();
    hide DocFold, PruneTables, AllDiffsFit, ChangedAttrs, HasPrice, Projections, Feeding, DocHistoryFits, MapsKnown;
    ReportedAreMapped(PRICE_SCHEMA, NEW_DOC.rows, NEW_DOC.history, [PRICE]);
    assert GOODS in PRICE_SCHEMA;
  }

  lemma PriceIsMapped()
    ensures MapsKnown(PRICE_SCHEMA, [PRICE]) && MapsKnown(PRICE_SCHEMA, PRICE_FIELDS)
  {
    assert PRICE == PRICE_FIELDS[1];
  }

  lemma ShopExists()
    ensures IndexExists(EMPTY_SHOP, "shop", 1)
    ensures IndexChunkName("shop", 1, IndexChunk(1, 1)) == "shop"
  {
  }

  lemma ShopStartsIndexed()
    ensures IsIndexed(EMPTY_SHOP, "shop", PRICE_SOURCE, PriceQuery(), PRICE_FIELDS, 1, NEW_DOC.rows)
  {
    ShopExists();
    PricesBeforeAndAfter();
    hide HasPrice, IndexChunkName, IndexChunk;
  }

  lemma NewDocAppears()
    requires DocBatchFits(PRICE_SCHEMA, NEW_DOC)
    ensures AppearsByAttributesOnly(PriceQuery(), PRICE_SOURCE, ChangedAttrs(NEW_DOC.history), 1, NEW_DOC)
  {
    NewDocFits();
    PricesBeforeAndAfter();
    PriceIsReported();
    hide HasPrice, DocBatchFits, ChangedAttrs, RowsAfter;
  }

  lemma NewDocIsListed()
    requires DocBatchFits(PRICE_SCHEMA, NEW_DOC)
    ensures BatchFits(PRICE_SCHEMA, map[1 := NEW_DOC])
    ensures ListsChanged([1], AttrsFor(PRICE_SCHEMA, map[1 := NEW_DOC]))
  {
    hide DocBatchFits, ChangedAttrs, DocHistoryFits, AllDiffsFit, PruneTables, DocFold;
    PriceIsReported();
    var batch: IndexBatch := map[1 := NEW_DOC];
    assert BatchFits(PRICE_SCHEMA, batch);
    BatchAt(PRICE_SCHEMA, batch, 1);
    assert AttrsFor(PRICE_SCHEMA, batch).Keys == {1};
    hide AttrsFor, BatchFits;
    assert PRICE in AttrsFor(PRICE_SCHEMA, batch)[1];
    OneListed(AttrsFor(PRICE_SCHEMA, batch));
  }

  lemma OneListed(attrs: map<DocID, set<string>>)
    requires attrs.Keys == {1} && attrs[1] != {}
    ensures ListsChanged([1], attrs)
  {
    var ids: seq<DocID> := [1];
    assert Distinct(ids);
    forall d: DocID ensures d in ids <==> d in attrs && attrs[d] != {} {
      assert d in attrs <==> d in attrs.Keys;
      assert d in ids <==> d == 1;
    }
    assert ListsChanged(ids, attrs);
  }

  /** The failing case is real: for this query, schema and history, which meet every hypothesis of the theorem, the new
      document is not in the index afterwards, where a full reindex would put it. */
  lemma FirstAppearanceIsLost()
    ensures QueryFits(PriceQuery(), PRICE_FIELDS) && FieldDetermined(PRICE_SCHEMA, PriceQuery(), PRICE_FIELDS)
    ensures MapsKnown(PRICE_SCHEMA, PRICE_FIELDS) && BatchFits(PRICE_SCHEMA, map[1 := NEW_DOC])
    ensures IndexExists(EMPTY_SHOP, "shop", 1) && ListsChanged([1], AttrsFor(PRICE_SCHEMA, map[1 := NEW_DOC]))
    ensures IsIndexed(EMPTY_SHOP, "shop", PRICE_SOURCE, PriceQuery(), PRICE_FIELDS, 1, NEW_DOC.rows)
    ensures var reply := AfterBatch(PRICE_SCHEMA, EMPTY_SHOP, "shop", PRICE_SOURCE, PriceQuery(), PRICE_FIELDS,
                                    map[1 := NEW_DOC], [1]);
            reply.ok &&
            !IsIndexed(reply.cluster, "shop", PRICE_SOURCE, PriceQuery(), PRICE_FIELDS, 1, RowsAfter(NEW_DOC))
  {
    hide DocBatchFits, ChangedAttrs, QueryFits, FieldDetermined, MapsKnown, IndexExists, RowsAfter, HasPrice, AfterBatch,
      IsIndexed, AttrsFor, BatchFits, ListsChanged, AppearsByAttributesOnly;
    PriceQueryFits();
    PriceQueryIsDetermined();
    PriceIsMapped();
    NewDocFits();
    NewDocIsListed();
    ShopExists();
    ShopStartsIndexed();
    NewDocAppears();
    var batch: IndexBatch := map[1 := NEW_DOC];
    assert batch.Keys == {1} && batch[1] == NEW_DOC;
    IndexFollowsDatabase(PRICE_SCHEMA, EMPTY_SHOP, "shop", PRICE_SOURCE, PriceQuery(), PRICE_FIELDS, batch, [1]);
  }

  /* ---------- an update that changes the key and keeps the document ---------- */

  const SHOP_TABLE := Table(GOODS, ["key", "doc"], [0])

  const SHOP_RULE := IngestRule(GOODS, "doc", "shop", map["key" := ["key"]])

  const OLD_ROW: Row := [Num(1), Num(7)]

  function KeyAt(n: int): PrimaryKey {
    KeyOfRow([0], [Num(n), Num(7)])
  }

  lemma KeysDiffer(a: int, b: int)
    ensures KeyAt(a) == KeyAt(b) ==> a == b
  {
    assert KeyAt(a).value[0] == Num(a) && KeyAt(b).value[0] == Num(b);
  }

  lemma ShopTableFits()
    ensures TableShape(SHOP_TABLE) && PKColumns(SHOP_TABLE) == [0]
    ensures FullTableFits(SHOP_TABLE, map[KeyAt(1) := OLD_ROW])
  {
  }

  /** Changing the key of a row that stays in its document meets the hypotheses and is misread by some document. */
  lemma KeyChangeIsMisread(now: int)
    ensures var after := [Num(2), Num(7)];
            && FullTableFits(SHOP_TABLE, map[KeyAt(1) := OLD_ROW])
            && StepFits(SHOP_TABLE, map[KeyAt(1) := OLD_ROW], UpdateRow(OLD_ROW, after))
            && StepChanges(SHOP_RULE, SHOP_TABLE, 1, UpdateRow(OLD_ROW, after), now).Ok?
            && FullTableFits(SHOP_TABLE, ApplyStep(SHOP_TABLE, map[KeyAt(1) := OLD_ROW], UpdateRow(OLD_ROW, after)))
            && exists d :: Misread(after, now, d)
  {
    var after := [Num(2), Num(7)];
    ShopTableFits();
    KeysDiffer(1, 2);
    assert KeyOfRow([0], after) == KeyAt(2);
    hide FullTableFits, KeyOfRow, FilterRow, FilterNames, DocView;
    SomeoneMisreads(after, now);
  }

  /** Setting the document id of a row to NULL does too. */
  lemma NullIDIsMisread(now: int)
    ensures var after := [Num(1), Null];
            && FullTableFits(SHOP_TABLE, map[KeyAt(1) := OLD_ROW])
            && StepFits(SHOP_TABLE, map[KeyAt(1) := OLD_ROW], UpdateRow(OLD_ROW, after))
            && StepChanges(SHOP_RULE, SHOP_TABLE, 1, UpdateRow(OLD_ROW, after), now).Ok?
            && FullTableFits(SHOP_TABLE, ApplyStep(SHOP_TABLE, map[KeyAt(1) := OLD_ROW], UpdateRow(OLD_ROW, after)))
            && exists d :: Misread(after, now, d)
  {
    var after := [Num(1), Null];
    ShopTableFits();
    assert KeyOfRow([0], after) == KeyAt(1);
    hide FullTableFits, KeyOfRow, FilterRow, FilterNames, DocView;
    SomeoneMisreads(after, now);
  }

  ghost predicate UpdateFits(after: Row, now: int) {
    && TableShape(SHOP_TABLE) && FullTableFits(SHOP_TABLE, map[KeyAt(1) := OLD_ROW])
    && StepFits(SHOP_TABLE, map[KeyAt(1) := OLD_ROW], UpdateRow(OLD_ROW, after))
    && StepChanges(SHOP_RULE, SHOP_TABLE, 1, UpdateRow(OLD_ROW, after), now).Ok?
    && FullTableFits(SHOP_TABLE, ApplyStep(SHOP_TABLE, map[KeyAt(1) := OLD_ROW], UpdateRow(OLD_ROW, after)))
  }

  /** Replaying the emitted changes does not give the document's rows after the update. */
  ghost predicate Misread(after: Row, now: int, d: DocID) {
    && UpdateFits(after, now)
    && ReplayRows(DocView(SHOP_RULE, SHOP_TABLE, 1, map[KeyAt(1) := OLD_ROW], d),
                  StepForDoc(SHOP_RULE, SHOP_TABLE, 1, UpdateRow(OLD_ROW, after), now, d))
       != DocView(SHOP_RULE, SHOP_TABLE, 1, ApplyStep(SHOP_TABLE, map[KeyAt(1) := OLD_ROW], UpdateRow(OLD_ROW, after)), d)
  }

  lemma SomeoneMisreads(after: Row, now: int)
    requires TableShape(SHOP_TABLE) && FullTableFits(SHOP_TABLE, map[KeyAt(1) := OLD_ROW])
    requires StepFits(SHOP_TABLE, map[KeyAt(1) := OLD_ROW], UpdateRow(OLD_ROW, after))
    requires StepChanges(SHOP_RULE, SHOP_TABLE, 1, UpdateRow(OLD_ROW, after), now).Ok?
    requires !UpdateIsTracked(SHOP_TABLE, 1, OLD_ROW, after)
    ensures UpdateFits(after, now) && exists d :: Misread(after, now, d)
  {
    hide KeyOfRow, FilterRow, FilterNames, DocView, StepChanges, ReplayRows, StepForDoc, UpdateIsTracked, CoerceToUint64;
    var rows, step := map[KeyAt(1) := OLD_ROW], UpdateRow(OLD_ROW, after);
    UpdateRefinesReplayIff(SHOP_RULE, SHOP_TABLE, 1, rows, OLD_ROW, after, now);
    assert UpdateFits(after, now);
    var d :| ReplayRows(DocView(SHOP_RULE, SHOP_TABLE, 1, rows, d), StepForDoc(SHOP_RULE, SHOP_TABLE, 1, step, now, d))
             != DocView(SHOP_RULE, SHOP_TABLE, 1, ApplyStep(SHOP_TABLE, rows, step), d);
    assert Misread(after, now, d);
  }
}
