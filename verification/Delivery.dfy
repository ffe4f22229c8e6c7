/** From the handler to the applied batches (river/sync.go, river/batch.go): everything the rules emit is sent, in order, and
    what the loop queues and applies for a document is a well-formed history of its rows. */
module Delivery {
  import opened Types
  import opened ChangeSet
  import opened Rule
  import opened Batch
  import opened Master
  import opened Sync
  import opened SyncSafety
  import opened Handler
  import opened Pipeline

  /* ---------- what is sent ---------- */

  /** The row changes among sent messages, in order. */
  function RowsIn(sent: seq<SentMessage>): seq<TableRowChange> {
    if sent == [] then []
    else RowsIn(Front(sent)) + if Last(sent).SentRow? then [Last(sent).change] else []
  }

  /** What the rules emit for the row events among these callbacks, up to a failure. */
  ghost function Emitted(setup: Setup, h: Producer, calls: seq<Call>): seq<TableRowChange>
    requires CallsShape(calls)
  {
    if calls == [] then []
    else
      assert CallShape(Last(calls));
      Emitted(setup, h, Front(calls)) +
      if Last(calls).OnRow? && !Produced(setup, h, Front(calls)).failed
      then EmitRules(setup.rules, Last(calls).event, Last(calls).now).changes else []
  }

  lemma {:induction false} RowsInRows(sent: seq<SentMessage>, changes: seq<TableRowChange>, at: Position, txns: GTIDSet)
    ensures RowsIn(sent + SentRows(changes, at, txns)) == RowsIn(sent) + changes
  {
    if changes == [] {
      assert sent + SentRows(changes, at, txns) == sent;
    } else {
      var all := sent + SentRows(changes, at, txns);
      assert Front(all) == sent + SentRows(Front(changes), at, txns) && Last(all) == SentRow(Last(changes), at, txns);
      RowsInRows(sent, Front(changes), at, txns);
      assert changes == Front(changes) + [Last(changes)];
      hide SentRows;
    }
  }

  lemma RowsInEvent(sent: seq<SentMessage>, event: PositionEvent)
    ensures RowsIn(sent + [SentPosition(event)]) == RowsIn(sent)
  {
    assert Front(sent + [SentPosition(event)]) == sent;
  }

  lemma CallSendsRows(setup: Setup, h: Producer, call: Call)
    requires CallShape(call)
    ensures RowsIn(Called(setup, h, call).sent)
         == RowsIn(h.sent) + if call.OnRow? && !h.failed then EmitRules(setup.rules, call.event, call.now).changes else []
  {
    hide EmitRules, EventShape, RowsIn;
    if !h.failed {
      if call.OnRow? {
        RowsInRows(h.sent, EmitRules(setup.rules, call.event, call.now).changes, call.at, h.announced);
      } else if Called(setup, h, call).sent != h.sent {
        RowsInEvent(h.sent, Last(Called(setup, h, call).sent).event);
      }
    }
  }

  lemma OneMoreCall(setup: Setup, h: Producer, calls: seq<Call>)
    requires CallsShape(calls) && calls != []
    ensures CallShape(Last(calls)) && CallsShape(Front(calls))
    ensures Produced(setup, h, calls) == Called(setup, Produced(setup, h, Front(calls)), Last(calls))
    ensures Emitted(setup, h, calls) == Emitted(setup, h, Front(calls)) +
              if Last(calls).OnRow? && !Produced(setup, h, Front(calls)).failed
              then EmitRules(setup.rules, Last(calls).event, Last(calls).now).changes else []
  {
    assert CallShape(calls[|calls| - 1]);
    hide Called, EmitRules, CallShape;
  }

  lemma NoCalls(setup: Setup, h: Producer)
    ensures Produced(setup, h, []) == h && Emitted(setup, h, []) == []
  {
  }

  lemma NoEvents(rules: seq<IngestRule>, tables: Tables, contents: Contents)
    requires SetupFits(rules, tables)
    ensures EventsIn([]) == [] && EventsFit(rules, tables, contents, []) && SentFor(rules, tables, contents, []) == []
  {
  }

  /** For all callbacks: the row changes sent are, in order, everything the rules emit for the row events. */
  lemma {:induction false} EverythingIsSent(setup: Setup, h: Producer, calls: seq<Call>)
    requires CallsShape(calls)
    ensures RowsIn(Produced(setup, h, calls).sent) == RowsIn(h.sent) + Emitted(setup, h, calls)
  {
    hide Called, RowsIn, EmitRules, CallShape, Produced, Emitted, CallsShape;
    if calls == [] {
      NoCalls(setup, h);
    } else {
      OneMoreCall(setup, h, calls);
      EverythingIsSent(setup, h, Front(calls));
      CallSendsRows(setup, Produced(setup, h, Front(calls)), Last(calls));
    }
  }

  /** The row events among callbacks. */
  function EventsIn(calls: seq<Call>): seq<Arrival> {
    if calls == [] then []
    else EventsIn(Front(calls)) + if Last(calls).OnRow? then [Arrival(Last(calls).event, Last(calls).now)] else []
  }

  lemma EventsMore(calls: seq<Call>)
    requires calls != []
    ensures Last(calls).OnRow? ==> EventsIn(calls) == EventsIn(Front(calls)) + [Arrival(Last(calls).event, Last(calls).now)]
    ensures !Last(calls).OnRow? ==> EventsIn(calls) == EventsIn(Front(calls))
  {
  }

  lemma SentForMore(rules: seq<IngestRule>, tables: Tables, contents: Contents, events: seq<Arrival>, next: Arrival)
    requires SetupFits(rules, tables) && EventsFit(rules, tables, contents, events + [next])
    ensures EventsFit(rules, tables, contents, events) && EventShape(next.event)
    ensures SentFor(rules, tables, contents, events + [next])
         == SentFor(rules, tables, contents, events) + EmitRules(rules, next.event, next.now).changes
  {
    assert Front(events + [next]) == events;
    hide SetupFits, EmitRules;
  }

  /** As long as the handler has not failed, that is what the statements about histories speak of. */
  lemma {:induction false} EmittedIsSentFor(setup: Setup, h: Producer, calls: seq<Call>, tables: Tables, contents: Contents)
    requires CallsShape(calls) && !Produced(setup, h, calls).failed && SetupFits(setup.rules, tables)
    requires EventsFit(setup.rules, tables, contents, EventsIn(calls))
    ensures Emitted(setup, h, calls) == SentFor(setup.rules, tables, contents, EventsIn(calls))
  {
    hide Called, EmitRules, CallShape, SetupFits, EventsFit, Produced, Emitted, CallsShape, SentFor, EventsIn, EventShape;
    if calls == [] {
      NoCalls(setup, h);
      NoEvents(setup.rules, tables, contents);
    } else {
      var prior, last := Front(calls), Last(calls);
      OneMoreCall(setup, h, calls);
      StillRunning(setup, Produced(setup, h, prior), last);
      EventsMore(calls);
      if last.OnRow? {
        SentForMore(setup.rules, tables, contents, EventsIn(prior), Arrival(last.event, last.now));
      }
      EmittedIsSentFor(setup, h, prior, tables, contents);
    }
  }

  lemma StillRunning(setup: Setup, h: Producer, call: Call)
    requires CallShape(call) && !Called(setup, h, call).failed
    ensures !h.failed
  {
  }

  /* ---------- stamps do not matter ---------- */

  function Unstamped(changes: seq<TableRowChange>): (r: seq<TableRowChange>)
    ensures |r| == |changes|
  {
    seq(|changes|, k requires 0 <= k < |changes| => changes[k].(eventID := 0))
  }

  lemma UnstampedAppend(a: seq<TableRowChange>, b: seq<TableRowChange>)
    ensures Unstamped(a + b) == Unstamped(a) + Unstamped(b)
  {
  }

  lemma UnstampedParts(changes: seq<TableRowChange>)
    requires changes != []
    ensures Front(Unstamped(changes)) == Unstamped(Front(changes)) && Last(Unstamped(changes)) == Last(changes).(eventID := 0)
  {
  }

  lemma {:induction false} UnstampedOfTable(changes: seq<TableRowChange>, t: string)
    ensures OfTable(Unstamped(changes), t) == Unstamped(OfTable(changes, t))
  {
    if changes != [] {
      UnstampedParts(changes);
      UnstampedOfTable(Front(changes), t);
      UnstampedAppend(OfTable(Front(changes), t), [Last(changes)]);
      hide Unstamped;
      UnstampedOne(Last(changes));
    }
  }

  lemma UnstampedOne(c: TableRowChange)
    ensures Unstamped([c]) == [c.(eventID := 0)]
  {
  }

  lemma {:induction false} UnstampedOfDoc(changes: seq<TableRowChange>, i: string, d: DocID)
    ensures OfDoc(Unstamped(changes), i, d) == Unstamped(OfDoc(changes, i, d))
  {
    if changes != [] {
      UnstampedParts(changes);
      UnstampedOfDoc(Front(changes), i, d);
      UnstampedAppend(OfDoc(Front(changes), i, d), [Last(changes)]);
      hide Unstamped;
      UnstampedOne(Last(changes));
    }
  }

  lemma {:induction false} UnstampedReplays(rows: TableRows, history: seq<TableRowChange>, width: nat)
    ensures ReplayRows(rows, Unstamped(history)) == ReplayRows(rows, history)
    ensures HistoryFits(rows, Unstamped(history), width) <==> HistoryFits(rows, history, width)
  {
    if history != [] {
      UnstampedParts(history);
      hide Unstamped;
      UnstampedReplays(rows, Front(history), width);
    }
  }

  lemma UnstampedFits(schema: Schema, rows: DocRows, history: seq<TableRowChange>)
    ensures DocHistoryFits(schema, rows, Unstamped(history)) <==> DocHistoryFits(schema, rows, history)
  {
    forall t | t in schema
      ensures HistoryFits(RowsOf(rows, t), OfTable(Unstamped(history), t), |schema[t].columns|)
          <==> HistoryFits(RowsOf(rows, t), OfTable(history, t), |schema[t].columns|)
    {
      UnstampedOfTable(history, t);
      UnstampedReplays(RowsOf(rows, t), OfTable(history, t), |schema[t].columns|);
      hide OfTable, HistoryFits;
    }
    assert CarriesSchema(schema, Unstamped(history)) <==> CarriesSchema(schema, history) by {
      hide OfTable, HistoryFits;
      forall k | 0 <= k < |history| ensures Unstamped(history)[k] == history[k].(eventID := 0) {
      }
    }
    hide OfTable, HistoryFits, CarriesSchema, Unstamped;
  }

  /* ---------- parts of histories ---------- */

  /** The rest of a history is a history of the rows that its first part leads to. */
  lemma DocHistoryAppend(schema: Schema, rows: DocRows, a: seq<TableRowChange>, b: seq<TableRowChange>)
    requires DocHistoryFits(schema, rows, a + b)
    ensures DocHistoryFits(schema, rows, a) && DocHistoryFits(schema, ReplayDoc(rows, a), b)
  {
    var mid := ReplayDoc(rows, a);
    CarriedParts(schema, a, b);
    hide ReplayDoc, OfTable, HistoryFits, RowsFit, CarriesSchema, SchemaFits;
    forall t | t in schema
      ensures HistoryFits(RowsOf(rows, t), OfTable(a, t), |schema[t].columns|)
      ensures RowsFit(RowsOf(mid, t), |schema[t].columns|)
      ensures HistoryFits(RowsOf(mid, t), OfTable(b, t), |schema[t].columns|)
    {
      OfTableAppend(a, b, t);
      HistoryAppend(RowsOf(rows, t), OfTable(a, t), OfTable(b, t), |schema[t].columns|);
      ReplayDocByTable(rows, a, t);
      ReplayKeepsWidth(RowsOf(rows, t), OfTable(a, t), |schema[t].columns|);
    }
  }

  lemma CarriedParts(schema: Schema, a: seq<TableRowChange>, b: seq<TableRowChange>)
    requires CarriesSchema(schema, a + b)
    ensures CarriesSchema(schema, a) && CarriesSchema(schema, b)
  {
    assert forall k :: 0 <= k < |a| ==> a[k] == (a + b)[k];
    assert forall k :: 0 <= k < |b| ==> b[k] == (a + b)[|a| + k];
  }

  /* ---------- what is received ---------- */

  lemma ArrivalsMore(sent: seq<SentMessage>)
    requires sent != []
    ensures Last(sent).SentRow? ==>
              Arrivals(Messages(sent)) == Arrivals(Messages(Front(sent))) +
                                          [Last(sent).change.(eventID := EventCount(Messages(Front(sent))))] &&
              RowsIn(sent) == RowsIn(Front(sent)) + [Last(sent).change]
    ensures !Last(sent).SentRow? ==>
              Arrivals(Messages(sent)) == Arrivals(Messages(Front(sent))) && RowsIn(sent) == RowsIn(Front(sent))
  {
    assert Front(Messages(sent)) == Messages(Front(sent)) && Last(Messages(sent)) == MessageOf(Last(sent));
    hide Messages, EventCount;
  }

  lemma {:induction false} ArrivalsAreRows(sent: seq<SentMessage>)
    ensures Unstamped(Arrivals(Messages(sent))) == Unstamped(RowsIn(sent))
  {
    if sent == [] {
      assert Messages([]) == [];
    } else {
      hide Unstamped, EventCount, Messages, Arrivals, RowsIn;
      ArrivalsAreRows(Front(sent));
      ArrivalsMore(sent);
      if Last(sent).SentRow? {
        var c, stamp := Last(sent).change, EventCount(Messages(Front(sent)));
        UnstampedAppend(RowsIn(Front(sent)), [c]);
        UnstampedAppend(Arrivals(Messages(Front(sent))), [c.(eventID := stamp)]);
        UnstampedOne(c);
        UnstampedOne(c.(eventID := stamp));
      }
    }
  }

  lemma {:induction false} RowsInPrefix(sent: seq<SentMessage>, n: nat)
    requires n <= |sent|
    ensures RowsIn(sent[..n]) <= RowsIn(sent)
  {
    if n == |sent| {
      assert sent[..n] == sent;
    } else {
      assert Front(sent)[..n] == sent[..n];
      RowsInPrefix(Front(sent), n);
    }
  }

  lemma OfDocPrefix(a: seq<TableRowChange>, b: seq<TableRowChange>, i: string, d: DocID)
    requires a <= b
    ensures OfDoc(a, i, d) <= OfDoc(b, i, d)
  {
    assert b == a + b[|a|..];
    OfDocAppend(a, b[|a|..], i, d);
    hide OfDoc;
  }

  lemma {:induction false} SentForUnstamped(rules: seq<IngestRule>, tables: Tables, contents: Contents, events: seq<Arrival>)
    requires SetupFits(rules, tables) && EventsFit(rules, tables, contents, events)
    ensures Unstamped(SentFor(rules, tables, contents, events)) == SentFor(rules, tables, contents, events)
  {
    if events != [] {
      var prior, last := Front(events), Last(events);
      SentForUnstamped(rules, tables, contents, prior);
      SentIsFromRule(rules, last.event, last.now);
      ShapeIsDistinct(last.event);
      UnstampedAppend(SentFor(rules, tables, contents, prior), EmitRules(rules, last.event, last.now).changes);
      hide EmitRules, SetupFits, EventsFit, EventShape, SentFor;
      var changes := EmitRules(rules, last.event, last.now).changes;
      forall k | 0 <= k < |changes| ensures Unstamped(changes)[k] == changes[k] {
        assert FromRule(rules, last.event, last.now, changes[k]);
      }
      assert Unstamped(changes) == changes;
    }
  }

  /** A session over a database: the row events that reached the handler are what row-based replication writes for these
      contents, and every rule could route them. */
  ghost predicate Delivers(setup: Setup, cfg: Config, m: Checkpoint, startedAt: int, calls: seq<Call>, inputs: seq<Input>,
                           tables: Tables, contents: Contents)
  {
    && CallsShape(calls) && Session(setup, cfg, m, startedAt, calls, inputs)
    && !Produced(setup, StartProducer(m), calls).failed
    && SetupFits(setup.rules, tables) && ContentsFit(tables, contents)
    && EventsFit(setup.rules, tables, contents, EventsIn(calls))
  }

  lemma DeliversMeans(setup: Setup, cfg: Config, m: Checkpoint, startedAt: int, calls: seq<Call>, inputs: seq<Input>,
                      tables: Tables, contents: Contents)
    requires Delivers(setup, cfg, m, startedAt, calls, inputs, tables, contents)
    ensures CallsShape(calls) && |inputs| < NO_EVENT_ID && !Produced(setup, StartProducer(m), calls).failed
    ensures Run(cfg, Init(m, startedAt), inputs).log.received <= Messages(Produced(setup, StartProducer(m), calls).sent)
    ensures SetupFits(setup.rules, tables) && ContentsFit(tables, contents)
    ensures EventsFit(setup.rules, tables, contents, EventsIn(calls))
  {
    hide CallsShape, CallsInOrder, SetupFits, ContentsFit, EventsFit, Produced, Run, Messages;
  }

  lemma RowsAreEmitted(setup: Setup, m: Checkpoint, calls: seq<Call>, tables: Tables, contents: Contents)
    requires CallsShape(calls) && !Produced(setup, StartProducer(m), calls).failed && SetupFits(setup.rules, tables)
    requires EventsFit(setup.rules, tables, contents, EventsIn(calls))
    ensures RowsIn(Produced(setup, StartProducer(m), calls).sent) == SentFor(setup.rules, tables, contents, EventsIn(calls))
    ensures Unstamped(SentFor(setup.rules, tables, contents, EventsIn(calls)))
         == SentFor(setup.rules, tables, contents, EventsIn(calls))
  {
    hide Produced, SetupFits, EventsFit, SentFor, Emitted, Unstamped, EventsIn, CallsShape;
    EverythingIsSent(setup, StartProducer(m), calls);
    EmittedIsSentFor(setup, StartProducer(m), calls, tables, contents);
    SentForUnstamped(setup.rules, tables, contents, EventsIn(calls));
    assert RowsIn(StartProducer(m).sent) == [];
  }

  /** The first messages of a channel, as changes of one document. */
  lemma ReceivedAreRows(sent: seq<SentMessage>, received: seq<Message>, i: string, d: DocID)
    requires received <= Messages(sent)
    ensures Unstamped(OfDoc(Arrivals(received), i, d)) <= OfDoc(Unstamped(RowsIn(sent)), i, d)
    ensures received == Messages(sent) ==> Unstamped(OfDoc(Arrivals(received), i, d)) == OfDoc(Unstamped(RowsIn(sent)), i, d)
  {
    var n := |received|;
    ReceivedIs(sent, received);
    hide OfDoc, Arrivals, RowsIn, Unstamped, Messages;
    ArrivalsAreRows(sent[..n]);
    RowsInPrefix(sent, n);
    UnstampedPrefix(RowsIn(sent[..n]), RowsIn(sent));
    UnstampedOfDoc(Arrivals(received), i, d);
    OfDocPrefix(Unstamped(RowsIn(sent[..n])), Unstamped(RowsIn(sent)), i, d);
    if received == Messages(sent) {
      ArrivalsAreRows(sent);
    }
  }

  /** What arrived at the loop for a document is, but for the stamps, the first part of what the rules emitted for it; all of it
      once every message was taken. */
  lemma ArrivalsAreEmitted(setup: Setup, cfg: Config, m: Checkpoint, startedAt: int, calls: seq<Call>, inputs: seq<Input>,
                           tables: Tables, contents: Contents, i: string, d: DocID)
    requires Delivers(setup, cfg, m, startedAt, calls, inputs, tables, contents)
    ensures var received := Run(cfg, Init(m, startedAt), inputs).log.received;
            var emitted := OfDoc(SentFor(setup.rules, tables, contents, EventsIn(calls)), i, d);
            && Unstamped(OfDoc(Arrivals(received), i, d)) <= emitted
            && (received == Messages(Produced(setup, StartProducer(m), calls).sent) ==>
                  Unstamped(OfDoc(Arrivals(received), i, d)) == emitted)
  {
    hide Run, Produced, Delivers, SetupFits, ContentsFit, EventsFit, SentFor, Init, OfDoc, Arrivals, RowsIn, EventsIn, CallsShape,
      Unstamped, Messages;
    DeliversMeans(setup, cfg, m, startedAt, calls, inputs, tables, contents);
    RowsAreEmitted(setup, m, calls, tables, contents);
    ReceivedAreRows(Produced(setup, StartProducer(m), calls).sent, Run(cfg, Init(m, startedAt), inputs).log.received, i, d);
  }

  lemma ReceivedIs(sent: seq<SentMessage>, received: seq<Message>)
    requires received <= Messages(sent)
    ensures |received| <= |sent| && received == Messages(sent[..|received|])
  {
  }

  lemma UnstampedPrefix(a: seq<TableRowChange>, b: seq<TableRowChange>)
    requires a <= b
    ensures Unstamped(a) <= Unstamped(b)
  {
    assert b == a + b[|a|..];
    UnstampedAppend(a, b[|a|..]);
  }

  /** Whatever arrived for a document is a well-formed history of its rows in the database the session started from. */
  lemma ArrivalsAreHistory(setup: Setup, cfg: Config, m: Checkpoint, startedAt: int, calls: seq<Call>, inputs: seq<Input>,
                           tables: Tables, contents: Contents, i: string, d: DocID)
    requires Delivers(setup, cfg, m, startedAt, calls, inputs, tables, contents)
    ensures DocHistoryFits(SchemaOf(setup.rules, tables, i), ViewOf(setup.rules, tables, contents, i, d),
                           OfDoc(Arrivals(Run(cfg, Init(m, startedAt), inputs).log.received), i, d))
  {
    hide Run, Produced, Delivers, SetupFits, ContentsFit, EventsFit, SentFor, Init, OfDoc, Arrivals, DocHistoryFits, SchemaOf,
      ViewOf, Unstamped, Messages, EventsIn, CallsShape, ReplayDoc, After;
    DeliversMeans(setup, cfg, m, startedAt, calls, inputs, tables, contents);
    ArrivalsAreEmitted(setup, cfg, m, startedAt, calls, inputs, tables, contents, i, d);
    var events := EventsIn(calls);
    EventsAreHistory(setup.rules, tables, contents, events, i, d);
    var arrived := OfDoc(Arrivals(Run(cfg, Init(m, startedAt), inputs).log.received), i, d);
    var all := OfDoc(SentFor(setup.rules, tables, contents, events), i, d);
    var schema, view := SchemaOf(setup.rules, tables, i), ViewOf(setup.rules, tables, contents, i, d);
    assert all == Unstamped(arrived) + all[|arrived|..];
    DocHistoryAppend(schema, view, Unstamped(arrived), all[|arrived|..]);
    UnstampedFits(schema, view, arrived);
  }

  /* ---------- what is applied and queued ---------- */

  lemma {:induction false} AppliedParts(applied: seq<Changes>, k: nat, i: string, d: DocID) returns (rest: seq<TableRowChange>)
    requires k < |applied|
    ensures AppliedTo(applied, i, d) == AppliedTo(applied[..k], i, d) + RowsFor(applied[k], i, d) + rest
  {
    if k == |applied| - 1 {
      assert applied[..k] == Front(applied);
      rest := [];
    } else {
      assert Front(applied)[..k] == applied[..k];
      rest := AppliedParts(Front(applied), k, i, d);
      rest := rest + RowsFor(Last(applied), i, d);
    }
  }

  /** Each applied batch carries, for each document, a well-formed history of the rows that the batches before it lead to: what
      applying a batch takes for granted. */
  lemma AppliedBatchIsHistory(setup: Setup, cfg: Config, m: Checkpoint, startedAt: int, calls: seq<Call>, inputs: seq<Input>,
                              tables: Tables, contents: Contents, i: string, d: DocID, k: nat)
    requires Delivers(setup, cfg, m, startedAt, calls, inputs, tables, contents)
    requires k < |Run(cfg, Init(m, startedAt), inputs).log.applied|
    ensures var applied := Run(cfg, Init(m, startedAt), inputs).log.applied;
            var view := ViewOf(setup.rules, tables, contents, i, d);
            DocHistoryFits(SchemaOf(setup.rules, tables, i), ReplayDoc(view, AppliedTo(applied[..k], i, d)),
                           RowsFor(applied[k], i, d))
  {
    hide Run, Produced, Delivers, SetupFits, ContentsFit, EventsFit, Init, OfDoc, Arrivals, DocHistoryFits, SchemaOf,
      ViewOf, AppliedTo, RowsFor, ReplayDoc, EventsIn, CallsShape;
    DeliversMeans(setup, cfg, m, startedAt, calls, inputs, tables, contents);
    ArrivalsAreHistory(setup, cfg, m, startedAt, calls, inputs, tables, contents, i, d);
    RunAccounts(cfg, m, startedAt, inputs, i, d);
    var s := Run(cfg, Init(m, startedAt), inputs);
    var schema, view := SchemaOf(setup.rules, tables, i), ViewOf(setup.rules, tables, contents, i, d);
    var before, batch := AppliedTo(s.log.applied[..k], i, d), RowsFor(s.log.applied[k], i, d);
    var rest := AppliedParts(s.log.applied, k, i, d);
    var later := rest + RowsFor(s.log.unfinished, i, d) + RowsFor(s.q.queue, i, d);
    assert OfDoc(Arrivals(s.log.received), i, d) == before + (batch + later);
    DocHistoryAppend(schema, view, before, batch + later);
    DocHistoryAppend(schema, ReplayDoc(view, before), batch, later);
  }

  lemma AllAccounted(s: State, i: string, d: DocID)
    requires Accounted(Arrivals(s.log.received), s.log.applied, s.log.unfinished, s.q.queue, i, d) && s.log.unfinished == map[]
    ensures OfDoc(Arrivals(s.log.received), i, d) == AppliedTo(s.log.applied, i, d) + RowsFor(s.q.queue, i, d)
    ensures RowsFor(s.q.queue, i, d) == [] ==> OfDoc(Arrivals(s.log.received), i, d) == AppliedTo(s.log.applied, i, d)
  {
    hide OfDoc, Arrivals, AppliedTo;
  }

  /** So does the queue, for the rows that all applied batches lead to. */
  lemma QueueIsHistory(setup: Setup, cfg: Config, m: Checkpoint, startedAt: int, calls: seq<Call>, inputs: seq<Input>,
                       tables: Tables, contents: Contents, i: string, d: DocID)
    requires Delivers(setup, cfg, m, startedAt, calls, inputs, tables, contents)
    requires Run(cfg, Init(m, startedAt), inputs).status == Running
    ensures var s := Run(cfg, Init(m, startedAt), inputs);
            var view := ViewOf(setup.rules, tables, contents, i, d);
            DocHistoryFits(SchemaOf(setup.rules, tables, i), ReplayDoc(view, AppliedTo(s.log.applied, i, d)),
                           RowsFor(s.q.queue, i, d))
  {
    hide Run, Produced, Delivers, SetupFits, ContentsFit, EventsFit, Init, OfDoc, Arrivals, DocHistoryFits, SchemaOf,
      ViewOf, AppliedTo, ReplayDoc, EventsIn, CallsShape;
    DeliversMeans(setup, cfg, m, startedAt, calls, inputs, tables, contents);
    ArrivalsAreHistory(setup, cfg, m, startedAt, calls, inputs, tables, contents, i, d);
    RunAccounts(cfg, m, startedAt, inputs, i, d);
    var s := Run(cfg, Init(m, startedAt), inputs);
    AllAccounted(s, i, d);
    DocHistoryAppend(SchemaOf(setup.rules, tables, i), ViewOf(setup.rules, tables, contents, i, d),
                     AppliedTo(s.log.applied, i, d), RowsFor(s.q.queue, i, d));
  }

  lemma RunAccounts(cfg: Config, m: Checkpoint, startedAt: int, inputs: seq<Input>, i: string, d: DocID)
    requires |inputs| < NO_EVENT_ID
    ensures var s := Run(cfg, Init(m, startedAt), inputs);
            && Accounted(Arrivals(s.log.received), s.log.applied, s.log.unfinished, s.q.queue, i, d)
            && (s.status == Running ==> s.log.unfinished == map[])
  {
    RunKeepsInv(cfg, m, startedAt, inputs);
    hide Run, Accounted, WindowFits, StampedWithin, SavedFits;
  }

  /** Once every message was taken and nothing is queued, the applied changes lead, in every table, from the rows of the document
      before the session to its rows after all row events. */
  lemma EverythingIsApplied(setup: Setup, cfg: Config, m: Checkpoint, startedAt: int, calls: seq<Call>, inputs: seq<Input>,
                            tables: Tables, contents: Contents, i: string, d: DocID, t: string)
    requires Delivers(setup, cfg, m, startedAt, calls, inputs, tables, contents)
    requires var s := Run(cfg, Init(m, startedAt), inputs);
             && s.status == Running && RowsFor(s.q.queue, i, d) == []
             && s.log.received == Messages(Produced(setup, StartProducer(m), calls).sent)
    requires t in SchemaOf(setup.rules, tables, i)
    ensures ContentsFit(tables, After(setup.rules, tables, contents, EventsIn(calls)))
    ensures var applied := AppliedTo(Run(cfg, Init(m, startedAt), inputs).log.applied, i, d);
            RowsOf(ReplayDoc(ViewOf(setup.rules, tables, contents, i, d), applied), t)
            == RowsOf(ViewOf(setup.rules, tables, After(setup.rules, tables, contents, EventsIn(calls)), i, d), t)
  {
    hide Run, Produced, Delivers, SetupFits, ContentsFit, EventsFit, SentFor, Init, OfDoc, Arrivals, DocHistoryFits, SchemaOf,
      ViewOf, AppliedTo, ReplayDoc, Unstamped, Messages, RowsOf, EventsIn, CallsShape, After, OfTable, ReplayRows;
    DeliversMeans(setup, cfg, m, startedAt, calls, inputs, tables, contents);
    ArrivalsAreEmitted(setup, cfg, m, startedAt, calls, inputs, tables, contents, i, d);
    RunAccounts(cfg, m, startedAt, inputs, i, d);
    EventsAreHistory(setup.rules, tables, contents, EventsIn(calls), i, d);
    var applied := AppliedTo(Run(cfg, Init(m, startedAt), inputs).log.applied, i, d);
    var view := ViewOf(setup.rules, tables, contents, i, d);
    AllAccounted(Run(cfg, Init(m, startedAt), inputs), i, d);
    assert Unstamped(applied) == OfDoc(SentFor(setup.rules, tables, contents, EventsIn(calls)), i, d);
    ReplayDocByTable(view, applied, t);
    ReplayDocByTable(view, Unstamped(applied), t);
    UnstampedOfTable(applied, t);
    UnstampedReplays(RowsOf(view, t), OfTable(applied, t), 0);
  }
}
