/** Resuming from the saved GTID set (river/sync.go, river/master.go): exactly which events leave a set that covers only
    transactions whose rows were applied. */
module GTIDSafety {
  import opened Types
  import opened Rule
  import opened Batch
  import opened Master
  import opened Sync
  import opened SyncSafety
  import opened Handler

  /** A sent row of a transaction that the set names: the last GTID event before the row announced it. */
  ghost predicate RowOf(message: SentMessage, gtid: GTIDSet) {
    message.SentRow? && !(message.txns !! gtid)
  }

  /** Every row of every transaction that the set names was received and applied. */
  ghost predicate RowsApplied(sent: seq<SentMessage>, log: Log, gtid: GTIDSet) {
    forall n :: 0 <= n < |sent| && RowOf(sent[n], gtid) ==> IsApplied(log, n)
  }

  /** Every such row is sent before the event with this id. */
  ghost predicate NoRowAfter(sent: seq<SentMessage>, id: nat, gtid: GTIDSet) {
    forall n :: 0 <= n < |sent| && RowOf(sent[n], gtid) ==> EventCount(Messages(sent[..n])) < id
  }

  ghost function SentBy(setup: Setup, m: Checkpoint, calls: seq<Call>): seq<SentMessage>
    requires CallsShape(calls)
  {
    Produced(setup, StartProducer(m), calls).sent
  }

  /* ---------- the event behind the saved set ---------- */

  lemma SavedGTIDComesFrom(s: State)
    requires Inv(s)
    ensures s.log.gtidID <= s.log.savedID <= EventCount(s.log.received)
    ensures s.master.gtid == EventsOf(s.log.initial, s.log.received)[s.log.gtidID].gtid
  {
  }

  lemma InitialIs(cfg: Config, m: Checkpoint, startedAt: int, inputs: seq<Input>)
    ensures Run(cfg, Init(m, startedAt), inputs).log.initial == InitialEvent(m)
  {
    RunKeepsInitial(cfg, Init(m, startedAt), inputs);
    hide Run;
  }

  /** The saved GTID set of a session is that of the sent event with the recorded id. */
  lemma SavedGTIDIsSent(setup: Setup, cfg: Config, m: Checkpoint, startedAt: int, calls: seq<Call>, inputs: seq<Input>)
    requires Session(setup, cfg, m, startedAt, calls, inputs)
    ensures var s, sent := Run(cfg, Init(m, startedAt), inputs), SentBy(setup, m, calls);
            && s.log.gtidID <= EventCount(Messages(sent))
            && s.master.gtid == EventsOf(InitialEvent(m), Messages(sent))[s.log.gtidID].gtid
  {
    hide Run, Inv, EventCount, EventsOf;
    var s, sent := Run(cfg, Init(m, startedAt), inputs), SentBy(setup, m, calls);
    RunKeepsInv(cfg, m, startedAt, inputs);
    InitialIs(cfg, m, startedAt, inputs);
    SavedGTIDComesFrom(s);
    assert Messages(sent)[..|s.log.received|] == s.log.received;
    EventsPrefix(InitialEvent(m), Messages(sent), |s.log.received|);
  }

  /* ---------- a row sent before the saved event is applied ---------- */

  lemma BeforeSavedIsApplied(s: State, sent: seq<SentMessage>, n: nat)
    requires Inv(s) && s.log.received <= Messages(sent) && n < |sent| && sent[n].SentRow?
    requires EventCount(Messages(sent[..n])) < s.log.savedID
    ensures IsApplied(s.log, n)
  {
    hide Inv, IsApplied, EventsOf;
    SavedGTIDComesFrom(s);
    if n < |s.log.received| {
      TakenSoFar(sent, s.log.received, n);
      hide EventCount;
      if !IsApplied(s.log, n) {
        UnappliedIsBehindSaved(s, n);
      }
    } else {
      assert Messages(sent[..n])[..|s.log.received|] == s.log.received;
      EventsPrefix(s.log.initial, Messages(sent[..n]), |s.log.received|);
    }
  }

  lemma SafeWhenNoRowAfter(setup: Setup, cfg: Config, m: Checkpoint, startedAt: int, calls: seq<Call>, inputs: seq<Input>,
                           gtid: GTIDSet)
    requires Session(setup, cfg, m, startedAt, calls, inputs)
    requires NoRowAfter(SentBy(setup, m, calls), Run(cfg, Init(m, startedAt), inputs).log.gtidID, gtid)
    ensures RowsApplied(SentBy(setup, m, calls), Run(cfg, Init(m, startedAt), inputs).log, gtid)
  {
    var s, sent := Run(cfg, Init(m, startedAt), inputs), SentBy(setup, m, calls);
    RunKeepsInv(cfg, m, startedAt, inputs);
    hide Run, Inv, IsApplied, EventCount, Messages, Produced, CallsInOrder;
    SavedGTIDComesFrom(s);
    forall n | 0 <= n < |sent| && RowOf(sent[n], gtid) ensures IsApplied(s.log, n) {
      BeforeSavedIsApplied(s, sent, n);
    }
  }

  /* ---------- a session that publishes a given event ---------- */

  const QUIET := FlushEnv(0, BatchApplied, 0, 0)

  const TICKING := Config(1, 0, 0)

  /** Receiving messages one by one, without publishing anything. */
  function Feed(messages: seq<Message>): (inputs: seq<Input>)
    ensures |inputs| == |messages|
  {
    seq(|messages|, k requires 0 <= k < |messages| => Receive(messages[k], QUIET))
  }

  lemma FeedOneMore(messages: seq<Message>)
    requires messages != []
    ensures Front(Feed(messages)) == Feed(Front(messages)) && Last(Feed(messages)) == Receive(Last(messages), QUIET)
  {
  }

  ghost predicate Fed(s: State, messages: seq<Message>) {
    s.status == Running && s.log.received == messages && s.timing.lastSaved == 0
  }

  lemma QuietFlush(s: State)
    requires Inv(s) && s.status == Running && s.timing.lastSaved == 0
    ensures Fed(Flush(TICKING, s, QUIET), s.log.received)
  {
    FlushKeepsInv(TICKING, s, QUIET);
    hide Inv, Notify, Part, FirstSeen, Offset, Advance, Tight;
  }

  lemma Forwarded(s: State, message: Message)
    requires message.PositionMsg? || message.RowMsg?
    ensures Accept(s, message).log.received == s.log.received + [message]
    ensures Accept(s, message).status == s.status && Accept(s, message).timing == s.timing
  {
    hide AddRow, AddEvent;
  }

  lemma FedOneMore(s: State, messages: seq<Message>, message: Message)
    requires Inv(s) && s.q.last + 1 < NO_EVENT_ID && Fed(s, messages) && (message.PositionMsg? || message.RowMsg?)
    ensures Fed(Step(TICKING, s, Receive(message, QUIET)), messages + [message])
  {
    AcceptKeepsInv(s, message);
    Forwarded(s, message);
    hide Inv, Flush, Accept;
    if message.PositionMsg? && message.event.force {
      QuietFlush(Accept(s, message));
    }
  }

  lemma {:induction false} FeedIsReceived(m: Checkpoint, messages: seq<Message>)
    requires forall k :: 0 <= k < |messages| ==> messages[k].PositionMsg? || messages[k].RowMsg?
    requires |messages| < NO_EVENT_ID
    ensures Fed(Run(TICKING, Init(m, 0), Feed(messages)), messages)
  {
    hide Feed, Step, Fed, Inv;
    if messages == [] {
      assert Feed(messages) == [];
      StartIsFed(m);
    } else {
      FeedOneMore(messages);
      FeedIsReceived(m, Front(messages));
      RunKeepsInv(TICKING, m, 0, Feed(Front(messages)));
      var s := Run(TICKING, Init(m, 0), Feed(Front(messages)));
      FedOneMore(s, Front(messages), Last(messages));
      assert messages == Front(messages) + [Last(messages)];
      assert Run(TICKING, Init(m, 0), Feed(messages)) == Step(TICKING, s, Receive(Last(messages), QUIET));
    }
  }

  lemma StartIsFed(m: Checkpoint)
    ensures Fed(Run(TICKING, Init(m, 0), []), [])
  {
  }

  /** Some time is late enough for every queued document. */
  lemma {:induction false} LatestOfDocs(docs: map<DocID, DocumentChange>) returns (now: int)
    ensures forall d :: d in docs ==> docs[d].lastTS <= now
    decreases |docs|
  {
    if docs == map[] {
      now := 0;
    } else {
      var d :| d in docs;
      var rest := docs - {d};
      assert docs.Keys == rest.Keys + {d};
      assert |rest.Keys| < |docs.Keys|;
      now := LatestOfDocs(rest);
      if now < docs[d].lastTS {
        now := docs[d].lastTS;
      }
    }
  }

  lemma {:induction false} LatestOf(b: Changes) returns (now: int)
    ensures forall i, d :: Holds(b, i, d) ==> DocAt(b, i, d).lastTS <= now
    decreases |b|
  {
    if b == map[] {
      now := 0;
    } else {
      var i :| i in b;
      var rest := b - {i};
      assert b.Keys == rest.Keys + {i};
      assert |rest.Keys| < |b.Keys|;
      now := LatestOf(rest);
      var more := LatestOfDocs(b[i].changedDocs);
      if now < more {
        now := more;
      }
      forall j, d | Holds(b, j, d) ensures DocAt(b, j, d).lastTS <= now {
        assert j != i ==> Holds(rest, j, d);
      }
    }
  }

  lemma AllReady(b: Changes, now: int)
    requires forall i, d :: Holds(b, i, d) ==> DocAt(b, i, d).lastTS <= now
    ensures Part(b, ReadyAt(TICKING, now), false) == map[]
  {
    var left := Part(b, ReadyAt(TICKING, now), false);
    forall i | i in b ensures i !in left {
      forall d | d in b[i].changedDocs ensures ReadyAt(TICKING, now)(b[i].changedDocs[d]) {
        assert Holds(b, i, d);
      }
    }
  }

  lemma NothingQueued(lastID: nat)
    ensures FirstSeen(map[], lastID) == lastID
  {
    assert EventIDs(map[]) == {};
    FirstSeenIsMinimum(map[], lastID);
  }

  lemma AdvanceOverAll(q: Queues)
    requires q.queue == map[] && q.first <= q.last < NO_EVENT_ID && |q.window| == q.last - q.first + 1
    ensures Offset(q) <= |q.window| && Advance(q).first == q.last && Advance(q).window == [Last(q.window)]
  {
    NothingQueued(q.last);
    hide FirstSeen;
  }

  lemma PublishesHead(s: State, savedAt: int)
    requires |s.q.window| == 1 && savedAt - s.timing.lastSaved > SAVE_INTERVAL
    ensures Publish(s, savedAt).log == Published(s.log, s.q.first, s.q.window[0])
  {
    hide Notify, Differs, Moved, Published;
  }

  lemma WindowIsWhole(s: State)
    requires Inv(s)
    ensures s.q.first <= s.q.last < NO_EVENT_ID && |s.q.window| == s.q.last - s.q.first + 1
  {
    hide StampedWithin, Conserved, SavedFits;
  }

  /** A flush of everything publishes the last event received. */
  lemma FlushPublishesLast(s: State, now: int)
    requires Inv(s) && Fed(s, s.log.received) && forall i, d :: Holds(s.q.queue, i, d) ==> DocAt(s.q.queue, i, d).lastTS <= now
    ensures var log := Flush(TICKING, s, FlushEnv(now, BatchApplied, 0, SAVE_INTERVAL + 1)).log;
            && log.received == s.log.received && log.savedID == s.q.last
            && (Last(s.q.window).gtid.Some? ==> log.gtidID == s.q.last)
  {
    AllReady(s.q.queue, now);
    WindowIsWhole(s);
    hide Inv, Part, Publish, Advance, Offset;
    var split := Split(s.q, ReadyAt(TICKING, now));
    AdvanceOverAll(split);
    var env := FlushEnv(now, BatchApplied, 0, SAVE_INTERVAL + 1);
    var timing := Rearm(TICKING, s.timing, split.queue, env);
    PublishesHead(s.(q := Advance(split), log := ApplyBatch(s.log, split.staged), timing := timing), env.savedAt);
  }

  lemma LastReceived(s: State)
    requires Inv(s)
    ensures s.q.last == EventCount(s.log.received) && s.q.window != []
    ensures Last(s.q.window) == EventsOf(s.log.initial, s.log.received)[s.q.last]
  {
  }

  /** The inputs that receive these messages and then flush everything. */
  lemma PublishingRun(m: Checkpoint, messages: seq<Message>) returns (inputs: seq<Input>)
    requires forall k :: 0 <= k < |messages| ==> messages[k].PositionMsg? || messages[k].RowMsg?
    requires |messages| + 1 < NO_EVENT_ID
    requires EventsOf(InitialEvent(m), messages)[EventCount(messages)].gtid.Some?
    ensures |inputs| < NO_EVENT_ID
    ensures Run(TICKING, Init(m, 0), inputs).log.received == messages
    ensures Run(TICKING, Init(m, 0), inputs).log.gtidID == EventCount(messages)
  {
    var feed := Feed(messages);
    var s := Run(TICKING, Init(m, 0), feed);
    FeedIsReceived(m, messages);
    RunKeepsInv(TICKING, m, 0, feed);
    InitialIs(TICKING, m, 0, feed);
    LastReceived(s);
    var now := LatestOf(s.q.queue);
    FlushPublishesLast(s, now);
    var tick := Tick(FlushEnv(now, BatchApplied, 0, SAVE_INTERVAL + 1));
    inputs := feed + [tick];
    assert Front(inputs) == feed;
    assert Run(TICKING, Init(m, 0), inputs) == Step(TICKING, s, tick);
    hide Run, Flush, Inv, Feed, EventsOf, EventCount;
  }

  /* ---------- the exact condition ---------- */

  /** The messages up to the event with this id, as a prefix of the first `n`. */
  lemma {:induction false} EventAt(sent: seq<SentMessage>, n: nat, id: nat) returns (p: nat)
    requires n <= |sent| && id <= EventCount(Messages(sent[..n]))
    ensures p <= n && EventCount(Messages(sent[..p])) == id
  {
    p := n;
    if EventCount(Messages(sent[..n])) != id {
      assert Front(Messages(sent[..n])) == Messages(sent[..n - 1]);
      p := EventAt(sent, n - 1, id);
    }
  }

  lemma MessagesPrefix(sent: seq<SentMessage>, p: nat)
    requires p <= |sent|
    ensures Messages(sent[..p]) == Messages(sent)[..p] && Messages(sent[..p]) <= Messages(sent)
    ensures forall k :: 0 <= k < p ==> Messages(sent[..p])[k].PositionMsg? || Messages(sent[..p])[k].RowMsg?
  {
  }

  /** A row sent after an event is missed by the session that publishes the event before taking the row. */
  lemma MissedSession(setup: Setup, m: Checkpoint, calls: seq<Call>, id: nat, n: nat) returns (inputs: seq<Input>)
    requires CallsInOrder(setup, StartProducer(m), calls)
    requires var sent := SentBy(setup, m, calls);
             && |sent| + 1 < NO_EVENT_ID && n < |sent| && id <= EventCount(Messages(sent[..n]))
             && id <= EventCount(Messages(sent)) && EventsOf(InitialEvent(m), Messages(sent))[id].gtid.Some?
    ensures Session(setup, TICKING, m, 0, calls, inputs)
    ensures Run(TICKING, Init(m, 0), inputs).log.gtidID == id && !IsApplied(Run(TICKING, Init(m, 0), inputs).log, n)
  {
    var sent := SentBy(setup, m, calls);
    hide Run, Produced, CallsInOrder, EventCount, EventsOf, Messages, Init, IsApplied;
    var p := EventAt(sent, n, id);
    MessagesPrefix(sent, p);
    EventsPrefix(InitialEvent(m), Messages(sent), p);
    inputs := PublishingRun(m, Messages(sent[..p]));
    NotReceivedNotApplied(Run(TICKING, Init(m, 0), inputs).log, n);
  }

  lemma NotReceivedNotApplied(log: Log, n: nat)
    requires |log.received| <= n
    ensures !IsApplied(log, n)
  {
    hide OfDoc, Arrivals, AppliedTo, EventCount;
  }

  ghost predicate SafeSession(setup: Setup, cfg: Config, m: Checkpoint, startedAt: int, calls: seq<Call>, inputs: seq<Input>,
                              id: nat, gtid: GTIDSet)
    requires CallsShape(calls)
  {
    Session(setup, cfg, m, startedAt, calls, inputs) && Run(cfg, Init(m, startedAt), inputs).log.gtidID == id ==>
      RowsApplied(SentBy(setup, m, calls), Run(cfg, Init(m, startedAt), inputs).log, gtid)
  }

  /** The exact condition under which a saved GTID set may be resumed from. For any callbacks in binlog order and any
      event that carries a set: in every session whose saved set comes from that event, each row of each transaction the
      set names was received and applied, if and only if no row of such a transaction is sent after the event. */
  lemma GTIDSetIsSafeIff(setup: Setup, m: Checkpoint, calls: seq<Call>, id: nat, gtid: GTIDSet)
    requires CallsInOrder(setup, StartProducer(m), calls) && |SentBy(setup, m, calls)| + 1 < NO_EVENT_ID
    requires id <= EventCount(Messages(SentBy(setup, m, calls)))
    requires EventsOf(InitialEvent(m), Messages(SentBy(setup, m, calls)))[id].gtid == Some(gtid)
    ensures (forall cfg, startedAt, inputs :: SafeSession(setup, cfg, m, startedAt, calls, inputs, id, gtid))
            <==> NoRowAfter(SentBy(setup, m, calls), id, gtid)
  {
    var sent := SentBy(setup, m, calls);
    hide Run, Produced, CallsInOrder, EventCount, EventsOf, Messages, Init, IsApplied, Session;
    if NoRowAfter(sent, id, gtid) {
      forall cfg, startedAt, inputs ensures SafeSession(setup, cfg, m, startedAt, calls, inputs, id, gtid) {
        if Session(setup, cfg, m, startedAt, calls, inputs) && Run(cfg, Init(m, startedAt), inputs).log.gtidID == id {
          SafeWhenNoRowAfter(setup, cfg, m, startedAt, calls, inputs, gtid);
        }
      }
    } else {
      var n :| 0 <= n < |sent| && RowOf(sent[n], gtid) && !(EventCount(Messages(sent[..n])) < id);
      var inputs := MissedSession(setup, m, calls, id, n);
      assert !SafeSession(setup, TICKING, m, 0, calls, inputs, id, gtid);
    }
  }

  /* ---------- which events meet it ---------- */

  /** The transactions the checkpoint named or a GTID event announced. */
  function KnownBy(m: Checkpoint, calls: seq<Call>): GTIDSet {
    if calls == [] then Members(m.gtid)
    else KnownBy(m, Front(calls)) + if Last(calls).OnGTID? then Members(Last(calls).gtid) else {}
  }

  /** A transaction was announced and has not ended. */
  predicate IsOpen(calls: seq<Call>) {
    calls != [] && (Last(calls).OnGTID? || (!Last(calls).OnXID? && !Last(calls).OnDDL? && IsOpen(Front(calls))))
  }

  /** How a binlog with GTIDs is laid out: an announcement names new transactions, rows come inside a transaction, and
      other sets name only what was announced. */
  ghost predicate TransactionFits(known: GTIDSet, open: bool, call: Call) {
    match call
    case OnGTID(gtid) => gtid.Some? && gtid.value !! known
    case OnRow(_, _, _) => open
    case OnDDL(_, gtid) => Members(gtid) <= known
    case OnPosSynced(_, gtid, _) => !open && Members(gtid) <= known
    case OnRotate(_) => !open
    case OnXID(_) => true
  }

  ghost predicate TransactionsInOrder(m: Checkpoint, calls: seq<Call>) {
    calls == [] ||
    (TransactionsInOrder(m, Front(calls)) && TransactionFits(KnownBy(m, Front(calls)), IsOpen(Front(calls)), Last(calls)))
  }

  ghost predicate SetsKnown(h: Producer, known: GTIDSet) {
    Members(h.active) <= known && Members(h.completed) <= known
  }

  lemma CallKeepsSetsKnown(setup: Setup, h: Producer, call: Call, known: GTIDSet, open: bool)
    requires CallShape(call) && SetsKnown(h, known) && TransactionFits(known, open, call)
    ensures SetsKnown(Called(setup, h, call), known + if call.OnGTID? then Members(call.gtid) else {})
  {
    hide EmitRules, SentRows, EventShape;
  }

  lemma {:induction false} SetsStayKnown(setup: Setup, m: Checkpoint, calls: seq<Call>)
    requires CallsShape(calls) && TransactionsInOrder(m, calls)
    ensures SetsKnown(Produced(setup, StartProducer(m), calls), KnownBy(m, calls))
  {
    if calls != [] {
      hide Called, SetsKnown, TransactionFits, CallShape;
      SetsStayKnown(setup, m, Front(calls));
      assert CallShape(Last(calls));
      CallKeepsSetsKnown(setup, Produced(setup, StartProducer(m), Front(calls)), Last(calls), KnownBy(m, Front(calls)),
                         IsOpen(Front(calls)));
    } else {
      assert SetsKnown(StartProducer(m), KnownBy(m, []));
    }
  }

  /** What one callback adds to the channel: one event, or the rows of the last announcement. */
  ghost predicate Adds(setup: Setup, h: Producer, call: Call, more: seq<SentMessage>)
    requires CallShape(call)
  {
    && Called(setup, h, call).sent == h.sent + more
    && forall k :: 0 <= k < |more| && more[k].SentRow? ==> call.OnRow? && !h.failed && more[k].txns == h.announced
  }

  lemma CallAdds(setup: Setup, h: Producer, call: Call) returns (more: seq<SentMessage>)
    requires CallShape(call)
    ensures Adds(setup, h, call, more)
  {
    hide EmitRules, EventShape;
    more := Called(setup, h, call).sent[|h.sent|..];
  }

  /** From the end of a transaction on, rows belong to transactions announced later. */
  ghost predicate LaterRowsAreNew(h: Producer, from: nat, open: bool, known: GTIDSet) {
    && from <= |h.sent|
    && (forall n :: from <= n < |h.sent| && h.sent[n].SentRow? ==> h.sent[n].txns !! known)
    && (open && !h.failed ==> h.announced !! known)
  }

  lemma CallKeepsLaterRowsNew(setup: Setup, h: Producer, call: Call, from: nat, open: bool, known: GTIDSet, all: GTIDSet)
    requires CallShape(call) && LaterRowsAreNew(h, from, open, known) && known <= all && TransactionFits(all, open, call)
    ensures LaterRowsAreNew(Called(setup, h, call), from, call.OnGTID? || (!call.OnXID? && !call.OnDDL? && open), known)
  {
    var more := CallAdds(setup, h, call);
    AnnouncedAfter(setup, h, call);
    hide Called, EventShape;
  }

  lemma AnnouncedAfter(setup: Setup, h: Producer, call: Call)
    requires CallShape(call)
    ensures h.failed ==> Called(setup, h, call).failed
    ensures !Called(setup, h, call).failed ==>
              Called(setup, h, call).announced == if call.OnGTID? && call.gtid.Some? then call.gtid.value else h.announced
  {
    hide EmitRules, EventShape;
  }

  lemma {:induction false} LaterRowsStayNew(setup: Setup, m: Checkpoint, a: seq<Call>, b: seq<Call>)
    requires CallsShape(a + b) && CallsShape(a) && TransactionsInOrder(m, a + b) && !IsOpen(a)
    ensures KnownBy(m, a) <= KnownBy(m, a + b)
    ensures LaterRowsAreNew(Produced(setup, StartProducer(m), a + b), |SentBy(setup, m, a)|, IsOpen(a + b), KnownBy(m, a))
  {
    if b == [] {
      assert a + b == a;
    } else {
      assert Front(a + b) == a + Front(b) && Last(a + b) == Last(b);
      hide Called, LaterRowsAreNew, TransactionFits, CallShape;
      assert CallShape(Last(a + b));
      LaterRowsStayNew(setup, m, a, Front(b));
      CallKeepsLaterRowsNew(setup, Produced(setup, StartProducer(m), a + Front(b)), Last(b), |SentBy(setup, m, a)|,
                            IsOpen(a + Front(b)), KnownBy(m, a), KnownBy(m, a + Front(b)));
    }
  }

  lemma {:induction false} SentGrows(setup: Setup, h: Producer, a: seq<Call>, b: seq<Call>)
    requires CallsShape(a) && CallsShape(a + b)
    ensures Produced(setup, h, a).sent <= Produced(setup, h, a + b).sent
  {
    if b == [] {
      assert a + b == a;
    } else {
      assert Front(a + b) == a + Front(b) && Last(a + b) == Last(b);
      hide Called, CallShape;
      assert CallShape(Last(a + b));
      SentGrows(setup, h, a, Front(b));
      var more := CallAdds(setup, Produced(setup, h, a + Front(b)), Last(b));
    }
  }

  /** A callback other than a row event sends one event, whose set names only what was known, or announced by it. */
  lemma CallSendsEvent(setup: Setup, h: Producer, call: Call, known: GTIDSet, open: bool) returns (event: PositionEvent)
    requires CallShape(call) && !call.OnRow? && !Called(setup, h, call).failed
    requires SetsKnown(h, known) && TransactionFits(known, open, call)
    ensures Called(setup, h, call).sent == h.sent + [SentPosition(event)]
    ensures call.OnGTID? ==> event.gtid == call.gtid
    ensures !call.OnGTID? ==> Members(event.gtid) <= known
  {
    hide EmitRules, EventShape;
    event := Last(Called(setup, h, call).sent).event;
  }

  lemma LastEventIs(initial: PositionEvent, sent: seq<SentMessage>, event: PositionEvent, all: seq<SentMessage>)
    requires sent != [] && Last(sent) == SentPosition(event) && sent <= all
    ensures EventCount(Messages(sent)) <= EventCount(Messages(all))
    ensures EventsOf(initial, Messages(all))[EventCount(Messages(sent))] == event
    ensures forall n :: 0 <= n < |sent| ==> EventCount(Messages(sent[..n])) < EventCount(Messages(sent))
  {
    assert Front(Messages(sent)) == Messages(Front(sent)) && Last(Messages(sent)) == PositionMsg(event);
    assert Messages(all)[..|sent|] == Messages(sent);
    EventsPrefix(initial, Messages(all), |sent|);
    forall n | 0 <= n < |sent| ensures EventCount(Messages(sent[..n])) < EventCount(Messages(sent)) {
      assert Messages(Front(sent))[..n] == Messages(sent[..n]);
      EventsPrefix(initial, Messages(Front(sent)), n);
    }
  }

  lemma OrderPrefix(m: Checkpoint, a: seq<Call>, b: seq<Call>)
    requires TransactionsInOrder(m, a + b)
    ensures TransactionsInOrder(m, a)
    decreases |b|
  {
    if b == [] {
      assert a + b == a;
    } else {
      assert Front(a + b) == a + Front(b);
      OrderPrefix(m, a, Front(b));
    }
  }

  /** The event of a commit, a DDL statement, a rotation or a synchronised position meets the condition. */
  lemma BoundaryIsSafe(setup: Setup, m: Checkpoint, a: seq<Call>, call: Call, b: seq<Call>) returns (event: PositionEvent)
    requires CallsShape(a + [call] + b) && TransactionsInOrder(m, a + [call] + b)
    requires !call.OnRow? && !call.OnGTID?
    requires CallsShape(a + [call]) && !Produced(setup, StartProducer(m), a + [call]).failed
    ensures var sent, id := SentBy(setup, m, a + [call] + b), EventCount(Messages(SentBy(setup, m, a + [call])));
            && id <= EventCount(Messages(sent)) && EventsOf(InitialEvent(m), Messages(sent))[id] == event
            && NoRowAfter(sent, id, Members(event.gtid))
  {
    var calls := a + [call];
    assert Front(calls) == a && Last(calls) == call;
    OrderPrefix(m, calls, b);
    assert CallShape(call);
    var h := Produced(setup, StartProducer(m), a);
    SetsStayKnown(setup, m, a);
    LaterRowsStayNew(setup, m, calls, b);
    SentGrows(setup, StartProducer(m), calls, b);
    assert Produced(setup, StartProducer(m), calls) == Called(setup, h, call);
    hide Called, Produced, SetsKnown, EventCount, EventsOf, Messages, CallShape;
    event := CallSendsEvent(setup, h, call, KnownBy(m, a), IsOpen(a));
    LastEventIs(InitialEvent(m), SentBy(setup, m, calls), event, SentBy(setup, m, calls + b));
    var sent, id := SentBy(setup, m, calls + b), EventCount(Messages(SentBy(setup, m, calls)));
    forall n | 0 <= n < |sent| && RowOf(sent[n], Members(event.gtid)) ensures EventCount(Messages(sent[..n])) < id {
      assert n < |SentBy(setup, m, calls)|;
      assert sent[..n] == SentBy(setup, m, calls)[..n];
    }
  }

  /** So does the checkpoint a session starts from. */
  lemma StartIsSafe(setup: Setup, m: Checkpoint, calls: seq<Call>)
    requires CallsShape(calls) && TransactionsInOrder(m, calls)
    ensures NoRowAfter(SentBy(setup, m, calls), 0, Members(m.gtid))
  {
    assert [] + calls == calls && KnownBy(m, []) == Members(m.gtid);
    LaterRowsStayNew(setup, m, [], calls);
    hide Produced, EventCount, Messages;
  }

  lemma {:induction false} RowsAreNoEvents(sent: seq<SentMessage>, more: seq<SentMessage>)
    requires forall k :: 0 <= k < |more| ==> more[k].SentRow?
    ensures EventCount(Messages(sent + more)) == EventCount(Messages(sent))
  {
    if more == [] {
      assert sent + more == sent;
    } else {
      assert Front(Messages(sent + more)) == Messages(sent + Front(more)) && Last(Messages(sent + more)) == MessageOf(Last(more));
      RowsAreNoEvents(sent, Front(more));
    }
  }

  lemma EventAdds(sent: seq<SentMessage>, event: PositionEvent)
    ensures EventCount(Messages(sent + [SentPosition(event)])) == EventCount(Messages(sent)) + 1
  {
    assert Front(Messages(sent + [SentPosition(event)])) == Messages(sent);
  }

  /** How many events a callback sends: one, unless it fails or is a row event. */
  lemma CallCounts(setup: Setup, h: Producer, call: Call)
    requires CallShape(call)
    ensures EventCount(Messages(Called(setup, h, call).sent))
         == EventCount(Messages(h.sent)) + if call.OnRow? || Called(setup, h, call).failed then 0 else 1
  {
    if call.OnRow? {
      RowsCount(setup, h, call);
    } else if Called(setup, h, call).failed {
      FailureSendsNothing(setup, h, call);
    } else {
      var event := CallSends(setup, h, call);
      EventAdds(h.sent, event);
    }
    hide Called, EventCount, Messages;
  }

  lemma RowsCount(setup: Setup, h: Producer, call: Call)
    requires CallShape(call) && call.OnRow?
    ensures EventCount(Messages(Called(setup, h, call).sent)) == EventCount(Messages(h.sent))
  {
    hide EmitRules, EventShape, EventCount, Messages;
    if !h.failed {
      var more := SentRows(EmitRules(setup.rules, call.event, call.now).changes, call.at, h.announced);
      RowsAreNoEvents(h.sent, more);
    }
  }

  lemma FailureSendsNothing(setup: Setup, h: Producer, call: Call)
    requires CallShape(call) && !call.OnRow? && Called(setup, h, call).failed
    ensures Called(setup, h, call).sent == h.sent
  {
  }

  lemma CallSends(setup: Setup, h: Producer, call: Call) returns (event: PositionEvent)
    requires CallShape(call) && !call.OnRow? && !Called(setup, h, call).failed
    ensures Called(setup, h, call).sent == h.sent + [SentPosition(event)]
  {
    event := Last(Called(setup, h, call).sent).event;
  }

  /** The callback that sent an event, between those before it and those after it. */
  ghost predicate Sends(setup: Setup, m: Checkpoint, calls: seq<Call>, id: nat, a: seq<Call>, call: Call, b: seq<Call>) {
    && calls == a + [call] + b && CallsShape(a + [call]) && !call.OnRow?
    && !Produced(setup, StartProducer(m), a + [call]).failed
    && EventCount(Messages(SentBy(setup, m, a + [call]))) == id
  }

  lemma {:induction false} SenderOf(setup: Setup, m: Checkpoint, calls: seq<Call>, id: nat)
    returns (a: seq<Call>, call: Call, b: seq<Call>)
    requires CallsShape(calls) && 0 < id <= EventCount(Messages(SentBy(setup, m, calls)))
    ensures Sends(setup, m, calls, id, a, call, b)
  {
    hide Called, CallShape, EventCount, Messages, Sends;
    if calls == [] {
      NothingSent(setup, m);
    } else {
      var front := Front(calls);
      if id <= EventCount(Messages(SentBy(setup, m, front))) {
        a, call, b := SenderOf(setup, m, front, id);
        SendsStill(setup, m, front, id, a, call, b, Last(calls));
        assert calls == front + [Last(calls)];
        b := b + [Last(calls)];
      } else {
        a, call, b := front, Last(calls), [];
        LastSends(setup, m, calls, id);
      }
    }
  }

  lemma NothingSent(setup: Setup, m: Checkpoint)
    ensures EventCount(Messages(SentBy(setup, m, []))) == 0
  {
    assert Messages(SentBy(setup, m, [])) == [];
  }

  lemma SendsStill(setup: Setup, m: Checkpoint, calls: seq<Call>, id: nat, a: seq<Call>, call: Call, b: seq<Call>, more: Call)
    requires Sends(setup, m, calls, id, a, call, b)
    ensures Sends(setup, m, calls + [more], id, a, call, b + [more])
  {
    hide Produced, EventCount, Messages;
    assert a + [call] + b + [more] == a + [call] + (b + [more]);
  }

  lemma LastSends(setup: Setup, m: Checkpoint, calls: seq<Call>, id: nat)
    requires CallsShape(calls) && calls != []
    requires EventCount(Messages(SentBy(setup, m, Front(calls)))) < id <= EventCount(Messages(SentBy(setup, m, calls)))
    ensures Sends(setup, m, calls, id, Front(calls), Last(calls), [])
  {
    assert CallShape(Last(calls));
    CallCounts(setup, Produced(setup, StartProducer(m), Front(calls)), Last(calls));
    hide Called, CallShape, EventCount, Messages;
    assert Front(calls) + [Last(calls)] == calls && Front(calls) + [Last(calls)] + [] == calls;
  }

  ghost predicate SentByAnnouncement(setup: Setup, m: Checkpoint, calls: seq<Call>, id: nat) {
    exists a, gtid, b :: Sends(setup, m, calls, id, a, OnGTID(gtid), b)
  }

  /** Over every session of a binlog with transactions in order: unless the saved GTID set is that of an announcement, every
      row of every transaction it names was received and applied. */
  lemma SavedGTIDSetIsSafe(setup: Setup, cfg: Config, m: Checkpoint, startedAt: int, calls: seq<Call>, inputs: seq<Input>)
    requires Session(setup, cfg, m, startedAt, calls, inputs) && TransactionsInOrder(m, calls)
    requires !SentByAnnouncement(setup, m, calls, Run(cfg, Init(m, startedAt), inputs).log.gtidID)
    ensures RowsApplied(SentBy(setup, m, calls), Run(cfg, Init(m, startedAt), inputs).log,
                        Members(Run(cfg, Init(m, startedAt), inputs).master.gtid))
  {
    hide Run, Produced, EventCount, EventsOf, Messages, Init, IsApplied, NoRowAfter, RowsApplied, TransactionsInOrder, Sends;
    var s, sent := Run(cfg, Init(m, startedAt), inputs), SentBy(setup, m, calls);
    SavedGTIDIsSent(setup, cfg, m, startedAt, calls, inputs);
    var id := s.log.gtidID;
    if id == 0 {
      StartIsSafe(setup, m, calls);
      FirstEventIs(m, Messages(sent));
    } else {
      var a, call, b := SenderOf(setup, m, calls, id);
      assert !call.OnGTID?;
      SenderIsSafe(setup, m, calls, id, a, call, b);
    }
    SafeWhenNoRowAfter(setup, cfg, m, startedAt, calls, inputs, Members(s.master.gtid));
  }

  lemma FirstEventIs(m: Checkpoint, messages: seq<Message>)
    ensures EventsOf(InitialEvent(m), messages)[0].gtid == m.gtid
  {
  }

  lemma SenderIsSafe(setup: Setup, m: Checkpoint, calls: seq<Call>, id: nat, a: seq<Call>, call: Call, b: seq<Call>)
    requires CallsShape(calls) && TransactionsInOrder(m, calls) && Sends(setup, m, calls, id, a, call, b) && !call.OnGTID?
    ensures id <= EventCount(Messages(SentBy(setup, m, calls)))
    ensures NoRowAfter(SentBy(setup, m, calls), id,
                       Members(EventsOf(InitialEvent(m), Messages(SentBy(setup, m, calls)))[id].gtid))
  {
    hide Produced, EventCount, EventsOf, Messages, NoRowAfter, TransactionsInOrder;
    var event := BoundaryIsSafe(setup, m, a, call, b);
  }

  /** The saved GTID set runs ahead exactly when an announcement is published: whatever came before it, if the announced
      transaction has a row, then some session saves the announced set without having received that row. */
  lemma GTIDSetRunsAhead(setup: Setup, m: Checkpoint, a: seq<Call>, gtid: GTIDSet, at: Position, event: RowsEvent, now: int,
                         b: seq<Call>) returns (inputs: seq<Input>)
    requires var calls := a + [OnGTID(Some(gtid)), OnRow(at, event, now)] + b;
             CallsInOrder(setup, StartProducer(m), calls) && |SentBy(setup, m, calls)| + 1 < NO_EVENT_ID
    requires gtid != {} && EventShape(event) && EmitRules(setup.rules, event, now).changes != []
    requires CallsShape(a + [OnGTID(Some(gtid))]) && !Produced(setup, StartProducer(m), a + [OnGTID(Some(gtid))]).failed
    ensures var calls := a + [OnGTID(Some(gtid)), OnRow(at, event, now)] + b;
            var s, n := Run(TICKING, Init(m, 0), inputs), |SentBy(setup, m, a + [OnGTID(Some(gtid))])|;
            && Session(setup, TICKING, m, 0, calls, inputs)
            && s.master.gtid == Some(gtid)
            && n < |SentBy(setup, m, calls)| && RowOf(SentBy(setup, m, calls)[n], gtid) && !IsApplied(s.log, n)
  {
    var announced := a + [OnGTID(Some(gtid))];
    var calls := a + [OnGTID(Some(gtid)), OnRow(at, event, now)] + b;
    AnnouncedRowFollows(setup, m, a, gtid, at, event, now, b);
    var sent, id, n := SentBy(setup, m, calls), EventCount(Messages(SentBy(setup, m, announced))), |SentBy(setup, m, announced)|;
    hide Called, Produced, EventCount, EventsOf, Messages, CallShape, EmitRules, CallsInOrder, Run, IsApplied, Init, Inv;
    inputs := MissedSession(setup, m, calls, id, n);
    SavedGTIDIsSent(setup, TICKING, m, 0, calls, inputs);
  }

  lemma AnnouncedRowFollows(setup: Setup, m: Checkpoint, a: seq<Call>, gtid: GTIDSet, at: Position, event: RowsEvent,
                            now: int, b: seq<Call>)
    requires CallsShape(a + [OnGTID(Some(gtid)), OnRow(at, event, now)] + b)
    requires gtid != {} && EventShape(event) && EmitRules(setup.rules, event, now).changes != []
    requires CallsShape(a + [OnGTID(Some(gtid))]) && !Produced(setup, StartProducer(m), a + [OnGTID(Some(gtid))]).failed
    ensures var sent := SentBy(setup, m, a + [OnGTID(Some(gtid)), OnRow(at, event, now)] + b);
            var n := |SentBy(setup, m, a + [OnGTID(Some(gtid))])|;
            var id := EventCount(Messages(SentBy(setup, m, a + [OnGTID(Some(gtid))])));
            && n < |sent| && RowOf(sent[n], gtid) && EventCount(Messages(sent[..n])) == id <= EventCount(Messages(sent))
            && EventsOf(InitialEvent(m), Messages(sent))[id].gtid == Some(gtid)
  {
    var announce, row := OnGTID(Some(gtid)), OnRow(at, event, now);
    var first, second := a + [announce], a + [announce, row];
    assert Front(first) == a && Last(first) == announce && Front(second) == first && Last(second) == row;
    assert forall k :: 0 <= k < |second| ==> second[k] == (second + b)[k];
    SentGrows(setup, StartProducer(m), second, b);
    var h := Produced(setup, StartProducer(m), a);
    var h1 := Produced(setup, StartProducer(m), first);
    assert h1 == Called(setup, h, announce) && Produced(setup, StartProducer(m), second) == Called(setup, h1, row);
    AnnouncementSends(setup, h, gtid);
    AnnouncedAfter(setup, h, announce);
    RowSends(setup, h1, row);
    hide Called, Produced, EventCount, EventsOf, Messages, CallShape, EmitRules;
    var sent := SentBy(setup, m, second + b);
    LastEventIs(InitialEvent(m), h1.sent, Last(h1.sent).event, sent);
    assert sent[..|h1.sent|] == h1.sent;
  }

  lemma AnnouncementSends(setup: Setup, h: Producer, gtid: GTIDSet)
    requires !Called(setup, h, OnGTID(Some(gtid))).failed
    ensures var sent := Called(setup, h, OnGTID(Some(gtid))).sent;
            sent != [] && Last(sent).SentPosition? && Last(sent).event.gtid == Some(gtid)
  {
  }

  lemma RowSends(setup: Setup, h: Producer, call: Call)
    requires call.OnRow? && CallShape(call) && !h.failed && EmitRules(setup.rules, call.event, call.now).changes != []
    ensures var sent := Called(setup, h, call).sent;
            |h.sent| < |sent| && h.sent <= sent && sent[|h.sent|].SentRow? && sent[|h.sent|].txns == h.announced
  {
    hide EmitRules, EventShape;
  }
}
