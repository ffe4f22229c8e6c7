/** The replication event handler (river/sync.go): what it sends to the loop for the callbacks it gets in binlog
    order, and why a restart from the saved position redelivers every change that was not applied. */
module Handler {
  import opened Types
  import opened Rule
  import opened Batch
  import opened Master
  import opened Sync
  import opened SyncSafety

  /** A callback. Row events carry, for the statements below only, the binlog coordinate they end at. */
  datatype Call =
    | OnRotate(next: Position)
    | OnDDL(nextPos: Position, gtid: Option<GTIDSet>)
    | OnXID(nextPos: Position)
    | OnGTID(gtid: Option<GTIDSet>)
    | OnRow(at: Position, event: RowsEvent, now: int)
    | OnPosSynced(pos: Position, gtid: Option<GTIDSet>, force: bool)

  /** A sent message; row changes remember, for the statements below only, the coordinate of their event and the
      transactions that the last GTID event before it announced. */
  datatype SentMessage = SentPosition(event: PositionEvent) | SentRow(change: TableRowChange, at: Position, txns: GTIDSet)

  datatype Setup = Setup(isMariaDB: bool, flushBulkTime: int, rules: seq<IngestRule>)

  /** The handler; `announced` is not part of it, but the set that the last GTID event announced. */
  datatype Producer = Producer(
    active: Option<GTIDSet>,
    completed: Option<GTIDSet>,
    announced: GTIDSet,
    pos: Position,
    sent: seq<SentMessage>,
    failed: bool)

  function StartProducer(m: Checkpoint): Producer {
    Producer(m.gtid, m.gtid, {}, PositionOf(m), [], false)
  }

  /** MariaDB sets are extended in place, and there must be one; any other flavour replaces the set. */
  function WithGTID(setup: Setup, h: Producer, gtid: Option<GTIDSet>): Producer {
    if gtid.None? then h
    else if !setup.isMariaDB then h.(active := gtid)
    else if gtid.value == {} then h
    else if h.active.None? then h.(failed := true)
    else h.(active := Some(h.active.value + gtid.value))
  }

  function SendPosition(h: Producer, force: bool, gtid: Option<GTIDSet>): Producer {
    h.(sent := h.sent + [SentPosition(PositionEvent(if gtid.None? then h.completed else gtid, h.pos, force))])
  }

  function SentRows(changes: seq<TableRowChange>, at: Position, txns: GTIDSet): seq<SentMessage> {
    seq(|changes|, k requires 0 <= k < |changes| => SentRow(changes[k], at, txns))
  }

  ghost predicate CallShape(call: Call) {
    call.OnRow? ==> EventShape(call.event)
  }

  /** One callback; after a failure replication has stopped and nothing more is sent. */
  function Called(setup: Setup, h: Producer, call: Call): Producer
    requires CallShape(call)
  {
    if h.failed then h
    else
      match call
      case OnRotate(next) => SendPosition(h.(pos := next), true, None)
      case OnDDL(nextPos, gtid) =>
        var g := WithGTID(setup, h, gtid);
        if g.failed then g else SendPosition(g.(pos := nextPos), true, gtid)
      case OnXID(nextPos) =>
        if h.active.None? then h.(pos := nextPos, failed := true)
        else SendPosition(h.(pos := nextPos, completed := h.active), setup.flushBulkTime == 0, None)
      case OnGTID(gtid) =>
        var g := WithGTID(setup, h, gtid);
        if g.failed then g
        else SendPosition(g.(announced := if gtid.Some? then gtid.value else g.announced), false, gtid)
      case OnPosSynced(pos, gtid, force) =>
        var g := WithGTID(setup, h, gtid);
        if g.failed then g else SendPosition(g.(pos := pos), force, gtid)
      case OnRow(at, event, now) =>
        var routed := EmitRules(setup.rules, event, now);
        h.(sent := h.sent + SentRows(routed.changes, at, h.announced), failed := !routed.ok)
  }

  ghost predicate CallsShape(calls: seq<Call>) {
    forall k :: 0 <= k < |calls| ==> CallShape(calls[k])
  }

  function Produced(setup: Setup, h: Producer, calls: seq<Call>): Producer
    requires CallsShape(calls)
  {
    if calls == [] then h else Called(setup, Produced(setup, h, Front(calls)), Last(calls))
  }

  /** Callbacks come in binlog order: reported boundaries do not go back, and the rows of an event end after
      the last boundary reported before them. */
  ghost predicate InOrder(h: Producer, call: Call) {
    match call
    case OnRotate(next) => AtOrBefore(h.pos, next)
    case OnDDL(nextPos, _) => AtOrBefore(h.pos, nextPos)
    case OnXID(nextPos) => AtOrBefore(h.pos, nextPos)
    case OnGTID(_) => true
    case OnPosSynced(pos, _, _) => AtOrBefore(h.pos, pos)
    case OnRow(at, _, _) => Before(h.pos, at)
  }

  ghost predicate CallsInOrder(setup: Setup, h: Producer, calls: seq<Call>) {
    && CallsShape(calls)
    && (calls == [] ||
        (CallsInOrder(setup, h, Front(calls)) && InOrder(Produced(setup, h, Front(calls)), Last(calls))))
  }

  /* ---------- the order of what is sent ---------- */

  /** The position of the last event sent, or the one the session started from. */
  function LastPosition(start: Position, sent: seq<SentMessage>): Position {
    if sent == [] then start
    else if Last(sent).SentPosition? then Last(sent).event.pos
    else LastPosition(start, Front(sent))
  }

  ghost predicate NextInOrder(before: Position, message: SentMessage) {
    match message
    case SentPosition(event) => AtOrBefore(before, event.pos)
    case SentRow(_, at, _) => Before(before, at)
  }

  ghost predicate SentInOrder(start: Position, sent: seq<SentMessage>) {
    forall n :: 0 <= n < |sent| ==> NextInOrder(LastPosition(start, sent[..n]), sent[n])
  }

  lemma LastPositionAfter(start: Position, sent: seq<SentMessage>, message: SentMessage)
    ensures LastPosition(start, sent + [message])
         == if message.SentPosition? then message.event.pos else LastPosition(start, sent)
  {
    assert Front(sent + [message]) == sent && Last(sent + [message]) == message;
  }

  lemma OneMoreInOrder(start: Position, sent: seq<SentMessage>, message: SentMessage)
    requires SentInOrder(start, sent) && NextInOrder(LastPosition(start, sent), message)
    ensures SentInOrder(start, sent + [message])
  {
    var more := sent + [message];
    forall n | 0 <= n < |more| ensures NextInOrder(LastPosition(start, more[..n]), more[n]) {
      hide NextInOrder, LastPosition;
      if n < |sent| {
        assert more[..n] == sent[..n] && more[n] == sent[n];
      } else {
        assert more[..n] == sent && more[n] == message;
      }
    }
  }

  lemma {:induction false} RowsInOrder(start: Position, sent: seq<SentMessage>, changes: seq<TableRowChange>,
                                       at: Position, txns: GTIDSet)
    requires SentInOrder(start, sent) && Before(LastPosition(start, sent), at)
    ensures SentInOrder(start, sent + SentRows(changes, at, txns))
    ensures LastPosition(start, sent + SentRows(changes, at, txns)) == LastPosition(start, sent)
  {
    if changes == [] {
      assert sent + SentRows(changes, at, txns) == sent;
    } else {
      RowsInOrder(start, sent, Front(changes), at, txns);
      var prior := sent + SentRows(Front(changes), at, txns);
      var row := SentRow(Last(changes), at, txns);
      assert sent + SentRows(changes, at, txns) == prior + [row];
      hide SentRows, SentInOrder;
      OneMoreInOrder(start, prior, row);
      LastPositionAfter(start, prior, row);
    }
  }

  /** What the handler has sent is in binlog order, up to its own position. */
  ghost predicate HandlerInv(start: Position, h: Producer) {
    SentInOrder(start, h.sent) && (!h.failed ==> AtOrBefore(LastPosition(start, h.sent), h.pos))
  }

  lemma SendKeepsInv(start: Position, h: Producer, force: bool, gtid: Option<GTIDSet>)
    requires SentInOrder(start, h.sent) && AtOrBefore(LastPosition(start, h.sent), h.pos)
    ensures HandlerInv(start, SendPosition(h, force, gtid))
  {
    var message := SentPosition(PositionEvent(if gtid.None? then h.completed else gtid, h.pos, force));
    OneMoreInOrder(start, h.sent, message);
    LastPositionAfter(start, h.sent, message);
    hide SentInOrder, LastPosition;
  }

  lemma CallKeepsInv(setup: Setup, start: Position, h: Producer, call: Call)
    requires HandlerInv(start, h) && CallShape(call) && InOrder(h, call)
    ensures HandlerInv(start, Called(setup, h, call))
  {
    hide SentInOrder, LastPosition, SendPosition, EmitRules, SentRows;
    if !h.failed {
      match call
      case OnRotate(next) => SendKeepsInv(start, h.(pos := next), true, None);
      case OnDDL(nextPos, gtid) => SendKeepsInv(start, WithGTID(setup, h, gtid).(pos := nextPos), true, gtid);
      case OnXID(nextPos) => SendKeepsInv(start, h.(pos := nextPos, completed := h.active), setup.flushBulkTime == 0, None);
      case OnGTID(gtid) =>
        var g := WithGTID(setup, h, gtid);
        SendKeepsInv(start, g.(announced := if gtid.Some? then gtid.value else g.announced), false, gtid);
      case OnPosSynced(pos, gtid, force) => SendKeepsInv(start, WithGTID(setup, h, gtid).(pos := pos), force, gtid);
      case OnRow(at, event, now) =>
        RowsInOrder(start, h.sent, EmitRules(setup.rules, event, now).changes, at, h.announced);
    }
  }

  lemma {:induction false} ProducedInOrder(setup: Setup, start: Position, h: Producer, calls: seq<Call>)
    requires HandlerInv(start, h) && CallsInOrder(setup, h, calls)
    ensures HandlerInv(start, Produced(setup, h, calls))
  {
    if calls != [] {
      hide HandlerInv, InOrder, Called;
      ProducedInOrder(setup, start, h, Front(calls));
      CallKeepsInv(setup, start, Produced(setup, h, Front(calls)), Last(calls));
    }
  }

  /* ---------- the channel ---------- */

  function MessageOf(m: SentMessage): Message {
    match m
    case SentPosition(event) => PositionMsg(event)
    case SentRow(change, _, _) => RowMsg(change)
  }

  /** What the loop receives when it takes the sent messages from the channel in order. */
  function Messages(sent: seq<SentMessage>): (messages: seq<Message>)
    ensures |messages| == |sent|
  {
    seq(|sent|, k requires 0 <= k < |sent| => MessageOf(sent[k]))
  }

  lemma {:induction false} EventsBehind(start: Position, initial: PositionEvent, sent: seq<SentMessage>, id: nat)
    requires SentInOrder(start, sent) && initial.pos == start
    requires id <= EventCount(Messages(sent))
    ensures AtOrBefore(EventsOf(initial, Messages(sent))[id].pos, LastPosition(start, sent))
  {
    if sent != [] {
      var prior, last := Front(sent), Last(sent);
      assert Front(Messages(sent)) == Messages(prior) && Last(Messages(sent)) == MessageOf(last);
      assert SentInOrder(start, prior) by {
        forall n | 0 <= n < |prior| ensures NextInOrder(LastPosition(start, prior[..n]), prior[n]) {
          assert prior[..n] == sent[..n];
        }
      }
      assert NextInOrder(LastPosition(start, sent[..|sent| - 1]), sent[|sent| - 1]);
      assert sent[..|sent| - 1] == prior;
      hide SentInOrder, Messages;
      if id <= EventCount(Messages(prior)) {
        EventsBehind(start, initial, prior, id);
      }
    }
  }

  /* ---------- prefixes of what was received ---------- */

  lemma {:induction false} EventsPrefix(initial: PositionEvent, received: seq<Message>, n: nat)
    requires n <= |received|
    ensures EventCount(received[..n]) <= EventCount(received)
    ensures EventsOf(initial, received[..n]) <= EventsOf(initial, received)
  {
    if n == |received| {
      assert received[..n] == received;
    } else {
      assert Front(received)[..n] == received[..n];
      EventsPrefix(initial, Front(received), n);
    }
  }

  lemma ArrivalsGrow(received: seq<Message>, i: string, d: DocID)
    requires received != []
    ensures var last := Last(received);
            var more := if last.RowMsg? && last.change.index == i && last.change.docID == d
                        then [last.change.(eventID := EventCount(Front(received)))] else [];
            OfDoc(Arrivals(received), i, d) == OfDoc(Arrivals(Front(received)), i, d) + more
  {
    var last := Last(received);
    if last.RowMsg? {
      ArrivedFor(Arrivals(Front(received)), last.change.(eventID := EventCount(Front(received))), i, d);
    } else {
      assert Arrivals(received) == Arrivals(Front(received));
    }
    hide OfDoc;
  }

  /** The row change received as message `n` is, stamped, the next one of its document. */
  lemma {:induction false} ArrivalRank(received: seq<Message>, n: nat)
    requires n < |received| && received[n].RowMsg?
    ensures var c := received[n].change.(eventID := EventCount(received[..n]));
            var before := OfDoc(Arrivals(received[..n]), c.index, c.docID);
            before + [c] <= OfDoc(Arrivals(received), c.index, c.docID)
  {
    hide OfDoc, Arrivals, EventCount;
    var c := received[n].change;
    ArrivalsGrow(received, c.index, c.docID);
    if n == |received| - 1 {
      assert received[..n] == Front(received);
    } else {
      assert Front(received)[..n] == received[..n];
      ArrivalRank(Front(received), n);
    }
  }

  /* ---------- no lost change ---------- */

  /** The change received as message `n` has been applied: it is the entry of its own rank in the list of what
      was applied for its document. */
  ghost predicate IsApplied(log: Log, n: nat) {
    && n < |log.received| && log.received[n].RowMsg?
    && var c := log.received[n].change.(eventID := EventCount(log.received[..n]));
       var rank := |OfDoc(Arrivals(log.received[..n]), c.index, c.docID)|;
       var applied := AppliedTo(log.applied, c.index, c.docID);
       rank < |applied| && applied[rank] == c
  }

  lemma NotAppliedIsStamped(b: Changes, lo: nat, hi: nat, i: string, d: DocID, k: nat)
    requires StampedWithin(b, lo, hi) && k < |RowsFor(b, i, d)|
    ensures lo <= RowsFor(b, i, d)[k].eventID
  {
    EventIDsAre(b, RowsFor(b, i, d)[k].eventID);
  }

  /** An entry of an accounted list is applied, left over, or queued. */
  lemma WhereAccounted(arrivals: seq<TableRowChange>, applied: seq<Changes>, left: Changes, queue: Changes,
                       i: string, d: DocID, rank: nat, lo: nat, hi: nat)
    requires Accounted(arrivals, applied, left, queue, i, d) && rank < |OfDoc(arrivals, i, d)|
    requires StampedWithin(left, lo, hi) && StampedWithin(queue, lo, hi)
    ensures (rank < |AppliedTo(applied, i, d)| && AppliedTo(applied, i, d)[rank] == OfDoc(arrivals, i, d)[rank])
         || lo <= OfDoc(arrivals, i, d)[rank].eventID
  {
    var done, rest := |AppliedTo(applied, i, d)|, |RowsFor(left, i, d)|;
    hide OfDoc, AppliedTo, StampedWithin, RowsFor;
    if done <= rank < done + rest {
      NotAppliedIsStamped(left, lo, hi, i, d, rank - done);
    } else if done + rest <= rank {
      NotAppliedIsStamped(queue, lo, hi, i, d, rank - done - rest);
    }
  }

  /** A received change that is not applied is stamped at or after the published event. */
  lemma UnappliedIsBehindSaved(s: State, n: nat)
    requires Inv(s) && n < |s.log.received| && s.log.received[n].RowMsg? && !IsApplied(s.log, n)
    ensures s.log.savedID <= EventCount(s.log.received[..n])
  {
    var c := s.log.received[n].change.(eventID := EventCount(s.log.received[..n]));
    var rank := |OfDoc(Arrivals(s.log.received[..n]), c.index, c.docID)|;
    SavedIsBehind(s.q, s.log, s.master, s.log.unfinished);
    hide OfDoc, Arrivals, AppliedTo, EventsOf, EventCount, StampedWithin, Accounted, WindowFits, SavedFits;
    ArrivalRank(s.log.received, n);
    WhereAccounted(Arrivals(s.log.received), s.log.applied, s.log.unfinished, s.q.queue, c.index, c.docID, rank,
                   s.q.first, s.q.last);
  }

  lemma StepKeepsInitial(cfg: Config, s: State, input: Input)
    ensures Step(cfg, s, input).log.initial == s.log.initial
  {
    hide Notify, Part, Subscribe, FirstSeen, AddRow, AddEvent;
  }

  lemma {:induction false} RunKeepsInitial(cfg: Config, s: State, inputs: seq<Input>)
    ensures Run(cfg, s, inputs).log.initial == s.log.initial
  {
    if inputs != [] {
      hide Step;
      RunKeepsInitial(cfg, s, Front(inputs));
      StepKeepsInitial(cfg, Run(cfg, s, Front(inputs)), Last(inputs));
    }
  }

  /** Messages taken from the channel so far agree with what was sent. */
  lemma TakenSoFar(sent: seq<SentMessage>, received: seq<Message>, n: nat)
    requires received <= Messages(sent) && n <= |received|
    ensures received[..n] == Messages(sent[..n])
    ensures n < |received| ==> received[n] == MessageOf(sent[n])
  {
  }

  lemma SentPrefix(start: Position, sent: seq<SentMessage>, n: nat)
    requires SentInOrder(start, sent) && n <= |sent|
    ensures SentInOrder(start, sent[..n])
  {
    forall k | 0 <= k < n ensures NextInOrder(LastPosition(start, sent[..n][..k]), sent[..n][k]) {
      assert sent[..n][..k] == sent[..k];
    }
  }

  lemma {:induction false} PositionsGrow(start: Position, sent: seq<SentMessage>, k: nat, n: nat)
    requires SentInOrder(start, sent) && k <= n <= |sent|
    ensures AtOrBefore(LastPosition(start, sent[..k]), LastPosition(start, sent[..n]))
    decreases n - k
  {
    if k < n {
      PositionsGrow(start, sent, k, n - 1);
      assert sent[..n] == sent[..n - 1] + [sent[n - 1]];
      LastPositionAfter(start, sent[..n - 1], sent[n - 1]);
      assert NextInOrder(LastPosition(start, sent[..n - 1]), sent[n - 1]);
      hide LastPosition, SentInOrder;
    }
  }

  /** What the invariant says about the published event. */
  lemma SavedEvent(s: State)
    requires Inv(s)
    ensures s.log.savedID <= EventCount(s.log.received)
    ensures PositionOf(s.master) == EventsOf(s.log.initial, s.log.received)[s.log.savedID].pos
  {
  }

  /** The published event was received, and sent, before anything that is still unapplied. */
  lemma SavedIsBefore(s: State, start: Position, sent: seq<SentMessage>, n: nat)
    requires Inv(s) && s.log.initial.pos == start && SentInOrder(start, sent) && s.log.received <= Messages(sent)
    requires n < |sent| && sent[n].SentRow? && !IsApplied(s.log, n)
    ensures AtOrBefore(PositionOf(s.master), LastPosition(start, sent[..n]))
  {
    var k := if n < |s.log.received| then n else |s.log.received|;
    var id := s.log.savedID;
    SavedEvent(s);
    if n < |s.log.received| {
      TakenSoFar(sent, s.log.received, n);
      UnappliedIsBehindSaved(s, n);
    } else {
      assert s.log.received[..k] == s.log.received;
    }
    assert id <= EventCount(s.log.received[..k]);
    SavedIsSentBy(s.log, start, sent, k);
    PositionsGrow(start, sent, k, n);
    hide LastPosition, SentInOrder, Inv, EventsOf, IsApplied;
  }

  lemma SavedIsSentBy(log: Log, start: Position, sent: seq<SentMessage>, k: nat)
    requires log.initial.pos == start && SentInOrder(start, sent) && log.received <= Messages(sent)
    requires k <= |log.received| && log.savedID <= EventCount(log.received[..k])
    requires log.savedID <= EventCount(log.received)
    ensures AtOrBefore(EventsOf(log.initial, log.received)[log.savedID].pos, LastPosition(start, sent[..k]))
  {
    TakenSoFar(sent, log.received, k);
    EventsPrefix(log.initial, log.received, k);
    SentPrefix(start, sent, k);
    hide LastPosition, SentInOrder, Messages, EventCount;
    EventsBehind(start, log.initial, sent[..k], log.savedID);
  }

  /** The run of a session: the callbacks in binlog order feed the channel, and the loop has taken some of the
      replication messages from it, in order, between any other messages, timers and a stop. */
  ghost predicate Session(setup: Setup, cfg: Config, m: Checkpoint, startedAt: int, calls: seq<Call>, inputs: seq<Input>) {
    && |inputs| < NO_EVENT_ID
    && CallsInOrder(setup, StartProducer(m), calls)
    && Run(cfg, Init(m, startedAt), inputs).log.received <= Messages(Produced(setup, StartProducer(m), calls).sent)
  }

  /** Nothing that was not applied lies at or before the saved position. */
  lemma UnappliedIsAfterSaved(setup: Setup, cfg: Config, m: Checkpoint, startedAt: int, calls: seq<Call>,
                              inputs: seq<Input>, n: nat)
    requires Session(setup, cfg, m, startedAt, calls, inputs)
    requires var sent := Produced(setup, StartProducer(m), calls).sent;
             n < |sent| && sent[n].SentRow? && !IsApplied(Run(cfg, Init(m, startedAt), inputs).log, n)
    ensures Before(PositionOf(Run(cfg, Init(m, startedAt), inputs).master),
                   Produced(setup, StartProducer(m), calls).sent[n].at)
  {
    var s, start := Run(cfg, Init(m, startedAt), inputs), PositionOf(m);
    var sent := Produced(setup, StartProducer(m), calls).sent;
    RunKeepsInv(cfg, m, startedAt, inputs);
    RunKeepsInitial(cfg, Init(m, startedAt), inputs);
    assert SentInOrder(start, StartProducer(m).sent);
    ProducedInOrder(setup, start, StartProducer(m), calls);
    assert NextInOrder(LastPosition(start, sent[..n]), sent[n]);
    hide Run, Inv, Produced, SentInOrder, CallsInOrder, IsApplied, LastPosition;
    SavedIsBefore(s, start, sent, n);
  }

  /** No change is lost on resume. However the session runs, and whether or not its last batch failed half way,
      every row change whose binlog coordinate is at or before the saved position has been received and
      applied: reading the binlog again from that position delivers all the others. */
  lemma NoLostChange(setup: Setup, cfg: Config, m: Checkpoint, startedAt: int, calls: seq<Call>, inputs: seq<Input>, n: nat)
    requires Session(setup, cfg, m, startedAt, calls, inputs)
    requires n < |Produced(setup, StartProducer(m), calls).sent|
    requires var message := Produced(setup, StartProducer(m), calls).sent[n];
             message.SentRow? && AtOrBefore(message.at, PositionOf(Run(cfg, Init(m, startedAt), inputs).master))
    ensures IsApplied(Run(cfg, Init(m, startedAt), inputs).log, n)
  {
    if !IsApplied(Run(cfg, Init(m, startedAt), inputs).log, n) {
      hide Run, Produced, Session, IsApplied;
      UnappliedIsAfterSaved(setup, cfg, m, startedAt, calls, inputs, n);
    }
  }

  /** Nor is one lost by a restart, which resumes from the checkpoint on disk. */
  lemma NoChangeLostOnRestart(setup: Setup, cfg: Config, m: Checkpoint, startedAt: int, calls: seq<Call>, inputs: seq<Input>,
                              n: nat)
    requires Session(setup, cfg, m, startedAt, calls, inputs)
    requires n < |Produced(setup, StartProducer(m), calls).sent|
    requires var message := Produced(setup, StartProducer(m), calls).sent[n];
             message.SentRow? && AtOrBefore(message.at, PositionOf(OnDisk(Run(cfg, Init(m, startedAt), inputs))))
    ensures IsApplied(Run(cfg, Init(m, startedAt), inputs).log, n)
  {
    hide Run, Produced, Session, IsApplied;
    StoredIsPublished(cfg, m, startedAt, inputs);
    NoLostChange(setup, cfg, m, startedAt, calls, inputs, n);
  }

  /* ---------- the saved position never moves back ---------- */

  lemma {:induction false} EventPositionsGrow(start: Position, initial: PositionEvent, sent: seq<SentMessage>, a: nat, b: nat)
    requires SentInOrder(start, sent) && initial.pos == start && a <= b <= EventCount(Messages(sent))
    ensures AtOrBefore(EventsOf(initial, Messages(sent))[a].pos, EventsOf(initial, Messages(sent))[b].pos)
  {
    if a < b {
      var prior, last := Front(sent), Last(sent);
      assert Front(Messages(sent)) == Messages(prior) && Last(Messages(sent)) == MessageOf(last);
      SentPrefix(start, sent, |prior|);
      assert sent[..|prior|] == prior && NextInOrder(LastPosition(start, sent[..|prior|]), sent[|prior|]);
      hide SentInOrder, Messages, LastPosition;
      if b <= EventCount(Messages(prior)) {
        EventPositionsGrow(start, initial, prior, a, b);
      } else {
        EventsBehind(start, initial, prior, a);
      }
    }
  }

  lemma StepReceivesMore(cfg: Config, s: State, input: Input)
    ensures s.log.received <= Step(cfg, s, input).log.received
  {
    hide Flush, AddRow, AddEvent, Subscribe;
    match input
    case Quit =>
    case Tick(env) => FlushReceivesNothing(cfg, Fired(cfg, s), env);
    case Receive(msg, env) => FlushReceivesNothing(cfg, Accept(s, msg), env);
  }

  lemma {:induction false} RunReceivesMore(cfg: Config, s: State, inputs: seq<Input>, more: seq<Input>)
    ensures Run(cfg, s, inputs).log.received <= Run(cfg, s, inputs + more).log.received
  {
    hide Step;
    if more == [] {
      assert inputs + more == inputs;
    } else {
      RunReceivesMore(cfg, s, inputs, Front(more));
      StepReceivesMore(cfg, Run(cfg, s, inputs + Front(more)), Last(more));
      RunOneMore(cfg, s, inputs, more);
    }
  }

  lemma SavedPositionIsSent(s: State, initial: PositionEvent, sent: seq<SentMessage>)
    requires Inv(s) && s.log.initial == initial && s.log.received <= Messages(sent)
    ensures s.log.savedID <= EventCount(Messages(sent))
    ensures PositionOf(s.master) == EventsOf(initial, Messages(sent))[s.log.savedID].pos
  {
    SavedEvent(s);
    assert Messages(sent)[..|s.log.received|] == s.log.received;
    EventsPrefix(initial, Messages(sent), |s.log.received|);
    hide Inv, EventCount, EventsOf, Messages;
  }

  /** Over a session the saved binlog position never moves back. */
  lemma SavedPositionIsMonotone(setup: Setup, cfg: Config, m: Checkpoint, startedAt: int, calls: seq<Call>,
                                inputs: seq<Input>, more: seq<Input>)
    requires Session(setup, cfg, m, startedAt, calls, inputs + more)
    ensures AtOrBefore(PositionOf(Run(cfg, Init(m, startedAt), inputs).master),
                       PositionOf(Run(cfg, Init(m, startedAt), inputs + more).master))
  {
    var s, t, start := Run(cfg, Init(m, startedAt), inputs), Run(cfg, Init(m, startedAt), inputs + more), PositionOf(m);
    var sent := Produced(setup, StartProducer(m), calls).sent;
    assert SentInOrder(start, StartProducer(m).sent);
    hide Run, Inv, Produced, CallsInOrder, EventCount, EventsOf, Messages;
    ProducedInOrder(setup, start, StartProducer(m), calls);
    RunKeepsInv(cfg, m, startedAt, inputs);
    RunKeepsInv(cfg, m, startedAt, inputs + more);
    RunKeepsInitial(cfg, Init(m, startedAt), inputs);
    RunKeepsInitial(cfg, Init(m, startedAt), inputs + more);
    CheckpointIsMonotone(cfg, m, startedAt, inputs, more);
    RunReceivesMore(cfg, Init(m, startedAt), inputs, more);
    SavedPositionIsSent(s, InitialEvent(m), sent);
    SavedPositionIsSent(t, InitialEvent(m), sent);
    hide SentInOrder;
    EventPositionsGrow(start, InitialEvent(m), sent, s.log.savedID, t.log.savedID);
  }
}
