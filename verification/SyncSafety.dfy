/** What every step of the synchronisation loop keeps, and what follows for every run. */
module SyncSafety {
  import opened Types
  import opened Batch
  import opened Master
  import opened Sync

  /* ---------- the invariant ---------- */

  /** The window is the tail of all position events, from id `first` to id `last`. */
  ghost predicate WindowFits(events: seq<PositionEvent>, first: nat, last: nat, window: seq<PositionEvent>) {
    first <= last < NO_EVENT_ID && |events| == last + 1 && window == events[first..]
  }

  /** Every change of the batch is stamped inside the window. */
  ghost predicate StampedWithin(b: Changes, lo: nat, hi: nat) {
    WellKept(b) && forall e :: e in EventIDs(b) ==> lo <= e <= hi
  }

  /** For one document, what was applied, what is in flight and what is queued make up, in this order, exactly
      the changes that arrived for it. */
  ghost predicate Accounted(arrivals: seq<TableRowChange>, applied: seq<Changes>, inFlight: Changes, queue: Changes,
                            i: string, d: DocID)
  {
    OfDoc(arrivals, i, d) == AppliedTo(applied, i, d) + RowsFor(inFlight, i, d) + RowsFor(queue, i, d)
  }

  ghost predicate Conserved(arrivals: seq<TableRowChange>, applied: seq<Changes>, inFlight: Changes, queue: Changes) {
    forall i, d :: Accounted(arrivals, applied, inFlight, queue, i, d)
  }

  /** The published position is that of an event at or before the window, and the published GTID set that of an
      event at or before that one. */
  ghost predicate SavedFits(events: seq<PositionEvent>, savedID: nat, gtidID: nat, first: nat, master: Checkpoint) {
    && gtidID <= savedID <= first < |events|
    && PositionOf(master) == events[savedID].pos && master.gtid == events[gtidID].gtid
  }

  ghost predicate QueuesFit(q: Queues, log: Log, m: Checkpoint, inFlight: Changes) {
    && WindowFits(Events(log), q.first, q.last, q.window)
    && StampedWithin(q.queue, q.first, q.last)
    && StampedWithin(inFlight, q.first, q.last)
    && Conserved(Arrivals(log.received), log.applied, inFlight, q.queue)
    && SavedFits(Events(log), log.savedID, log.gtidID, q.first, m)
  }

  ghost predicate Inv(s: State) {
    QueuesFit(s.q, s.log, s.master, s.log.unfinished) && (s.status == Running ==> s.log.unfinished == map[])
  }

  lemma NothingStamped(lo: nat, hi: nat)
    ensures StampedWithin(map[], lo, hi)
  {
    assert EventIDs(map[]) == {};
  }

  lemma InitHasInv(m: Checkpoint, startedAt: int)
    ensures Inv(Init(m, startedAt))
  {
    NothingStamped(0, 0);
    assert Arrivals([]) == [];
    forall i, d ensures Accounted([], [], map[], map[], i, d) {
      assert OfDoc([], i, d) == [] && AppliedTo([], i, d) == [];
    }
  }

  /* ---------- receiving ---------- */

  lemma ReceivedEvent(initial: PositionEvent, received: seq<Message>, msg: Message)
    ensures EventCount(received + [msg]) == EventCount(received) + if msg.PositionMsg? then 1 else 0
    ensures EventsOf(initial, received + [msg])
         == if msg.PositionMsg? then EventsOf(initial, received) + [msg.event] else EventsOf(initial, received)
    ensures Arrivals(received + [msg])
         == if msg.RowMsg? then Arrivals(received) + [msg.change.(eventID := EventCount(received))] else Arrivals(received)
  {
    assert Front(received + [msg]) == received && Last(received + [msg]) == msg;
  }

  lemma ArrivedFor(changes: seq<TableRowChange>, c: TableRowChange, i: string, d: DocID)
    ensures OfDoc(changes + [c], i, d) == OfDoc(changes, i, d) + if c.index == i && c.docID == d then [c] else []
  {
    assert Front(changes + [c]) == changes && Last(changes + [c]) == c;
  }

  lemma AddedRowIDs(b: Changes, c: TableRowChange)
    requires WellKept(b)
    ensures EventIDs(WithRow(b, c)) <= EventIDs(b) + {c.eventID}
  {
    forall e | e in EventIDs(WithRow(b, c)) ensures e in EventIDs(b) + {c.eventID} {
      EventIDsAre(WithRow(b, c), e);
      var i, d, k :| Holds(WithRow(b, c), i, d) && 0 <= k < |RowsFor(WithRow(b, c), i, d)|
                     && RowsFor(WithRow(b, c), i, d)[k].eventID == e;
      AddedRow(b, c, i, d);
      if k < |RowsFor(b, i, d)| {
        assert Holds(b, i, d) && RowsFor(b, i, d)[k].eventID == e;
        EventIDsAre(b, e);
      }
    }
  }

  lemma RowIsStamped(b: Changes, c: TableRowChange, lo: nat, hi: nat)
    requires StampedWithin(b, lo, hi) && lo <= c.eventID <= hi
    ensures StampedWithin(WithRow(b, c), lo, hi)
  {
    RowStaysKept(b, c);
    AddedRowIDs(b, c);
  }

  lemma RowIsAccounted(arrivals: seq<TableRowChange>, applied: seq<Changes>, queue: Changes, c: TableRowChange,
                       lo: nat, hi: nat)
    requires StampedWithin(queue, lo, hi) && Conserved(arrivals, applied, map[], queue)
    ensures Conserved(arrivals + [c], applied, map[], WithRow(queue, c))
  {
    forall i, d ensures Accounted(arrivals + [c], applied, map[], WithRow(queue, c), i, d) {
      assert Accounted(arrivals, applied, map[], queue, i, d);
      AddedRow(queue, c, i, d);
      ArrivedFor(arrivals, c, i, d);
    }
  }

  lemma LaterIsWider(b: Changes, lo: nat, hi: nat)
    requires StampedWithin(b, lo, hi)
    ensures StampedWithin(b, lo, hi + 1)
  {
  }

  lemma EventKeepsFit(q: Queues, log: Log, m: Checkpoint, event: PositionEvent)
    requires QueuesFit(q, log, m, map[]) && q.last + 1 < NO_EVENT_ID
    ensures QueuesFit(AddEvent(q, event), Received(log, PositionMsg(event)), m, map[])
  {
    hide Conserved, StampedWithin, EventsOf, Arrivals, EventCount;
    ReceivedEvent(log.initial, log.received, PositionMsg(event));
    assert q.window + [event] == (Events(log) + [event])[q.first..];
    LaterIsWider(q.queue, q.first, q.last);
    NothingStamped(q.first, q.last + 1);
  }

  lemma RowKeepsFit(q: Queues, log: Log, m: Checkpoint, c: TableRowChange)
    requires QueuesFit(q, log, m, map[])
    ensures QueuesFit(AddRow(q, c), Received(log, RowMsg(c)), m, map[])
  {
    hide Conserved, StampedWithin, EventsOf, Arrivals, EventCount, WithRow;
    var stamped := c.(eventID := q.last);
    ReceivedEvent(log.initial, log.received, RowMsg(c));
    EventCountIs(log.initial, log.received);
    RowIsStamped(q.queue, stamped, q.first, q.last);
    RowIsAccounted(Arrivals(log.received), log.applied, q.queue, stamped, q.first, q.last);
  }

  lemma AcceptKeepsInv(s: State, msg: Message)
    requires Inv(s) && s.status == Running && s.q.last + 1 < NO_EVENT_ID
    ensures Inv(Accept(s, msg))
    ensures Accept(s, msg).log.savedID == s.log.savedID && Accept(s, msg).q.last <= s.q.last + 1
  {
    hide QueuesFit;
    match msg
    case PositionMsg(event) => EventKeepsFit(s.q, s.log, s.master, event);
    case RowMsg(c) => RowKeepsFit(s.q, s.log, s.master, c);
    case SubscribeMsg(sub) =>
    case CancelMsg(_) =>
  }

  lemma EventCountIs(initial: PositionEvent, received: seq<Message>)
    ensures EventCount(received) == |EventsOf(initial, received)| - 1
  {
  }

  /* ---------- flushing ---------- */

  lemma PartIsStamped(b: Changes, isReady: DocumentChange -> bool, want: bool, lo: nat, hi: nat)
    requires StampedWithin(b, lo, hi)
    ensures StampedWithin(Part(b, isReady, want), lo, hi)
  {
    PartIsKept(b, isReady, want);
    PartEventIDs(b, isReady, want);
  }

  lemma PartsAreAccounted(arrivals: seq<TableRowChange>, applied: seq<Changes>, queue: Changes, isReady: DocumentChange -> bool)
    requires Conserved(arrivals, applied, map[], queue)
    ensures Conserved(arrivals, applied, Part(queue, isReady, true), Part(queue, isReady, false))
  {
    forall i, d ensures Accounted(arrivals, applied, Part(queue, isReady, true), Part(queue, isReady, false), i, d) {
      assert Accounted(arrivals, applied, map[], queue, i, d);
      PartKeepsDocs(queue, isReady, true, i, d);
      PartKeepsDocs(queue, isReady, false, i, d);
    }
  }

  /** After the split the staged part is in flight. */
  lemma SplitFlies(q: Queues, log: Log, m: Checkpoint, isReady: DocumentChange -> bool)
    requires QueuesFit(q, log, m, map[])
    ensures QueuesFit(Split(q, isReady), log, m, Split(q, isReady).staged)
  {
    hide Conserved, StampedWithin, EventsOf, Arrivals, EventCount, Part;
    PartIsStamped(q.queue, isReady, true, q.first, q.last);
    PartIsStamped(q.queue, isReady, false, q.first, q.last);
    PartsAreAccounted(Arrivals(log.received), log.applied, q.queue, isReady);
  }

  lemma AppliedMore(applied: seq<Changes>, b: Changes, i: string, d: DocID)
    ensures AppliedTo(applied + [b], i, d) == AppliedTo(applied, i, d) + RowsFor(b, i, d)
  {
    assert Front(applied + [b]) == applied && Last(applied + [b]) == b;
  }

  lemma PartlyAppliedLists(staged: Changes, done: set<string>, i: string, d: DocID)
    ensures RowsFor(Restrict(staged, done), i, d) == if i in done then RowsFor(staged, i, d) else []
    ensures RowsFor(staged - done, i, d) == if i in done then [] else RowsFor(staged, i, d)
  {
  }

  lemma PartlyAppliedIsAccounted(arrivals: seq<TableRowChange>, applied: seq<Changes>, staged: Changes, queue: Changes,
                                 done: set<string>)
    requires Conserved(arrivals, applied, staged, queue)
    ensures Conserved(arrivals, applied + [Restrict(staged, done)], staged - done, queue)
  {
    forall i, d ensures Accounted(arrivals, applied + [Restrict(staged, done)], staged - done, queue, i, d) {
      assert Accounted(arrivals, applied, staged, queue, i, d);
      hide AppliedTo, OfDoc, RowsFor;
      PartlyAppliedLists(staged, done, i, d);
      AppliedMore(applied, Restrict(staged, done), i, d);
    }
  }

  lemma RestIsStamped(b: Changes, done: set<string>, lo: nat, hi: nat)
    requires StampedWithin(b, lo, hi)
    ensures StampedWithin(b - done, lo, hi)
  {
    forall e | e in EventIDs(b - done) ensures e in EventIDs(b) {
      var i :| i in b - done && e in IndexEventIDs((b - done)[i]);
      assert i in b;
    }
  }

  lemma FailLands(q: Queues, log: Log, m: Checkpoint, staged: Changes, done: set<string>)
    requires QueuesFit(q, log, m, staged)
    ensures QueuesFit(q, FailBatch(log, staged, done), m, FailBatch(log, staged, done).unfinished)
  {
    hide Conserved, StampedWithin, EventsOf, Arrivals, EventCount, Restrict;
    RestIsStamped(staged, done, q.first, q.last);
    PartlyAppliedIsAccounted(Arrivals(log.received), log.applied, staged, q.queue, done);
  }

  lemma AppliedIsAccounted(arrivals: seq<TableRowChange>, applied: seq<Changes>, staged: Changes, queue: Changes)
    requires Conserved(arrivals, applied, staged, queue)
    ensures Conserved(arrivals, applied + [staged], map[], queue)
  {
    forall i, d ensures Accounted(arrivals, applied + [staged], map[], queue, i, d) {
      assert Accounted(arrivals, applied, staged, queue, i, d);
      AppliedMore(applied, staged, i, d);
    }
  }

  lemma ApplyLands(q: Queues, log: Log, m: Checkpoint, staged: Changes)
    requires QueuesFit(q, log, m, staged)
    ensures QueuesFit(q, ApplyBatch(log, staged), m, map[])
  {
    hide Conserved, StampedWithin, EventsOf, Arrivals, EventCount;
    NothingStamped(q.first, q.last);
    AppliedIsAccounted(Arrivals(log.received), log.applied, staged, q.queue);
  }

  /** The head of the window is the lowest event id still queued, or the last event when nothing is. */
  ghost predicate Tight(q: Queues) {
    if EventIDs(q.queue) == {} then q.first == q.last
    else q.first in EventIDs(q.queue) && forall e :: e in EventIDs(q.queue) ==> q.first <= e
  }

  lemma FirstSeenInWindow(b: Changes, first: nat, last: nat)
    requires StampedWithin(b, first, last) && first <= last < NO_EVENT_ID
    ensures first <= FirstSeen(b, last) <= last
    ensures StampedWithin(b, FirstSeen(b, last), last)
    ensures if EventIDs(b) == {} then FirstSeen(b, last) == last else FirstSeen(b, last) in EventIDs(b)
  {
    FirstSeenIsMinimum(b, last);
    if EventIDs(b) != {} {
      var e :| e in EventIDs(b);
      assert e < NO_EVENT_ID;
    }
  }

  /** Sliding the window: the unsigned offset does not wrap, stays inside the slice and never empties it. */
  lemma OffsetIsInside(q: Queues, log: Log)
    requires WindowFits(Events(log), q.first, q.last, q.window) && StampedWithin(q.queue, q.first, q.last)
    ensures Offset(q) == FirstSeen(q.queue, q.last) - q.first && Offset(q) < |q.window|
  {
    hide StampedWithin, EventsOf;
    FirstSeenInWindow(q.queue, q.first, q.last);
  }

  lemma AdvanceIsTight(q: Queues, log: Log)
    requires WindowFits(Events(log), q.first, q.last, q.window) && StampedWithin(q.queue, q.first, q.last)
    ensures Offset(q) <= |q.window| && Tight(Advance(q)) && Advance(q).window != []
    ensures q.first <= Advance(q).first <= q.last
  {
    OffsetIsInside(q, log);
    FirstSeenInWindow(q.queue, q.first, q.last);
    hide EventsOf, FirstSeen;
  }

  lemma AdvanceKeepsFit(q: Queues, log: Log, m: Checkpoint)
    requires QueuesFit(q, log, m, map[]) && Offset(q) <= |q.window|
    ensures QueuesFit(Advance(q), log, m, map[])
  {
    OffsetIsInside(q, log);
    FirstSeenInWindow(q.queue, q.first, q.last);
    var synced := FirstSeen(q.queue, q.last);
    hide Conserved, StampedWithin, EventsOf, Arrivals, EventCount, FirstSeen, Offset;
    assert q.window[synced - q.first..] == Events(log)[synced..];
    NothingStamped(synced, q.last);
  }

  lemma PublishKeepsFit(q: Queues, log: Log, m: Checkpoint)
    requires QueuesFit(q, log, m, map[]) && q.window != []
    ensures QueuesFit(q, Published(log, q.first, q.window[0]), Moved(m, q.window[0]), map[])
  {
    hide Conserved, StampedWithin, EventsOf, Arrivals, EventCount;
    assert q.window[0] == Events(log)[q.first];
  }

  lemma SavedIsBehind(q: Queues, log: Log, m: Checkpoint, inFlight: Changes)
    requires QueuesFit(q, log, m, inFlight)
    ensures log.savedID <= q.first
  {
  }

  lemma PublishKeepsInv(s: State, savedAt: int)
    requires QueuesFit(s.q, s.log, s.master, map[]) && s.q.window != [] && s.status == Running && s.log.unfinished == map[]
    ensures Inv(Publish(s, savedAt)) && Publish(s, savedAt).status == Running && Publish(s, savedAt).q == s.q
    ensures s.log.savedID <= Publish(s, savedAt).log.savedID <= s.q.first
  {
    SavedIsBehind(s.q, s.log, s.master, map[]);
    PublishKeepsFit(s.q, s.log, s.master);
    hide QueuesFit, Notify;
  }

  lemma FlushKeepsInv(cfg: Config, s: State, env: FlushEnv)
    requires Inv(s) && s.status == Running
    ensures Inv(Flush(cfg, s, env))
    ensures s.log.savedID <= Flush(cfg, s, env).log.savedID && Flush(cfg, s, env).q.last == s.q.last
    ensures match env.result
            case BatchFailed(_) => Flush(cfg, s, env).status == Failed
            case BatchApplied => Flush(cfg, s, env).status == Running && Tight(Flush(cfg, s, env).q) &&
                                 s.q.first <= Flush(cfg, s, env).q.first && Flush(cfg, s, env).q.window != []
  {
    var split := Split(s.q, ReadyAt(cfg, env.now));
    SplitFlies(s.q, s.log, s.master, ReadyAt(cfg, env.now));
    match env.result
    case BatchFailed(done) =>
      FailLands(split, s.log, s.master, split.staged, done);
    case BatchApplied =>
      ApplyLands(split, s.log, s.master, split.staged);
      var log := ApplyBatch(s.log, split.staged);
      AdvanceIsTight(split, log);
      AdvanceKeepsFit(split, log, s.master);
      hide QueuesFit, Publish, Offset, Tight, Part, FirstSeen;
      var timing := Rearm(cfg, s.timing, split.queue, env);
      PublishKeepsInv(s.(q := Advance(split), log := log, timing := timing), env.savedAt);
  }

  lemma FlushReceivesNothing(cfg: Config, s: State, env: FlushEnv)
    ensures Flush(cfg, s, env).log.received == s.log.received
  {
    hide Offset, Part, Notify, FirstSeen;
  }

  /* ---------- every run ---------- */

  lemma TickKeepsInv(cfg: Config, s: State, env: FlushEnv)
    requires Inv(s)
    ensures Inv(Step(cfg, s, Tick(env)))
    ensures Step(cfg, s, Tick(env)).q.last <= s.q.last + 1 && s.log.savedID <= Step(cfg, s, Tick(env)).log.savedID
  {
    hide Flush, QueuesFit;
    if s.status == Running && CanTick(cfg, s) {
      FlushKeepsInv(cfg, Fired(cfg, s), env);
    }
  }

  lemma ReceiveKeepsInv(cfg: Config, s: State, msg: Message, env: FlushEnv)
    requires Inv(s) && s.q.last + 1 < NO_EVENT_ID
    ensures Inv(Step(cfg, s, Receive(msg, env)))
    ensures Step(cfg, s, Receive(msg, env)).q.last <= s.q.last + 1
    ensures s.log.savedID <= Step(cfg, s, Receive(msg, env)).log.savedID
  {
    hide Flush, QueuesFit;
    if s.status == Running {
      AcceptKeepsInv(s, msg);
      if msg.PositionMsg? && msg.event.force {
        FlushKeepsInv(cfg, Accept(s, msg), env);
      }
    }
  }

  lemma StepKeepsInv(cfg: Config, s: State, input: Input)
    requires Inv(s) && s.q.last + 1 < NO_EVENT_ID
    ensures Inv(Step(cfg, s, input))
    ensures Step(cfg, s, input).q.last <= s.q.last + 1 && s.log.savedID <= Step(cfg, s, input).log.savedID
  {
    match input
    case Quit =>
      hide QueuesFit;
    case Tick(env) =>
      hide Inv, Step;
      TickKeepsInv(cfg, s, env);
    case Receive(msg, env) =>
      hide Inv, Step;
      ReceiveKeepsInv(cfg, s, msg, env);
  }

  /** The invariant holds in every state the loop can reach, as long as the 64-bit event counter does not wrap. */
  lemma {:induction false} RunKeepsInv(cfg: Config, m: Checkpoint, startedAt: int, inputs: seq<Input>)
    requires |inputs| < NO_EVENT_ID
    ensures Inv(Run(cfg, Init(m, startedAt), inputs))
    ensures Run(cfg, Init(m, startedAt), inputs).q.last <= |inputs|
  {
    if inputs == [] {
      InitHasInv(m, startedAt);
    } else {
      hide Inv, Step;
      RunKeepsInv(cfg, m, startedAt, Front(inputs));
      StepKeepsInv(cfg, Run(cfg, Init(m, startedAt), Front(inputs)), Last(inputs));
    }
  }

  /** Over a run the event behind the published checkpoint never moves back. */
  lemma {:induction false} CheckpointIsMonotone(cfg: Config, m: Checkpoint, startedAt: int, inputs: seq<Input>, more: seq<Input>)
    requires |inputs| + |more| < NO_EVENT_ID
    ensures Run(cfg, Init(m, startedAt), inputs).log.savedID <= Run(cfg, Init(m, startedAt), inputs + more).log.savedID
  {
    if more == [] {
      assert inputs + more == inputs;
    } else {
      hide Inv, Step;
      CheckpointIsMonotone(cfg, m, startedAt, inputs, Front(more));
      var mid := inputs + Front(more);
      RunKeepsInv(cfg, m, startedAt, mid);
      StepKeepsInv(cfg, Run(cfg, Init(m, startedAt), mid), Last(more));
      RunOneMore(cfg, Init(m, startedAt), inputs, more);
    }
  }

  lemma RunOneMore(cfg: Config, s: State, inputs: seq<Input>, more: seq<Input>)
    requires more != []
    ensures Run(cfg, s, inputs + more) == Step(cfg, Run(cfg, s, inputs + Front(more)), Last(more))
  {
    hide Step;
    assert Front(inputs + more) == inputs + Front(more);
  }

  /* ---------- the stored checkpoint ---------- */

  function Members(gtid: Option<GTIDSet>): GTIDSet {
    if gtid.Some? then gtid.value else {}
  }

  /** The stored checkpoint has the position of the one in memory, and a GTID set that covers it. */
  ghost predicate StoredFits(s: State) {
    s.stored.pos == s.master.pos && Members(s.master.gtid) <= Members(s.stored.gtid)
  }

  lemma PublishKeepsStored(s: State, savedAt: int)
    requires StoredFits(s)
    ensures StoredFits(Publish(s, savedAt))
  {
    hide Notify;
  }

  lemma FlushKeepsStored(cfg: Config, s: State, env: FlushEnv)
    requires StoredFits(s)
    ensures StoredFits(Flush(cfg, s, env))
  {
    hide Publish, Part, Offset, StoredFits;
    var split := Split(s.q, ReadyAt(cfg, env.now));
    if env.result.BatchApplied? && Offset(split) <= |split.window| {
      var settled := s.(q := Advance(split), log := ApplyBatch(s.log, split.staged),
                        timing := Rearm(cfg, s.timing, split.queue, env));
      StoredElsewhere(s, settled);
      PublishKeepsStored(settled, env.savedAt);
    } else {
      StoredElsewhere(s, Flush(cfg, s, env));
    }
  }

  lemma StoredElsewhere(s: State, t: State)
    requires StoredFits(s) && t.master == s.master && t.stored == s.stored
    ensures StoredFits(t)
  {
  }

  lemma StepKeepsStored(cfg: Config, s: State, input: Input)
    requires StoredFits(s)
    ensures StoredFits(Step(cfg, s, input))
  {
    hide Flush, AddRow, AddEvent, Subscribe;
    match input
    case Quit =>
    case Tick(env) => FlushKeepsStored(cfg, Fired(cfg, s), env);
    case Receive(msg, env) => FlushKeepsStored(cfg, Accept(s, msg), env);
  }

  /** Over every run the position that a restart finds is the published one. */
  lemma {:induction false} StoredIsPublished(cfg: Config, m: Checkpoint, startedAt: int, inputs: seq<Input>)
    ensures StoredFits(Run(cfg, Init(m, startedAt), inputs))
    ensures OnDisk(Run(cfg, Init(m, startedAt), inputs)).pos == Run(cfg, Init(m, startedAt), inputs).master.pos
  {
    if inputs != [] {
      hide Step;
      StoredIsPublished(cfg, m, startedAt, Front(inputs));
      StepKeepsStored(cfg, Run(cfg, Init(m, startedAt), Front(inputs)), Last(inputs));
    }
  }
}
