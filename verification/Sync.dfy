/** The synchronisation loop of river/sync.go as a state machine over its inputs. */
module Sync {
  import opened Types
  import opened Batch
  import opened Master

  /** Nanoseconds between two attempts to publish the checkpoint. */
  const SAVE_INTERVAL := 3_000_000_000

  datatype Config = Config(flushBulkTime: int, minTimeAfterLastEvent: int, maxTimeAfterFirstEvent: int)

  datatype Subscriber = Subscriber(channel: nat, gtid: Option<GTIDSet>, peer: string)

  type Subscribers = map<string, map<GTIDSet, seq<Subscriber>>>

  /** What was sent on each subscriber's channel. */
  type Inbox = map<nat, seq<GTIDSet>>

  datatype Message =
    | PositionMsg(event: PositionEvent)
    | RowMsg(change: TableRowChange)
    | SubscribeMsg(subscriber: Subscriber)
    | CancelMsg(peer: string)

  datatype BatchResult = BatchApplied | BatchFailed(done: set<string>)

  /** What a flush finds in its environment: the clock at its three readings and the fate of the batch. */
  datatype FlushEnv = FlushEnv(now: int, result: BatchResult, armedAt: int, savedAt: int)

  datatype Input = Receive(msg: Message, env: FlushEnv) | Tick(env: FlushEnv) | Quit

  datatype Status = Running | Stopped | Failed | Panicked

  /** The change queue and the position events still needed to resume from. */
  datatype Queues = Queues(queue: Changes, staged: Changes, first: nat, last: nat, window: seq<PositionEvent>)

  /** Subscribers by peer and requested set, what was sent on their channels, and what each asked for. */
  datatype Clients = Clients(pending: Subscribers, inbox: Inbox, asked: map<nat, GTIDSet>)

  /** The last successful flush: when it looked at the queue, when it armed the timer, and what it left. */
  datatype FlushRecord = FlushRecord(now: int, armedAt: int, survivors: Changes)

  datatype Timing = Timing(timer: Option<int>, lastSaved: int, flushed: Option<FlushRecord>)

  /** What happened so far; the loop itself does not keep this. `received` holds the replication messages in
      order of receipt, `applied` the batches that were applied, `unfinished` the part of a failed batch that
      was not, `savedID` the event id behind the published checkpoint, and `gtidID` that of the event its GTID set
      came from, which is an earlier one when the published event had none. */
  datatype Log = Log(
    initial: PositionEvent,
    received: seq<Message>,
    applied: seq<Changes>,
    unfinished: Changes,
    savedID: nat,
    gtidID: nat)

  /** `master` is the checkpoint in memory, `stored` the one that was last saved to the index. */
  datatype State = State(q: Queues, clients: Clients, timing: Timing, master: Checkpoint, stored: Checkpoint, status: Status,
                         log: Log)

  function InitialEvent(m: Checkpoint): PositionEvent {
    PositionEvent(m.gtid, PositionOf(m), false)
  }

  function Init(m: Checkpoint, startedAt: int): State {
    State(Queues(map[], map[], 0, 0, [InitialEvent(m)]), Clients(map[], map[], map[]), Timing(None, startedAt, None),
          m, m, Running, Log(InitialEvent(m), [], [], map[], 0, 0))
  }

  /* ---------- clients ---------- */

  function Sent(inbox: Inbox, channel: nat): seq<GTIDSet> {
    if channel in inbox then inbox[channel] else []
  }

  function WaitersFor(subs: Subscribers, peer: string, gtid: GTIDSet): seq<Subscriber> {
    if peer in subs && gtid in subs[peer] then subs[peer][gtid] else []
  }

  function WithSubscriber(subs: Subscribers, gtid: GTIDSet, sub: Subscriber): Subscribers {
    subs[sub.peer := (if sub.peer in subs then subs[sub.peer] else map[])
                     [gtid := WaitersFor(subs, sub.peer, gtid) + [sub]]]
  }

  /** Asking a loop that has no GTID set panics. */
  predicate RequestPanics(current: Option<GTIDSet>, sub: Subscriber) {
    sub.gtid.Some? && current.None?
  }

  /** A request for a covered GTID set is answered at once, any other is filed. */
  function Subscribe(c: Clients, current: Option<GTIDSet>, sub: Subscriber): Clients {
    if sub.gtid.None? then c
    else
      var asking := c.(asked := c.asked[sub.channel := sub.gtid.value]);
      if current.None? then asking
      else if sub.gtid.value <= current.value then
        asking.(inbox := c.inbox[sub.channel := Sent(c.inbox, sub.channel) + [current.value]])
      else asking.(pending := WithSubscriber(c.pending, sub.gtid.value, sub))
  }

  /** Position of one pending subscriber in the nested maps. */
  datatype Ticket = Ticket(peer: string, gtid: GTIDSet, k: nat)

  function Tickets(subs: Subscribers): set<Ticket> {
    set p, x, k: nat | p in subs && x in subs[p] && k < |subs[p][x]| :: Ticket(p, x, k)
  }

  function Holder(subs: Subscribers, t: Ticket): Subscriber
    requires t in Tickets(subs)
  {
    subs[t.peer][t.gtid][t.k]
  }

  /** The pending subscribers on one channel that a GTID set satisfies. */
  function Satisfied(subs: Subscribers, gtid: GTIDSet, channel: nat): set<Ticket> {
    set t | t in Tickets(subs) && t.gtid <= gtid && Holder(subs, t).channel == channel
  }

  function SatisfiedChannels(subs: Subscribers, gtid: GTIDSet): set<nat> {
    set t | t in Tickets(subs) && t.gtid <= gtid :: Holder(subs, t).channel
  }

  /** One value for every satisfied subscriber of a channel. */
  function NotifiedInbox(subs: Subscribers, inbox: Inbox, gtid: GTIDSet): Inbox {
    map c | c in inbox.Keys + SatisfiedChannels(subs, gtid) ::
      Sent(inbox, c) + seq(|Satisfied(subs, gtid, c)|, _ => gtid)
  }

  function StillWaiting(subs: Subscribers, gtid: GTIDSet): Subscribers {
    map p | p in subs :: map x | x in subs[p] && !(x <= gtid) :: subs[p][x]
  }

  function Notify(c: Clients, gtid: Option<GTIDSet>): Clients {
    if gtid.None? then c
    else c.(pending := StillWaiting(c.pending, gtid.value), inbox := NotifiedInbox(c.pending, c.inbox, gtid.value))
  }

  /* ---------- receiving ---------- */

  function AddEvent(q: Queues, event: PositionEvent): Queues {
    q.(window := q.window + [event], last := (q.last + 1) % UINT64_RANGE)
  }

  function AddRow(q: Queues, change: TableRowChange): Queues {
    q.(queue := WithRow(q.queue, change.(eventID := q.last)))
  }

  function Received(log: Log, msg: Message): Log {
    log.(received := log.received + [msg])
  }

  function Accept(s: State, msg: Message): State {
    match msg
    case PositionMsg(event) => s.(q := AddEvent(s.q, event), log := Received(s.log, msg))
    case RowMsg(change) => s.(q := AddRow(s.q, change), log := Received(s.log, msg))
    case SubscribeMsg(sub) =>
      s.(clients := Subscribe(s.clients, s.master.gtid, sub),
         status := if RequestPanics(s.master.gtid, sub) then Panicked else s.status)
    case CancelMsg(peer) => s.(clients := s.clients.(pending := s.clients.pending - {peer}))
  }

  /* ---------- flushing ---------- */

  function ReadyAt(cfg: Config, now: int): DocumentChange -> bool {
    (dc: DocumentChange) => now - dc.lastTS >= cfg.minTimeAfterLastEvent || now - dc.firstTS >= cfg.maxTimeAfterFirstEvent
  }

  ghost function Split(q: Queues, isReady: DocumentChange -> bool): Queues {
    q.(staged := Part(q.queue, isReady, true), queue := Part(q.queue, isReady, false))
  }

  function Restrict(b: Changes, indexes: set<string>): Changes {
    map i | i in b && i in indexes :: b[i]
  }

  /** A failed batch ends the loop; whole indexes may already have been applied. */
  function FailBatch(log: Log, staged: Changes, done: set<string>): Log {
    log.(applied := log.applied + [Restrict(staged, done)], unfinished := staged - done)
  }

  function ApplyBatch(log: Log, staged: Changes): Log {
    log.(applied := log.applied + [staged])
  }

  /** Without a bulk interval, documents left in the queue arm a timer; an older timer is stopped. */
  function Rearm(cfg: Config, t: Timing, queue: Changes, env: FlushEnv): Timing {
    t.(timer := if cfg.flushBulkTime != 0 || queue == map[] then t.timer
                else if cfg.minTimeAfterLastEvent > 0 then Some(env.armedAt + cfg.minTimeAfterLastEvent)
                else None,
       flushed := Some(FlushRecord(env.now, env.armedAt, queue)))
  }

  /** The number of events to forget: an unsigned 64-bit difference. */
  ghost function Offset(q: Queues): nat {
    (FirstSeen(q.queue, q.last) - q.first) % UINT64_RANGE
  }

  /** Slides the window of remembered events; an offset beyond the slice panics. */
  ghost function Advance(q: Queues): Queues
    requires Offset(q) <= |q.window|
  {
    q.(first := FirstSeen(q.queue, q.last), window := q.window[Offset(q)..])
  }

  function Published(log: Log, id: nat, head: PositionEvent): Log {
    log.(savedID := id, gtidID := if head.gtid.Some? then id else log.gtidID)
  }

  /** Publishes the head of the window unless the last time was too recent; an empty window panics. */
  function Publish(s: State, savedAt: int): State {
    if savedAt - s.timing.lastSaved <= SAVE_INTERVAL then s
    else if s.q.window == [] then s.(status := Panicked)
    else
      var head := s.q.window[0];
      s.(timing := s.timing.(lastSaved := savedAt), master := Moved(s.master, head),
         stored := if Differs(s.master, head) then Moved(s.master, head) else s.stored,
         log := Published(s.log, s.q.first, head),
         clients := if Differs(s.master, head) then Notify(s.clients, head.gtid) else s.clients)
  }

  ghost function Flush(cfg: Config, s: State, env: FlushEnv): State {
    var split := Split(s.q, ReadyAt(cfg, env.now));
    match env.result
    case BatchFailed(done) => s.(q := split, log := FailBatch(s.log, split.staged, done), status := Failed)
    case BatchApplied =>
      var applied := s.(q := split, log := ApplyBatch(s.log, split.staged),
                        timing := Rearm(cfg, s.timing, split.queue, env));
      if Offset(split) > |split.window| then applied.(status := Panicked)
      else Publish(applied.(q := Advance(split)), env.savedAt)
  }

  /** What a restart finds: when the loop ends, however it ends, it saves the checkpoint once more. */
  function OnDisk(s: State): Checkpoint {
    if s.status == Running then s.stored else s.master
  }

  /* ---------- the loop ---------- */

  /** A timer that is not armed cannot fire. */
  predicate CanTick(cfg: Config, s: State) {
    cfg.flushBulkTime > 0 || s.timing.timer.Some?
  }

  /** A fired timer is gone; a ticker stays. */
  function Fired(cfg: Config, s: State): State {
    if cfg.flushBulkTime == 0 then s.(timing := s.timing.(timer := None)) else s
  }

  ghost function Step(cfg: Config, s: State, input: Input): State {
    if s.status != Running then s
    else
      match input
      case Quit => s.(status := Stopped)
      case Tick(env) => if CanTick(cfg, s) then Flush(cfg, Fired(cfg, s), env) else s
      case Receive(msg, env) =>
        if msg.PositionMsg? && msg.event.force then Flush(cfg, Accept(s, msg), env) else Accept(s, msg)
  }

  ghost function Run(cfg: Config, s: State, inputs: seq<Input>): State {
    if inputs == [] then s else Step(cfg, Run(cfg, s, Front(inputs)), Last(inputs))
  }

  /* ---------- reading the log ---------- */

  function EventCount(received: seq<Message>): nat {
    if received == [] then 0 else EventCount(Front(received)) + if Last(received).PositionMsg? then 1 else 0
  }

  /** All position events by id; id 0 is the checkpoint the loop started from. */
  function EventsOf(initial: PositionEvent, received: seq<Message>): (events: seq<PositionEvent>)
    ensures |events| == EventCount(received) + 1 && events[0] == initial
  {
    if received == [] then [initial]
    else EventsOf(initial, Front(received)) + if Last(received).PositionMsg? then [Last(received).event] else []
  }

  function Events(log: Log): seq<PositionEvent> {
    EventsOf(log.initial, log.received)
  }

  /** The row changes in order of arrival, each stamped with the id of the last position event before it. */
  function Arrivals(received: seq<Message>): seq<TableRowChange> {
    if received == [] then []
    else Arrivals(Front(received)) +
         if Last(received).RowMsg? then [Last(received).change.(eventID := EventCount(Front(received)))] else []
  }

  function OfDoc(changes: seq<TableRowChange>, index: string, d: DocID): seq<TableRowChange> {
    if changes == [] then []
    else OfDoc(Front(changes), index, d) +
         if Last(changes).index == index && Last(changes).docID == d then [Last(changes)] else []
  }

  /** What was applied for one document, batch by batch. */
  function AppliedTo(applied: seq<Changes>, index: string, d: DocID): seq<TableRowChange> {
    if applied == [] then [] else AppliedTo(Front(applied), index, d) + RowsFor(Last(applied), index, d)
  }
}
