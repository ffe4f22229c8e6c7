/** The synchronisation loop as it runs (river/sync.go): an object whose fields the loop updates step by step. Every
    method leaves it in the state that the machine of `Sync` names, so what is proved about runs of the machine
    holds of the loop. */
module SyncLoop {
  import opened Types
  import opened Batch
  import opened Master
  import opened Sync
  import opened SyncSafety
  import opened Server
  import opened Indexing
  import opened Executing
  import opened Notifying
  import opened Splitting

  class SyncState {
    var queue: BatchedChangeSet
    var staged: BatchedChangeSet
    var gtidSubscribers: Subscribers
    var firstPositionEventID: nat
    var lastPositionEventID: nat
    var positionEvents: seq<PositionEvent>
    /** When the flush timer fires, if it is armed. */
    var flushTimer: Option<int>
    var lastSavedTime: int
    var status: Status
    const master: MasterState
    /** What the loop has sent on the channels of its clients. */
    var inbox: Inbox
    /** The checkpoint in the index that keeps it. */
    var stored: Checkpoint
    const sources: map<string, DataSource>
    /** The search servers. */
    var servers: Cluster

    ghost var asked: map<nat, GTIDSet>
    ghost var flushed: Option<FlushRecord>
    ghost var log: Log
    /** The servers before the first batch and after each one, and the database each batch was read from. */
    ghost var states: seq<Cluster>
    ghost var databases: seq<Database>

    constructor (master: MasterState, startedAt: int, sources: map<string, DataSource>, servers: Cluster)
      ensures this.master == master && this.sources == sources && Valid() && fresh(Repr() - {master})
      ensures View() == Init(master.View(), startedAt)
      ensures this.servers == servers && states == [servers] && databases == [] && ServersFollow()
    {
      this.master, this.sources, this.servers := master, sources, servers;
      states, databases := [servers], [];
      queue := new BatchedChangeSet("queue");
      staged := new BatchedChangeSet("staged");
      gtidSubscribers, inbox := map[], map[];
      firstPositionEventID, lastPositionEventID := 0, 0;
      var initial := InitialEvent(master.View());
      positionEvents := [initial];
      flushTimer, lastSavedTime, status, stored := None, startedAt, Running, master.View();
      asked, flushed, log := map[], None, Log(initial, [], [], map[], 0, 0);
    }

    ghost predicate Valid()
      reads this
    {
      queue != staged
    }

    ghost function Repr(): set<object>
      reads this
    {
      {this, queue, staged, master}
    }

    /** What the log counts as applied was executed on the servers, which, while the loop runs, are as it left them. */
    ghost predicate ServersFollow()
      reads this
    {
      Executed(log.applied, sources, databases, states) && (status == Running ==> Last(states) == servers)
    }

    ghost function Q(): Queues
      reads this, queue, staged
    {
      Queues(queue.changes, staged.changes, firstPositionEventID, lastPositionEventID, positionEvents)
    }

    ghost function C(): Clients
      reads this
    {
      Clients(gtidSubscribers, inbox, asked)
    }

    ghost function T(): Timing
      reads this
    {
      Timing(flushTimer, lastSavedTime, flushed)
    }

    ghost function View(): State
      reads Repr()
    {
      State(Q(), C(), T(), master.View(), stored, status, log)
    }

    /* ---------- receiving ---------- */

    method ProcessGTIDSubscribeRequest(gs: Subscriber)
      requires Valid()
      modifies this`gtidSubscribers, this`inbox, this`asked, this`status
      ensures View() == old(View()).(clients := Subscribe(old(C()), master.gtid, gs),
                                     status := if RequestPanics(master.gtid, gs) then Panicked else old(status))
    {
      if gs.gtid.None? {
        return;
      }
      asked := asked[gs.channel := gs.gtid.value];
      var currentGTID := master.gtid;
      if currentGTID.None? {
        status := Panicked;
        return;
      }
      var gtid, peer := gs.gtid.value, gs.peer;
      if gtid <= currentGTID.value {
        inbox := inbox[gs.channel := Sent(inbox, gs.channel) + [currentGTID.value]];
      } else {
        gtidSubscribers := FileSubscriber(gtidSubscribers, peer, gtid, gs);
      }
    }

    static method FileSubscriber(subs: Subscribers, peer: string, gtid: GTIDSet, gs: Subscriber) returns (filed: Subscribers)
      requires peer == gs.peer
      ensures filed == WithSubscriber(subs, gtid, gs)
    {
      filed := subs;
      if peer !in filed {
        filed := filed[peer := map[]];
      }
      var peerSubs := filed[peer];
      if gtid !in peerSubs {
        peerSubs := peerSubs[gtid := []];
      }
      assert peerSubs[gtid] == WaitersFor(subs, peer, gtid);
      peerSubs := peerSubs[gtid := peerSubs[gtid] + [gs]];
      filed := filed[peer := peerSubs];
      ghost var known := if peer in subs then subs[peer] else map[];
      assert peerSubs == known[gtid := WaitersFor(subs, peer, gtid) + [gs]];
      assert filed == subs[peer := peerSubs];
    }

    method AcceptPosition(event: PositionEvent) returns (needFlush: bool)
      requires Valid()
      modifies this`positionEvents, this`lastPositionEventID, this`log
      ensures View() == Accept(old(View()), PositionMsg(event)) && needFlush == event.force
    {
      positionEvents := positionEvents + [event];
      lastPositionEventID := (lastPositionEventID + 1) % UINT64_RANGE;
      needFlush := event.force;
      log := Received(log, PositionMsg(event));
    }

    method AcceptRow(change: TableRowChange)
      requires Valid()
      modifies queue, this`log
      ensures View() == Accept(old(View()), RowMsg(change))
    {
      queue.AddRowChange(change.(eventID := lastPositionEventID));
      log := Received(log, RowMsg(change));
    }

    /** Takes one message from the channel. */
    method AcceptMessage(msg: Message) returns (needFlush: bool)
      requires Valid()
      modifies queue, this`positionEvents, this`lastPositionEventID, this`gtidSubscribers, this`inbox, this`asked, this`status,
        this`log
      ensures log.applied == old(log.applied) && (msg.PositionMsg? ==> status == old(status))
      ensures status == Running ==> old(status) == Running
      ensures View() == Accept(old(View()), msg)
      ensures needFlush == (msg.PositionMsg? && msg.event.force)
    {
      needFlush := false;
      match msg
      case PositionMsg(event) => needFlush := AcceptPosition(event);
      case RowMsg(change) => AcceptRow(change);
      case SubscribeMsg(subscriber) => ProcessGTIDSubscribeRequest(subscriber);
      case CancelMsg(peer) => gtidSubscribers := gtidSubscribers - {peer};
    }

    /* ---------- flushing ---------- */

    method SplitQueue(isReady: DocumentChange -> bool)
      requires Valid() && WellKept(queue.changes)
      modifies this`queue, this`staged
      ensures Valid() && fresh(queue) && fresh(staged)
      ensures View() == old(View()).(q := Split(old(Q()), isReady))
    {
      var ready, notReady := SplitChanges(queue.changes, isReady);
      staged := ready;
      queue := notReady;
    }

    method RearmTimer(cfg: Config, clock: Clock)
      requires Valid()
      modifies this`flushTimer, this`flushed
      ensures View() == old(View()).(timing := Rearm(cfg, old(T()), queue.changes, EnvAt(clock, BatchApplied)))
    {
      if cfg.flushBulkTime == 0 && |queue.changes| > 0 {
        flushTimer := None;
        if cfg.minTimeAfterLastEvent > 0 {
          flushTimer := Some(clock.armedAt + cfg.minTimeAfterLastEvent);
        }
      }
      flushed := Some(FlushRecord(clock.now, clock.armedAt, queue.changes));
    }

    /** Forgets the events before the oldest one still needed. */
    method SlideWindow() returns (inBounds: bool)
      requires Valid()
      modifies this`firstPositionEventID, this`positionEvents, this`status
      ensures inBounds == (Offset(old(Q())) <= |old(positionEvents)|)
      ensures View() == if inBounds then old(View()).(q := Advance(old(Q()))) else old(View()).(status := Panicked)
    {
      var syncedPositionEventID := queue.FirstSeenPositionEventID(lastPositionEventID);
      var offset := (syncedPositionEventID - firstPositionEventID) % UINT64_RANGE;
      if offset > |positionEvents| {
        status := Panicked;
        return false;
      }
      inBounds := true;
      firstPositionEventID := syncedPositionEventID;
      positionEvents := positionEvents[offset..];
    }

    method ProcessGTIDSubscribers()
      requires Valid() && positionEvents != []
      modifies this`gtidSubscribers, this`inbox
      ensures View() == old(View()).(clients := Notify(old(C()), positionEvents[0].gtid))
    {
      var newGTID := positionEvents[0].gtid;
      if newGTID.None? {
        return;
      }
      gtidSubscribers, inbox := NotifyAll(gtidSubscribers, newGTID.value, inbox);
    }

    method SaveState()
      modifies this`stored
      ensures View() == old(View()).(stored := master.View())
    {
      stored := master.View();
    }

    /** Publishes the head of the window unless that happened a moment ago. */
    method PublishCheckpoint(savedAt: int)
      requires Valid()
      modifies this`lastSavedTime, this`log, this`status, this`gtidSubscribers, this`inbox, this`stored, master
      ensures log.applied == old(log.applied) && (status == Running ==> old(status) == Running)
      ensures View() == Publish(old(View()), savedAt)
    {
      if savedAt - lastSavedTime > SAVE_INTERVAL {
        if positionEvents == [] {
          status := Panicked;
          return;
        }
        lastSavedTime := savedAt;
        var hasChanged := master.UpdatePosition(positionEvents[0]);
        log := Published(log, firstPositionEventID, positionEvents[0]);
        if hasChanged {
          SaveState();
          ProcessGTIDSubscribers();
        }
      }
    }

    /** Applies the staged batch to the servers, as the given database answers. */
    method ApplyStaged(database: Database) returns (result: BatchResult)
      requires Valid() && status == Running && ServersFollow()
      requires SourcesFit(staged.changes, sources) && DatabaseFits(database)
      modifies this`servers, this`states, this`databases, this`log, this`status
      ensures OutcomeFits(staged.changes, sources, database, result, old(servers), servers)
      ensures ServersFollow() && old(states) <= states && databases == old(databases) + [database]
      ensures View() == old(View()).(log := LogAfter(old(log), staged.changes, result),
                                     status := if result.BatchApplied? then Running else Failed)
    {
      hide SourcesFit, DatabaseFits, Executed, OutcomeFits, LogAfter;
      var after;
      after, result := ApplyBatchTo(staged.changes, sources, database, servers);
      RecordOutcome(database, result, after);
      servers := after;
      if result.BatchFailed? {
        status := Failed;
      }
    }

    /** Notes what was executed. */
    ghost method RecordOutcome(database: Database, result: BatchResult, after: Cluster)
      requires Executed(log.applied, sources, databases, states)
      requires OutcomeFits(staged.changes, sources, database, result, Last(states), after)
      modifies this`states, this`databases, this`log
      ensures Executed(log.applied, sources, databases, states)
      ensures old(states) <= states && databases == old(databases) + [database]
      ensures result.BatchApplied? ==> Last(states) == after
      ensures log == LogAfter(old(log), staged.changes, result)
    {
      hide SourcesFit, DatabaseFits, Executed, OutcomeFits, LogAfter;
      var next := OutcomeIsExecuted(log, staged.changes, sources, database, result, databases, states, after);
      states, databases, log := next, databases + [database], LogAfter(log, staged.changes, result);
    }

    /** What follows a batch that was applied. */
    method Settle(cfg: Config, clock: Clock)
      requires Valid() && status == Running
      modifies this`flushTimer, this`flushed, this`firstPositionEventID, this`positionEvents, this`lastSavedTime, this`log,
        this`status, this`gtidSubscribers, this`inbox, this`stored, master
      ensures log.applied == old(log.applied)
      ensures View() == Settled(cfg, old(View()), EnvAt(clock, BatchApplied))
    {
      hide FirstSeen, Advance, Offset, Rearm, Publish;
      RearmTimer(cfg, clock);
      var inBounds := SlideWindow();
      if inBounds {
        PublishCheckpoint(clock.savedAt);
      }
    }

    /** One flush: it executes the batch, whose outcome is the one in the environment of the machine's flush. */
    method FlushQueue(cfg: Config, clock: Clock) returns (result: BatchResult)
      requires Valid() && status == Running && ServersFollow() && WellKept(queue.changes)
      requires SourcesFit(queue.changes, sources) && DatabaseFits(clock.database)
      modifies Repr()
      ensures Valid() && fresh({queue, staged}) && ServersFollow() && old(states) <= states
      ensures databases == old(databases) + [clock.database]
      ensures OutcomeFits(staged.changes, sources, clock.database, result, old(servers), servers)
      ensures View() == Flush(cfg, old(View()), EnvAt(clock, result))
    {
      hide Split, Part, SourcesFit, Executed, DatabaseFits, Settled, Flush, LogAfter, OutcomeFits;
      PartCanBeApplied(queue.changes, ReadyAt(cfg, clock.now), true, sources);
      SplitStages(Q(), ReadyAt(cfg, clock.now));
      ghost var before := View();
      SplitQueue(ReadyAt(cfg, clock.now));
      result := ApplyStaged(clock.database);
      FlushIs(cfg, before, EnvAt(clock, result));
      if result.BatchApplied? {
        Settle(cfg, clock);
      }
    }

    /* ---------- the loop ---------- */

    /** One turn of the loop: waits for a message, the timer or the end, and flushes when that is called for. The input of the
        machine's step is what happened, with the outcome of the batch if there was one. */
    method Turn(cfg: Config, what: Occurrence, ghost schemas: Schemas) returns (ghost input: Input)
      requires Valid() && status == Running && ServersFollow() && Inv(View()) && HaveParts(sources)
      requires lastPositionEventID + 1 < NO_EVENT_ID && AllSized(schemas, log.received) && OccurrenceFits(schemas, what)
      modifies Repr()
      ensures Valid() && fresh({queue, staged} - old({queue, staged})) && ServersFollow() && old(states) <= states
      ensures databases == old(databases) + Queried(cfg, old(View()), what)
      ensures Happened(what, input) && View() == Step(cfg, old(View()), input)
    {
      hide Inv, AllSized, Flush, HaveParts, Executed, SourcesFit, WellKept, Accept, DatabaseFits, SizedIn, OutcomeFits;
      match what
      case Ends =>
        status, input := Stopped, Quit;
      case Fires(clock) =>
        input := Tick(EnvAt(clock, BatchApplied));
        if cfg.flushBulkTime > 0 || flushTimer.Some? {
          FlushIsReady(View(), schemas, sources);
          if cfg.flushBulkTime == 0 {
            flushTimer := None;
          }
          var result := FlushQueue(cfg, clock);
          input := Tick(EnvAt(clock, result));
        }
      case Taken(msg, clock) =>
        input := Receive(msg, EnvAt(clock, BatchApplied));
        AcceptKeepsInv(View(), msg);
        AcceptKeepsSized(View(), msg, schemas);
        var needFlush := AcceptMessage(msg);
        if needFlush {
          FlushIsReady(View(), schemas, sources);
          var result := FlushQueue(cfg, clock);
          input := Receive(msg, EnvAt(clock, result));
        }
    }

    /** The loop, over everything that happens until it ends. The run of the machine is over what happened, with the outcomes
        of the batches; those it counts as applied were executed on the servers one after the other. */
    method Loop(cfg: Config, whats: seq<Occurrence>, ghost m: Checkpoint, ghost startedAt: int, ghost schemas: Schemas)
      returns (ghost inputs: seq<Input>)
      requires Valid() && View() == Init(m, startedAt) && databases == [] && ServersFollow() && HaveParts(sources)
      requires |whats| < NO_EVENT_ID
      requires forall k :: 0 <= k < |whats| ==> OccurrenceFits(schemas, whats[k])
      modifies Repr()
      ensures Valid() && |inputs| <= |whats| && (status == Running ==> |inputs| == |whats|)
      ensures forall k :: 0 <= k < |inputs| ==> Happened(whats[k], inputs[k])
      ensures View() == Run(cfg, Init(m, startedAt), inputs) && Inv(View())
      ensures Executed(log.applied, sources, databases, states) && old(states) <= states
      ensures databases == QueriedOver(cfg, Init(m, startedAt), whats, inputs)
    {
      var n := 0;
      inputs := [];
      hide Run, Step, Inv, Executed, HaveParts, AllSized, OccurrenceFits, Happened, QueriedOver, Queried;
      NothingRun(cfg, m, startedAt);
      StartIsSized(m, startedAt, schemas);
      NothingQueried(cfg, Init(m, startedAt), whats);
      while n < |whats| && status == Running
        invariant Valid() && n == |inputs| <= |whats| && fresh({queue, staged} - old({queue, staged}))
        invariant ServersFollow() && old(states) <= states && databases == QueriedOver(cfg, Init(m, startedAt), whats, inputs)
        invariant forall k :: 0 <= k < |inputs| ==> Happened(whats[k], inputs[k])
        invariant View() == Run(cfg, Init(m, startedAt), inputs) && AllSized(schemas, log.received)
      {
        RunKeepsInv(cfg, m, startedAt, inputs);
        ghost var before := View();
        ghost var input := Turn(cfg, whats[n], schemas);
        StepKeepsSized(cfg, before, whats[n], input, schemas);
        OneMoreTurn(cfg, Init(m, startedAt), inputs, input);
        QueriedOneMore(cfg, Init(m, startedAt), whats, inputs, input);
        inputs := inputs + [input];
        n := n + 1;
      }
      RunKeepsInv(cfg, m, startedAt, inputs);
    }

    /** The loop, and the save that is deferred to its end. */
    method LoopAndSave(cfg: Config, whats: seq<Occurrence>, ghost m: Checkpoint, ghost startedAt: int, ghost schemas: Schemas)
      returns (ghost inputs: seq<Input>)
      requires Valid() && View() == Init(m, startedAt) && databases == [] && ServersFollow() && HaveParts(sources)
      requires |whats| < NO_EVENT_ID && forall k :: 0 <= k < |whats| ==> OccurrenceFits(schemas, whats[k])
      modifies Repr()
      ensures |inputs| <= |whats| && forall k :: 0 <= k < |inputs| ==> Happened(whats[k], inputs[k])
      ensures stored == OnDisk(Run(cfg, Init(m, startedAt), inputs))
    {
      hide Run, Step, Inv, Executed, HaveParts, OccurrenceFits, Happened, QueriedOver;
      inputs := Loop(cfg, whats, m, startedAt, schemas);
      if status != Running {
        SaveState();
      }
    }
  }

  /** The readings of the clock during a flush, and the database it queries. */
  datatype Clock = Clock(now: int, armedAt: int, savedAt: int, database: Database)

  /** What the loop waits for. */
  datatype Occurrence = Taken(msg: Message, clock: Clock) | Fires(clock: Clock) | Ends

  function EnvAt(clock: Clock, result: BatchResult): FlushEnv {
    FlushEnv(clock.now, result, clock.armedAt, clock.savedAt)
  }

  /** The database that a turn queries: that of a timer that fires while it is armed, or of a forced event. */
  function Queried(cfg: Config, s: State, what: Occurrence): seq<Database> {
    match what
    case Ends => []
    case Fires(clock) => if cfg.flushBulkTime > 0 || s.timing.timer.Some? then [clock.database] else []
    case Taken(msg, clock) => if msg.PositionMsg? && msg.event.force then [clock.database] else []
  }

  /** The databases queried over a run, in order. */
  ghost function QueriedOver(cfg: Config, s: State, whats: seq<Occurrence>, inputs: seq<Input>): seq<Database>
    requires |inputs| <= |whats|
  {
    if inputs == [] then []
    else QueriedOver(cfg, s, whats, Front(inputs)) + Queried(cfg, Run(cfg, s, Front(inputs)), whats[|inputs| - 1])
  }

  lemma NothingQueried(cfg: Config, s: State, whats: seq<Occurrence>)
    ensures QueriedOver(cfg, s, whats, []) == []
  {
  }

  lemma QueriedOneMore(cfg: Config, s: State, whats: seq<Occurrence>, inputs: seq<Input>, input: Input)
    requires |inputs| < |whats|
    ensures QueriedOver(cfg, s, whats, inputs + [input])
         == QueriedOver(cfg, s, whats, inputs) + Queried(cfg, Run(cfg, s, inputs), whats[|inputs|])
  {
    hide Queried, Run;
    assert Front(inputs + [input]) == inputs;
  }

  /** What a flush does after its batch was applied. */
  ghost function Settled(cfg: Config, s: State, env: FlushEnv): State {
    var armed := s.(timing := Rearm(cfg, s.timing, s.q.queue, env));
    if Offset(armed.q) > |armed.q.window| then armed.(status := Panicked)
    else Publish(armed.(q := Advance(armed.q)), env.savedAt)
  }

  lemma SplitStages(q: Queues, isReady: DocumentChange -> bool)
    ensures Split(q, isReady).staged == Part(q.queue, isReady, true)
  {
  }

  /** A flush in three parts: splitting, applying, settling. */
  lemma FlushIs(cfg: Config, s: State, env: FlushEnv)
    ensures var split := s.(q := Split(s.q, ReadyAt(cfg, env.now)));
            var applied := split.(log := LogAfter(s.log, split.q.staged, env.result));
            Flush(cfg, s, env) == if env.result.BatchApplied? then Settled(cfg, applied, EnvAs(env, BatchApplied))
                                  else applied.(status := Failed)
  {
    hide Split, Offset, Advance, Publish, Rearm;
  }

  function EnvAs(env: FlushEnv, result: BatchResult): FlushEnv {
    env.(result := result)
  }

  /** The machine's input tells what happened. */
  ghost predicate Happened(what: Occurrence, input: Input) {
    match what
    case Ends => input == Quit
    case Fires(clock) => input.Tick? && input.env == EnvAt(clock, input.env.result)
    case Taken(msg, clock) => input.Receive? && input.msg == msg && input.env == EnvAt(clock, input.env.result)
  }

  ghost predicate OccurrenceFits(schemas: Schemas, what: Occurrence) {
    && (what.Taken? && what.msg.RowMsg? ==> SizedIn(schemas, what.msg.change))
    && (!what.Ends? ==> DatabaseFits(what.clock.database))
  }

  lemma NothingRun(cfg: Config, m: Checkpoint, startedAt: int)
    ensures Run(cfg, Init(m, startedAt), []) == Init(m, startedAt)
  {
  }

  lemma OneMoreTurn(cfg: Config, s: State, inputs: seq<Input>, input: Input)
    ensures Run(cfg, s, inputs + [input]) == Step(cfg, Run(cfg, s, inputs), input)
  {
    hide Step;
    assert Front(inputs + [input]) == inputs;
  }

  lemma StartIsSized(m: Checkpoint, startedAt: int, schemas: Schemas)
    ensures AllSized(schemas, Init(m, startedAt).log.received)
  {
  }

  lemma AcceptKeepsSized(s: State, msg: Message, schemas: Schemas)
    requires AllSized(schemas, s.log.received) && (msg.RowMsg? ==> SizedIn(schemas, msg.change))
    ensures AllSized(schemas, Accept(s, msg).log.received)
  {
    hide SizedIn, AddRow, AddEvent, Subscribe;
  }

  lemma StepKeepsSized(cfg: Config, s: State, what: Occurrence, input: Input, schemas: Schemas)
    requires AllSized(schemas, s.log.received) && OccurrenceFits(schemas, what) && Happened(what, input)
    ensures AllSized(schemas, Step(cfg, s, input).log.received)
  {
    hide AllSized, SizedIn, Flush, Accept, DatabaseFits;
    match input
    case Quit =>
    case Tick(env) => FlushReceivesNothing(cfg, Fired(cfg, s), env);
    case Receive(msg, env) =>
      AcceptKeepsSized(s, msg, schemas);
      FlushReceivesNothing(cfg, Accept(s, msg), env);
  }
}
