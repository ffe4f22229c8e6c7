/** What makes the loop look at its queue, and what it does then (river/sync.go): which events are forced, that a forced event
    and an armed timer flush, which documents a flush stages, and that the checkpoint is published in time. */
module Triggers {
  import opened Types
  import opened Rule
  import opened Batch
  import opened Master
  import opened Sync
  import opened SyncSafety
  import opened SyncTiming
  import opened Handler

  /* ---------- forced events ---------- */

  lemma OnRotateForces(setup: Setup, h: Producer, next: Position)
    requires !h.failed
    ensures Called(setup, h, OnRotate(next)).sent == h.sent + [SentPosition(PositionEvent(h.completed, next, true))]
  {
  }

  lemma OnDDLForces(setup: Setup, h: Producer, next: Position, gtid: Option<GTIDSet>)
    requires !h.failed && !Called(setup, h, OnDDL(next, gtid)).failed
    ensures exists event :: Called(setup, h, OnDDL(next, gtid)).sent == h.sent + [SentPosition(event)] &&
                            event.force && event.pos == next
  {
    var event := Last(Called(setup, h, OnDDL(next, gtid)).sent).event;
    assert Called(setup, h, OnDDL(next, gtid)).sent == h.sent + [SentPosition(event)];
  }

  /** A commit is forced exactly when there is no bulk interval, and names what was active. */
  lemma OnXIDForces(setup: Setup, h: Producer, next: Position)
    requires !h.failed && h.active.Some?
    ensures Called(setup, h, OnXID(next)).sent == h.sent + [SentPosition(PositionEvent(h.active, next, setup.flushBulkTime == 0))]
  {
  }

  /** The announcement of a transaction is not, and keeps the last reported position. */
  lemma OnGTIDDoesNotForce(setup: Setup, h: Producer, gtid: Option<GTIDSet>)
    requires !h.failed && gtid.Some? && !Called(setup, h, OnGTID(gtid)).failed
    ensures Called(setup, h, OnGTID(gtid)).sent == h.sent + [SentPosition(PositionEvent(gtid, h.pos, false))]
  {
  }

  lemma OnPosSyncedForwards(setup: Setup, h: Producer, next: Position, gtid: Option<GTIDSet>, force: bool)
    requires !h.failed && !Called(setup, h, OnPosSynced(next, gtid, force)).failed
    ensures exists event :: Called(setup, h, OnPosSynced(next, gtid, force)).sent == h.sent + [SentPosition(event)] &&
                            event.force == force && event.pos == next
  {
    var event := Last(Called(setup, h, OnPosSynced(next, gtid, force)).sent).event;
    assert Called(setup, h, OnPosSynced(next, gtid, force)).sent == h.sent + [SentPosition(event)];
  }

  /* ---------- what the events name ---------- */

  /** Until the first commit the events name what the checkpoint does, and a commit without any announcement does too. */
  lemma StartNamesCheckpoint(setup: Setup, m: Checkpoint, next: Position)
    ensures Called(setup, StartProducer(m), OnRotate(next)).sent == [SentPosition(PositionEvent(m.gtid, next, true))]
    ensures m.gtid.Some? ==>
              Called(setup, StartProducer(m), OnXID(next)).sent
              == [SentPosition(PositionEvent(m.gtid, next, setup.flushBulkTime == 0))]
  {
  }


  lemma {:induction false} RowsKeepActive(setup: Setup, h: Producer, rows: seq<Call>)
    requires CallsShape(rows) && forall k :: 0 <= k < |rows| ==> rows[k].OnRow?
    ensures Produced(setup, h, rows).active == h.active
  {
    if rows != [] {
      RowsKeepActive(setup, h, Front(rows));
      assert rows[|rows| - 1].OnRow? && CallShape(rows[|rows| - 1]);
      hide EmitRules, SentRows, EventShape;
    }
  }

  /** The event of a commit names the transaction announced before it, and, for MariaDB, everything that was active before the
      announcement; so does that of a rotation after the commit. */
  lemma CommitNamesTransaction(setup: Setup, h: Producer, gtid: GTIDSet, rows: seq<Call>, next: Position, log: Position)
    requires !h.failed && CallsShape(rows) && forall k :: 0 <= k < |rows| ==> rows[k].OnRow?
    requires !Called(setup, h, OnGTID(Some(gtid))).failed
    requires !Produced(setup, Called(setup, h, OnGTID(Some(gtid))), rows).failed
    ensures var during := Produced(setup, Called(setup, h, OnGTID(Some(gtid))), rows);
            var committed := Called(setup, during, OnXID(next));
            && (during.active.Some? ==>
                  exists named :: Names(named, gtid, if setup.isMariaDB then Members(h.active) else {}) &&
                    committed.sent == during.sent + [SentPosition(PositionEvent(Some(named), next, setup.flushBulkTime == 0))] &&
                    Called(setup, committed, OnRotate(log)).sent
                    == committed.sent + [SentPosition(PositionEvent(Some(named), log, true))])
            && (gtid != {} || !setup.isMariaDB ==> during.active.Some?)
  {
    var announced := Called(setup, h, OnGTID(Some(gtid)));
    var during := Produced(setup, announced, rows);
    AnnouncedIsActive(setup, h, gtid);
    RowsKeepActive(setup, announced, rows);
    hide Produced, Names;
    if during.active.Some? {
      OnXIDForces(setup, during, next);
      var committed := Called(setup, during, OnXID(next));
      CommittedIsCompleted(setup, during, next);
      hide Called;
      OnRotateForces(setup, committed, log);
    }
  }

  lemma AnnouncedIsActive(setup: Setup, h: Producer, gtid: GTIDSet)
    requires !h.failed && !Called(setup, h, OnGTID(Some(gtid))).failed
    ensures var active := Called(setup, h, OnGTID(Some(gtid))).active;
            && (active.Some? ==> Names(active.value, gtid, if setup.isMariaDB then Members(h.active) else {}))
            && (gtid != {} || !setup.isMariaDB ==> active.Some?)
  {
  }

  lemma CommittedIsCompleted(setup: Setup, h: Producer, next: Position)
    requires !h.failed && h.active.Some?
    ensures !Called(setup, h, OnXID(next)).failed && Called(setup, h, OnXID(next)).completed == h.active
  {
  }

  predicate Names(named: GTIDSet, gtid: GTIDSet, before: GTIDSet) {
    gtid <= named && before <= named
  }

  /* ---------- what a flush does with a document ---------- */

  /** The document has been quiet for the minimal wait, or has been queued for the maximal age. */
  predicate Due(cfg: Config, dc: DocumentChange, now: int) {
    now - dc.lastTS >= cfg.minTimeAfterLastEvent || now - dc.firstTS >= cfg.maxTimeAfterFirstEvent
  }

  ghost predicate LookedAtDoc(cfg: Config, before: Changes, after: Queues, now: int, i: string, d: DocID) {
    Holds(before, i, d) ==>
      var dc := DocAt(before, i, d);
      if Due(cfg, dc, now) then Holds(after.staged, i, d) && DocAt(after.staged, i, d) == dc && !Holds(after.queue, i, d)
      else Holds(after.queue, i, d) && DocAt(after.queue, i, d) == dc && !Holds(after.staged, i, d)
  }

  /** Every queued document was looked at: exactly those that are due were staged, the others were kept as they are. */
  ghost predicate LookedAt(cfg: Config, before: Changes, after: Queues, now: int) {
    && (forall i, d :: LookedAtDoc(cfg, before, after, now, i, d))
    && (forall i, d :: Holds(after.staged, i, d) || Holds(after.queue, i, d) ==> Holds(before, i, d))
  }

  lemma SplitLooksAt(cfg: Config, q: Queues, now: int)
    ensures LookedAt(cfg, q.queue, Split(q, ReadyAt(cfg, now)), now)
  {
    var after := Split(q, ReadyAt(cfg, now));
    forall i, d
      ensures LookedAtDoc(cfg, q.queue, after, now, i, d)
      ensures Holds(after.staged, i, d) || Holds(after.queue, i, d) ==> Holds(q.queue, i, d)
    {
      PartKeepsDocs(q.queue, ReadyAt(cfg, now), true, i, d);
      PartKeepsDocs(q.queue, ReadyAt(cfg, now), false, i, d);
      hide Part, Holds, DocAt;
    }
    hide Split, LookedAtDoc;
  }

  /** What an applied flush leaves: the queue was looked at when the clock read `now`, the staged documents were applied, and
      without a bulk interval the timer waits for the rest. */
  ghost predicate Flushed(cfg: Config, before: State, after: State, env: FlushEnv) {
    && LookedAt(cfg, before.q.queue, after.q, env.now)
    && after.log.applied == before.log.applied + [after.q.staged]
    && after.timing.flushed == Some(FlushRecord(env.now, env.armedAt, after.q.queue))
    && (cfg.flushBulkTime == 0 && after.q.queue != map[] && cfg.minTimeAfterLastEvent > 0 ==>
          after.timing.timer == Some(env.armedAt + cfg.minTimeAfterLastEvent))
  }

  lemma FlushFlushes(cfg: Config, s: State, env: FlushEnv)
    requires Inv(s) && s.status == Running && env.result.BatchApplied?
    ensures Flushed(cfg, s, Flush(cfg, s, env), env) && Flush(cfg, s, env).status == Running
    ensures cfg.flushBulkTime == 0 && (Flush(cfg, s, env).q.queue == map[] || cfg.minTimeAfterLastEvent <= 0) ==>
              Flush(cfg, s, env).timing.timer == if Flush(cfg, s, env).q.queue == map[] then s.timing.timer else None
  {
    var split := Split(s.q, ReadyAt(cfg, env.now));
    SplitFlies(s.q, s.log, s.master, ReadyAt(cfg, env.now));
    OffsetIsInside(split, s.log);
    SplitLooksAt(cfg, s.q, env.now);
    FlushKeepsInv(cfg, s, env);
    hide Inv, QueuesFit, Split, LookedAt, Offset, FirstSeen, Publish;
    var timing := Rearm(cfg, s.timing, split.queue, env);
    var settled := s.(q := Advance(split), log := ApplyBatch(s.log, split.staged), timing := timing);
    PublishKeepsTiming(settled, env.savedAt);
    PublishKeepsLog(settled, env.savedAt);
    StagedByFlush(cfg, s, env);
    LookedAtAdvanced(cfg, s.q.queue, split, env.now);
  }

  lemma PublishKeepsLog(s: State, savedAt: int)
    ensures Publish(s, savedAt).log.applied == s.log.applied
  {
    hide Notify, Moved, Differs;
  }

  lemma StagedByFlush(cfg: Config, s: State, env: FlushEnv)
    ensures Flush(cfg, s, env).q.staged == Split(s.q, ReadyAt(cfg, env.now)).staged
    ensures Flush(cfg, s, env).q.queue == Split(s.q, ReadyAt(cfg, env.now)).queue
  {
    hide Part, Offset, FirstSeen, Notify;
  }

  lemma LookedAtAdvanced(cfg: Config, before: Changes, q: Queues, now: int)
    requires LookedAt(cfg, before, q, now)
    ensures forall q': Queues :: q'.staged == q.staged && q'.queue == q.queue ==> LookedAt(cfg, before, q', now)
  {
    forall q': Queues | q'.staged == q.staged && q'.queue == q.queue ensures LookedAt(cfg, before, q', now) {
      forall i, d ensures LookedAtDoc(cfg, before, q', now, i, d) {
        assert LookedAtDoc(cfg, before, q, now, i, d);
      }
    }
  }

  /* ---------- over every run ---------- */

  /** An armed timer, or the ticker, flushes: in any state a run can reach, when it fires every queued document is looked at. */
  lemma ArmedTimerFlushes(cfg: Config, m: Checkpoint, startedAt: int, inputs: seq<Input>, env: FlushEnv)
    requires |inputs| < NO_EVENT_ID && Run(cfg, Init(m, startedAt), inputs).status == Running && env.result.BatchApplied?
    requires cfg.flushBulkTime > 0 || Run(cfg, Init(m, startedAt), inputs).timing.timer.Some?
    ensures var s := Run(cfg, Init(m, startedAt), inputs);
            var after := Step(cfg, s, Tick(env));
            && after.status == Running && Flushed(cfg, s, after, env)
            && (cfg.flushBulkTime == 0 && (after.q.queue == map[] || cfg.minTimeAfterLastEvent <= 0) ==>
                  after.timing.timer == None)
  {
    var s := Run(cfg, Init(m, startedAt), inputs);
    RunKeepsInv(cfg, m, startedAt, inputs);
    TimerGone(cfg, s);
    hide Run, Inv, Flush, Flushed;
    FlushFlushes(cfg, Fired(cfg, s), env);
    SameBefore(cfg, Fired(cfg, s), s, Flush(cfg, Fired(cfg, s), env), env);
  }

  lemma TimerGone(cfg: Config, s: State)
    requires Inv(s)
    ensures Inv(Fired(cfg, s)) && (cfg.flushBulkTime == 0 ==> Fired(cfg, s).timing.timer == None)
  {
    hide QueuesFit;
  }

  lemma SameBefore(cfg: Config, s: State, t: State, after: State, env: FlushEnv)
    requires Flushed(cfg, s, after, env) && s.q.queue == t.q.queue && s.log.applied == t.log.applied
    ensures Flushed(cfg, t, after, env)
  {
    hide LookedAt;
  }

  /** So does a forced event. */
  lemma ForcedEventFlushes(cfg: Config, m: Checkpoint, startedAt: int, inputs: seq<Input>, event: PositionEvent, env: FlushEnv)
    requires |inputs| + 1 < NO_EVENT_ID && Run(cfg, Init(m, startedAt), inputs).status == Running
    requires event.force && env.result.BatchApplied?
    ensures var s := Run(cfg, Init(m, startedAt), inputs);
            var after := Step(cfg, s, Receive(PositionMsg(event), env));
            after.status == Running && Flushed(cfg, s, after, env)
  {
    var s := Run(cfg, Init(m, startedAt), inputs);
    RunKeepsInv(cfg, m, startedAt, inputs);
    hide Run, Inv, Flush, Flushed;
    AcceptKeepsInv(s, PositionMsg(event));
    var accepted := Accept(s, PositionMsg(event));
    FlushFlushes(cfg, accepted, env);
    SameBefore(cfg, accepted, s, Flush(cfg, accepted, env), env);
  }

  /** Nothing else flushes. */
  lemma OtherInputsDoNotFlush(cfg: Config, s: State, input: Input)
    requires !Flushes(cfg, s, input)
    ensures Step(cfg, s, input).q.staged == s.q.staged && Step(cfg, s, input).log.applied == s.log.applied
    ensures Step(cfg, s, input).timing == s.timing && Step(cfg, s, input).master == s.master
  {
    hide Flush, Subscribe, WithRow;
  }

  /** Without a bulk interval every commit makes the loop look at its queue, when its event is received. */
  lemma CommitFlushes(setup: Setup, h: Producer, next: Position, cfg: Config, m: Checkpoint, startedAt: int, inputs: seq<Input>,
                      env: FlushEnv)
    requires setup.flushBulkTime == 0 && !h.failed && h.active.Some?
    requires |inputs| + 1 < NO_EVENT_ID && Run(cfg, Init(m, startedAt), inputs).status == Running && env.result.BatchApplied?
    ensures var message := MessageOf(Last(Called(setup, h, OnXID(next)).sent));
            var s := Run(cfg, Init(m, startedAt), inputs);
            Flushed(cfg, s, Step(cfg, s, Receive(message, env)), env)
  {
    hide Run, Step, Flushed;
    OnXIDForces(setup, h, next);
    ForcedEventFlushes(cfg, m, startedAt, inputs, PositionEvent(h.active, next, true), env);
  }

  /* ---------- publication ---------- */

  /** The published checkpoint is that of the first event of the window. */
  ghost predicate PublishesHead(before: State, after: State, savedAt: int) {
    && after.log.savedID == after.q.first < |Events(after.log)| && after.timing.lastSaved == savedAt
    && var head := Events(after.log)[after.q.first];
       && after.master.pos == Some(head.pos)
       && after.master.gtid == if head.gtid.Some? then head.gtid else before.master.gtid
  }

  ghost predicate PublishesNothing(before: State, after: State) {
    && after.log.savedID == before.log.savedID && after.timing.lastSaved == before.timing.lastSaved
    && after.master == before.master && after.stored == before.stored
  }

  lemma PublishPublishes(s: State, savedAt: int)
    requires s.q.window != [] && s.q.first < |Events(s.log)| && s.q.window[0] == Events(s.log)[s.q.first]
    ensures if savedAt - s.timing.lastSaved > SAVE_INTERVAL then PublishesHead(s, Publish(s, savedAt), savedAt)
            else PublishesNothing(s, Publish(s, savedAt))
  {
    hide Notify, EventsOf;
  }

  lemma FlushPublishes(cfg: Config, s: State, env: FlushEnv)
    requires Inv(s) && s.status == Running && env.result.BatchApplied?
    ensures Tight(Flush(cfg, s, env).q)
    ensures if env.savedAt - s.timing.lastSaved > SAVE_INTERVAL then PublishesHead(s, Flush(cfg, s, env), env.savedAt)
            else PublishesNothing(s, Flush(cfg, s, env))
  {
    FlushKeepsInv(cfg, s, env);
    var split := Split(s.q, ReadyAt(cfg, env.now));
    SplitFlies(s.q, s.log, s.master, ReadyAt(cfg, env.now));
    ApplyLands(split, s.log, s.master, split.staged);
    var log := ApplyBatch(s.log, split.staged);
    AdvanceIsTight(split, log);
    AdvanceKeepsFit(split, log, s.master);
    hide Inv, Split, Offset, FirstSeen, Publish, Advance, Tight;
    WindowHead(Advance(split), log, s.master);
    hide QueuesFit;
    var settled := s.(q := Advance(split), log := log, timing := Rearm(cfg, s.timing, split.queue, env));
    PublishPublishes(settled, env.savedAt);
    hide Events;
  }

  lemma WindowHead(q: Queues, log: Log, m: Checkpoint)
    requires QueuesFit(q, log, m, map[]) && q.window != []
    ensures q.first < |Events(log)| && q.window[0] == Events(log)[q.first]
  {
    hide StampedWithin, Conserved, SavedFits, EventsOf;
  }

  /** The checkpoint is published in time: a flush that comes more than the interval after the last publication publishes, and
      what it publishes is the event of the oldest change still queued, or the last event when nothing is. */
  lemma PublicationIsTimely(cfg: Config, m: Checkpoint, startedAt: int, inputs: seq<Input>, input: Input)
    requires |inputs| + 1 < NO_EVENT_ID && Flushes(cfg, Run(cfg, Init(m, startedAt), inputs), input)
    requires EnvOf(input).result.BatchApplied?
    ensures var s := Run(cfg, Init(m, startedAt), inputs);
            var after := Step(cfg, s, input);
            && Tight(after.q)
            && if EnvOf(input).savedAt - s.timing.lastSaved > SAVE_INTERVAL then PublishesHead(s, after, EnvOf(input).savedAt)
               else PublishesNothing(s, after)
  {
    var s := Run(cfg, Init(m, startedAt), inputs);
    RunKeepsInv(cfg, m, startedAt, inputs);
    match input
    case Tick(env) =>
      TimerGone(cfg, s);
      hide Run, Inv, Flush, Events, Tight;
      FlushPublishes(cfg, Fired(cfg, s), env);
    case Receive(msg, env) =>
      AcceptKeepsInv(s, msg);
      hide Run, Inv, Flush, Events, Tight;
      FlushPublishes(cfg, Accept(s, msg), env);
  }
}
