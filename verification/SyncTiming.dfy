/** How long a document can be held back when the queue is flushed on demand (river/sync.go). */
module SyncTiming {
  import opened Types
  import opened Batch
  import opened Master
  import opened Sync
  import opened SyncSafety

  /** The last flush: every document it left behind is still queued, was younger than the maximal age when
      the flush looked at it, and has an armed timer waiting for it. */
  ghost predicate Held(cfg: Config, queue: Changes, timer: Option<int>, record: FlushRecord, i: string, d: DocID) {
    Holds(record.survivors, i, d) ==>
      && Holds(queue, i, d) && DocAt(queue, i, d).firstTS == DocAt(record.survivors, i, d).firstTS
      && record.now < DocAt(record.survivors, i, d).firstTS + cfg.maxTimeAfterFirstEvent
      && timer == Some(record.armedAt + cfg.minTimeAfterLastEvent)
  }

  ghost predicate TimingInv(cfg: Config, s: State) {
    s.status == Running && s.timing.flushed.Some? ==>
      forall i, d :: Held(cfg, s.q.queue, s.timing.timer, s.timing.flushed.value, i, d)
  }

  /** The clock a flush reads is not behind the time stamps of the queued changes. */
  ghost predicate ClockFits(queue: Changes, now: int) {
    forall i, d :: Holds(queue, i, d) ==> DocAt(queue, i, d).lastTS <= now
  }

  ghost predicate InputClockFits(s: State, input: Input) {
    match input
    case Quit => true
    case Tick(env) => ClockFits(s.q.queue, env.now)
    case Receive(msg, env) => msg.PositionMsg? && msg.event.force ==> ClockFits(s.q.queue, env.now)
  }

  /** What a flush leaves behind is young, and its timer is armed. */
  lemma SurvivorsAreHeld(cfg: Config, queue: Changes, t: Timing, env: FlushEnv, i: string, d: DocID)
    requires cfg.flushBulkTime == 0 && ClockFits(queue, env.now)
    ensures var left := Part(queue, ReadyAt(cfg, env.now), false);
            var timing := Rearm(cfg, t, left, env);
            Held(cfg, left, timing.timer, timing.flushed.value, i, d)
  {
    var left := Part(queue, ReadyAt(cfg, env.now), false);
    PartKeepsDocs(queue, ReadyAt(cfg, env.now), false, i, d);
    hide Part;
    if Holds(left, i, d) {
      assert left != map[];
      assert !ReadyAt(cfg, env.now)(DocAt(queue, i, d));
      assert env.now - DocAt(queue, i, d).lastTS < cfg.minTimeAfterLastEvent;
    }
  }

  lemma PublishKeepsTiming(s: State, savedAt: int)
    ensures Publish(s, savedAt).q == s.q
    ensures Publish(s, savedAt).timing.timer == s.timing.timer && Publish(s, savedAt).timing.flushed == s.timing.flushed
  {
    hide Notify, Moved, Differs;
  }

  lemma FlushHolds(cfg: Config, s: State, env: FlushEnv)
    requires cfg.flushBulkTime == 0 && Inv(s) && s.status == Running && ClockFits(s.q.queue, env.now)
    ensures TimingInv(cfg, Flush(cfg, s, env))
    ensures env.result.BatchApplied? ==>
              Flush(cfg, s, env).status == Running && Flush(cfg, s, env).timing.flushed.Some? &&
              Flush(cfg, s, env).q.staged == Part(s.q.queue, ReadyAt(cfg, env.now), true)
  {
    FlushKeepsInv(cfg, s, env);
    var split := Split(s.q, ReadyAt(cfg, env.now));
    if env.result.BatchApplied? {
      SplitFlies(s.q, s.log, s.master, ReadyAt(cfg, env.now));
      OffsetIsInside(split, s.log);
      var timing := Rearm(cfg, s.timing, split.queue, env);
      forall i, d ensures Held(cfg, split.queue, timing.timer, timing.flushed.value, i, d) {
        SurvivorsAreHeld(cfg, s.q.queue, s.timing, env, i, d);
      }
      hide Inv, QueuesFit, Publish, Part, Offset, FirstSeen, Held;
      PublishKeepsTiming(s.(q := Advance(split), log := ApplyBatch(s.log, split.staged), timing := timing), env.savedAt);
    }
  }

  lemma RowKeepsHeld(cfg: Config, queue: Changes, timer: Option<int>, record: FlushRecord, c: TableRowChange,
                     i: string, d: DocID)
    requires WellKept(queue) && Held(cfg, queue, timer, record, i, d)
    ensures Held(cfg, WithRow(queue, c), timer, record, i, d)
  {
    AddedRow(queue, c, i, d);
    hide WithRow;
  }

  lemma AcceptKeepsTiming(cfg: Config, s: State, msg: Message)
    requires Inv(s) && s.status == Running && TimingInv(cfg, s)
    ensures TimingInv(cfg, Accept(s, msg))
  {
    if msg.RowMsg? && s.timing.flushed.Some? {
      forall i, d
        ensures Held(cfg, AddRow(s.q, msg.change).queue, s.timing.timer, s.timing.flushed.value, i, d)
      {
        RowKeepsHeld(cfg, s.q.queue, s.timing.timer, s.timing.flushed.value, msg.change.(eventID := s.q.last), i, d);
      }
    }
    hide Inv, Held, WithRow, Subscribe, AddRow;
  }

  lemma StepKeepsTiming(cfg: Config, s: State, input: Input)
    requires cfg.flushBulkTime == 0 && Inv(s) && s.q.last + 1 < NO_EVENT_ID && TimingInv(cfg, s) && InputClockFits(s, input)
    ensures TimingInv(cfg, Step(cfg, s, input))
  {
    hide Flush, QueuesFit, Held;
    if s.status == Running {
      match input
      case Quit =>
      case Tick(env) =>
        FlushHolds(cfg, Fired(cfg, s), env);
      case Receive(msg, env) =>
        AcceptKeepsTiming(cfg, s, msg);
        if msg.PositionMsg? && msg.event.force {
          AcceptKeepsInv(s, msg);
          FlushHolds(cfg, Accept(s, msg), env);
        }
    }
  }

  ghost predicate RunClockFits(cfg: Config, s: State, inputs: seq<Input>) {
    inputs == [] || (RunClockFits(cfg, s, Front(inputs)) && InputClockFits(Run(cfg, s, Front(inputs)), Last(inputs)))
  }

  lemma {:induction false} RunKeepsTiming(cfg: Config, m: Checkpoint, startedAt: int, inputs: seq<Input>)
    requires cfg.flushBulkTime == 0 && |inputs| < NO_EVENT_ID
    requires RunClockFits(cfg, Init(m, startedAt), inputs)
    ensures TimingInv(cfg, Run(cfg, Init(m, startedAt), inputs))
  {
    if inputs != [] {
      RunKeepsTiming(cfg, m, startedAt, Front(inputs));
      RunKeepsInv(cfg, m, startedAt, Front(inputs));
      hide Inv, Step, TimingInv, InputClockFits;
      StepKeepsTiming(cfg, Run(cfg, Init(m, startedAt), Front(inputs)), Last(inputs));
    }
  }

  /* ---------- prompt runs ---------- */

  /** The input must make a running loop flush: the ticker or an armed timer fires, or a forced event comes. */
  predicate Flushes(cfg: Config, s: State, input: Input) {
    && s.status == Running
    && match input
       case Quit => false
       case Tick(_) => cfg.flushBulkTime > 0 || s.timing.timer.Some?
       case Receive(msg, _) => msg.PositionMsg? && msg.event.force
  }

  function EnvOf(input: Input): FlushEnv
    requires !input.Quit?
  {
    input.env
  }

  /** A flush that reads its clock no later than the armed timer and no earlier than the last change, applies its batch and
      needs at most `delta` for it. */
  ghost predicate Prompt(cfg: Config, s: State, input: Input, delta: int) {
    Flushes(cfg, s, input) ==>
      && ClockFits(s.q.queue, EnvOf(input).now)
      && (s.timing.timer.Some? ==> EnvOf(input).now <= s.timing.timer.value)
      && EnvOf(input).result.BatchApplied? && EnvOf(input).armedAt - EnvOf(input).now <= delta
  }

  ghost predicate RunIsPrompt(cfg: Config, s: State, inputs: seq<Input>, delta: int) {
    forall k :: 0 <= k < |inputs| ==> Prompt(cfg, Run(cfg, s, inputs[..k]), inputs[k], delta)
  }

  /** The document is queued, and a timer is armed that fires in time for it. */
  ghost predicate Waiting(cfg: Config, s: State, i: string, d: DocID, firstTS: int, delta: int) {
    && Holds(s.q.queue, i, d) && DocAt(s.q.queue, i, d).firstTS == firstTS
    && s.timing.timer.Some?
    && s.timing.timer.value < Deadline(cfg, firstTS, delta)
  }

  ghost predicate Staged(s: State, i: string, d: DocID, firstTS: int) {
    Holds(s.q.staged, i, d) && DocAt(s.q.staged, i, d).firstTS == firstTS
  }

  /** What a prompt flush does with a queued document: it is staged, or it is still young and waits for the new timer. Past
      the maximal age it is staged. */
  lemma FlushStagesOrWaits(cfg: Config, s: State, env: FlushEnv, delta: int, i: string, d: DocID, firstTS: int)
    requires cfg.flushBulkTime == 0 && Inv(s) && s.status == Running && ClockFits(s.q.queue, env.now)
    requires env.result.BatchApplied? && env.armedAt - env.now <= delta
    requires Holds(s.q.queue, i, d) && DocAt(s.q.queue, i, d).firstTS == firstTS
    ensures Staged(Flush(cfg, s, env), i, d, firstTS) || Waiting(cfg, Flush(cfg, s, env), i, d, firstTS, delta)
    ensures firstTS + cfg.maxTimeAfterFirstEvent <= env.now ==> Staged(Flush(cfg, s, env), i, d, firstTS)
  {
    FlushHolds(cfg, s, env);
    FlushRecords(cfg, s, env);
    PartKeepsDocs(s.q.queue, ReadyAt(cfg, env.now), true, i, d);
    PartKeepsDocs(s.q.queue, ReadyAt(cfg, env.now), false, i, d);
    var after := Flush(cfg, s, env);
    assert TimingInv(cfg, after) ==> Held(cfg, after.q.queue, after.timing.timer, after.timing.flushed.value, i, d);
    hide Inv, Flush, Part;
  }

  lemma FlushRecords(cfg: Config, s: State, env: FlushEnv)
    requires Inv(s) && s.status == Running && env.result.BatchApplied?
    ensures var after, left := Flush(cfg, s, env), Part(s.q.queue, ReadyAt(cfg, env.now), false);
            after.q.queue == left && after.timing.flushed == Some(FlushRecord(env.now, env.armedAt, left))
  {
    var split := Split(s.q, ReadyAt(cfg, env.now));
    SplitFlies(s.q, s.log, s.master, ReadyAt(cfg, env.now));
    OffsetIsInside(split, s.log);
    hide Inv, QueuesFit, Part, Offset, FirstSeen, Publish;
    var timing := Rearm(cfg, s.timing, split.queue, env);
    PublishKeepsTiming(s.(q := Advance(split), log := ApplyBatch(s.log, split.staged), timing := timing), env.savedAt);
  }

  lemma AcceptKeepsWaiting(cfg: Config, s: State, msg: Message, delta: int, i: string, d: DocID, firstTS: int)
    requires Inv(s) && s.status == Running && Waiting(cfg, s, i, d, firstTS, delta)
    ensures Waiting(cfg, Accept(s, msg), i, d, firstTS, delta)
  {
    if msg.RowMsg? {
      AddedRow(s.q.queue, msg.change.(eventID := s.q.last), i, d);
    }
    hide Inv, WithRow, Subscribe;
  }

  /** A waiting document waits on until a flush, which comes in time. */
  lemma StepKeepsWaiting(cfg: Config, s: State, input: Input, delta: int, i: string, d: DocID, firstTS: int)
    requires cfg.flushBulkTime == 0 && Inv(s) && s.q.last + 1 < NO_EVENT_ID && Prompt(cfg, s, input, delta)
    requires Waiting(cfg, s, i, d, firstTS, delta)
    ensures !Flushes(cfg, s, input) ==> Waiting(cfg, Step(cfg, s, input), i, d, firstTS, delta)
    ensures Flushes(cfg, s, input) ==>
              && EnvOf(input).now < Deadline(cfg, firstTS, delta)
              && (Staged(Step(cfg, s, input), i, d, firstTS) || Waiting(cfg, Step(cfg, s, input), i, d, firstTS, delta))
              && (firstTS + cfg.maxTimeAfterFirstEvent <= EnvOf(input).now ==> Staged(Step(cfg, s, input), i, d, firstTS))
  {
    if s.status == Running {
      match input
      case Quit =>
      case Tick(env) =>
        if CanTick(cfg, s) {
          FlushStagesOrWaits(cfg, Fired(cfg, s), env, delta, i, d, firstTS);
        }
        hide Flush, Inv;
      case Receive(msg, env) =>
        AcceptKeepsWaiting(cfg, s, msg, delta, i, d, firstTS);
        if msg.PositionMsg? && msg.event.force {
          AcceptKeepsInv(s, msg);
          FlushStagesOrWaits(cfg, Accept(s, msg), env, delta, i, d, firstTS);
        }
        hide Flush, Inv, Subscribe, AddRow;
    }
  }

  /** The time by which a document must have been staged. */
  function Deadline(cfg: Config, firstTS: int, delta: int): int {
    firstTS + cfg.maxTimeAfterFirstEvent + cfg.minTimeAfterLastEvent + delta
  }

  /** Step `j` of the run is a flush whose clock is before the deadline and that stages the document. */
  ghost predicate StagedAt(cfg: Config, start: State, inputs: seq<Input>, delta: int, j: nat, i: string, d: DocID, firstTS: int)
    requires j < |inputs|
  {
    && Flushes(cfg, Run(cfg, start, inputs[..j]), inputs[j]) && EnvOf(inputs[j]).now < Deadline(cfg, firstTS, delta)
    && Staged(Run(cfg, start, inputs[..j + 1]), i, d, firstTS)
  }

  lemma RunNext(cfg: Config, s: State, inputs: seq<Input>, n: nat)
    requires n < |inputs|
    ensures Run(cfg, s, inputs[..n + 1]) == Step(cfg, Run(cfg, s, inputs[..n]), inputs[n])
  {
    hide Step;
    assert Front(inputs[..n + 1]) == inputs[..n];
  }

  lemma NextStagesOrWaits(cfg: Config, m: Checkpoint, startedAt: int, inputs: seq<Input>, delta: int,
                          k: nat, i: string, d: DocID, firstTS: int)
    requires cfg.flushBulkTime == 0 && |inputs| < NO_EVENT_ID && RunIsPrompt(cfg, Init(m, startedAt), inputs, delta)
    requires k < |inputs| && Waiting(cfg, Run(cfg, Init(m, startedAt), inputs[..k]), i, d, firstTS, delta)
    ensures StagedAt(cfg, Init(m, startedAt), inputs, delta, k, i, d, firstTS) ||
            Waiting(cfg, Run(cfg, Init(m, startedAt), inputs[..k + 1]), i, d, firstTS, delta)
    ensures Flushes(cfg, Run(cfg, Init(m, startedAt), inputs[..k]), inputs[k]) &&
            firstTS + cfg.maxTimeAfterFirstEvent <= EnvOf(inputs[k]).now ==>
              StagedAt(cfg, Init(m, startedAt), inputs, delta, k, i, d, firstTS)
  {
    hide Run, Inv, Step, Init, Prompt, Waiting, Staged, Flushes, Deadline;
    var s := Run(cfg, Init(m, startedAt), inputs[..k]);
    RunKeepsInv(cfg, m, startedAt, inputs[..k]);
    RunNext(cfg, Init(m, startedAt), inputs, k);
    assert Prompt(cfg, s, inputs[k], delta);
    hide RunIsPrompt;
    StepKeepsWaiting(cfg, s, inputs[k], delta, i, d, firstTS);
  }

  /** From a step where the document waits to a flush past its maximal age: a flush between them stages it in time. */
  lemma {:induction false} WaitingIsStaged(cfg: Config, m: Checkpoint, startedAt: int, inputs: seq<Input>, delta: int,
                                           k: nat, l: nat, i: string, d: DocID, firstTS: int) returns (j: nat)
    requires cfg.flushBulkTime == 0 && |inputs| < NO_EVENT_ID && RunIsPrompt(cfg, Init(m, startedAt), inputs, delta)
    requires k <= l < |inputs| && Waiting(cfg, Run(cfg, Init(m, startedAt), inputs[..k]), i, d, firstTS, delta)
    requires Flushes(cfg, Run(cfg, Init(m, startedAt), inputs[..l]), inputs[l])
    requires firstTS + cfg.maxTimeAfterFirstEvent <= EnvOf(inputs[l]).now
    ensures k <= j <= l
    ensures StagedAt(cfg, Init(m, startedAt), inputs, delta, j, i, d, firstTS)
    decreases l - k
  {
    hide Run, Init, Waiting, Flushes, StagedAt, RunIsPrompt;
    NextStagesOrWaits(cfg, m, startedAt, inputs, delta, k, i, d, firstTS);
    if StagedAt(cfg, Init(m, startedAt), inputs, delta, k, i, d, firstTS) {
      j := k;
    } else {
      j := WaitingIsStaged(cfg, m, startedAt, inputs, delta, k + 1, l, i, d, firstTS);
    }
  }

  /** Bounded holding time. In any run without a bulk interval whose flushes are prompt, take a document that survives the
      flush at step `k`, and any later flush whose clock has reached the document's maximal age. Then some flush after step
      `k`, at that one at the latest, stages the document, and its clock reads less than the time of the document's first
      change plus the maximal age, the minimal wait and the time a batch takes. */
  lemma HoldingIsBounded(cfg: Config, m: Checkpoint, startedAt: int, inputs: seq<Input>, delta: int, k: nat, l: nat,
                         i: string, d: DocID)
    requires cfg.flushBulkTime == 0 && |inputs| < NO_EVENT_ID && RunIsPrompt(cfg, Init(m, startedAt), inputs, delta)
    requires k < l < |inputs| && Flushes(cfg, Run(cfg, Init(m, startedAt), inputs[..k]), inputs[k])
    requires Holds(Run(cfg, Init(m, startedAt), inputs[..k + 1]).q.queue, i, d)
    requires Flushes(cfg, Run(cfg, Init(m, startedAt), inputs[..l]), inputs[l])
    requires DocAt(Run(cfg, Init(m, startedAt), inputs[..k + 1]).q.queue, i, d).firstTS + cfg.maxTimeAfterFirstEvent
             <= EnvOf(inputs[l]).now
    ensures var firstTS := DocAt(Run(cfg, Init(m, startedAt), inputs[..k + 1]).q.queue, i, d).firstTS;
            exists j :: k < j <= l && StagedAt(cfg, Init(m, startedAt), inputs, delta, j, i, d, firstTS)
  {
    hide Run, Inv, Init, Waiting, Staged, Step, RunIsPrompt, StagedAt;
    SurvivorWaits(cfg, m, startedAt, inputs, delta, k, i, d);
    var firstTS := DocAt(Run(cfg, Init(m, startedAt), inputs[..k + 1]).q.queue, i, d).firstTS;
    var j := WaitingIsStaged(cfg, m, startedAt, inputs, delta, k + 1, l, i, d, firstTS);
  }

  lemma SurvivorWaits(cfg: Config, m: Checkpoint, startedAt: int, inputs: seq<Input>, delta: int, k: nat, i: string, d: DocID)
    requires cfg.flushBulkTime == 0 && |inputs| < NO_EVENT_ID && RunIsPrompt(cfg, Init(m, startedAt), inputs, delta)
    requires k < |inputs| && Flushes(cfg, Run(cfg, Init(m, startedAt), inputs[..k]), inputs[k])
    requires Holds(Run(cfg, Init(m, startedAt), inputs[..k + 1]).q.queue, i, d)
    ensures var after := Run(cfg, Init(m, startedAt), inputs[..k + 1]);
            Waiting(cfg, after, i, d, DocAt(after.q.queue, i, d).firstTS, delta)
  {
    var s := Run(cfg, Init(m, startedAt), inputs[..k]);
    RunKeepsInv(cfg, m, startedAt, inputs[..k]);
    RunNext(cfg, Init(m, startedAt), inputs, k);
    assert Prompt(cfg, s, inputs[k], delta);
    hide Run, Inv, Init, RunIsPrompt, Waiting;
    match inputs[k]
    case Tick(env) => FlushSurvivorWaits(cfg, Fired(cfg, s), env, delta, i, d);
    case Receive(msg, env) =>
      AcceptKeepsInv(s, msg);
      FlushSurvivorWaits(cfg, Accept(s, msg), env, delta, i, d);
  }

  lemma FlushSurvivorWaits(cfg: Config, s: State, env: FlushEnv, delta: int, i: string, d: DocID)
    requires cfg.flushBulkTime == 0 && Inv(s) && s.status == Running && ClockFits(s.q.queue, env.now)
    requires env.result.BatchApplied? && env.armedAt - env.now <= delta
    requires Holds(Flush(cfg, s, env).q.queue, i, d)
    ensures Waiting(cfg, Flush(cfg, s, env), i, d, DocAt(Flush(cfg, s, env).q.queue, i, d).firstTS, delta)
  {
    FlushHolds(cfg, s, env);
    FlushRecords(cfg, s, env);
    var after := Flush(cfg, s, env);
    hide Inv, Flush, Part;
    assert Held(cfg, after.q.queue, after.timing.timer, after.timing.flushed.value, i, d);
  }

  /* ---------- time stamps ---------- */

  /** A queued document is as old as its first change and as recent as its latest one. */
  ghost predicate DocIsTimed(dc: DocumentChange) {
    && dc.changes != [] && dc.firstTS == dc.changes[0].ts
    && (forall k :: 0 <= k < |dc.changes| ==> dc.changes[k].ts <= dc.lastTS)
    && exists k :: 0 <= k < |dc.changes| && dc.changes[k].ts == dc.lastTS
  }

  ghost predicate IsTimed(b: Changes) {
    forall i, d :: Holds(b, i, d) ==> DocIsTimed(DocAt(b, i, d))
  }

  lemma MergedIsTimed(current: DocumentChange, c: TableRowChange)
    requires DocIsTimed(current)
    ensures DocIsTimed(Merged(current, SingleChange(c)))
  {
    var merged, n := Merged(current, SingleChange(c)), |current.changes|;
    var k :| 0 <= k < n && current.changes[k].ts == current.lastTS;
    assert merged.changes[k] == current.changes[k] && merged.changes[n] == c && merged.changes[0] == current.changes[0];
    if current.lastTS < c.ts {
      assert merged.changes[n].ts == merged.lastTS;
    } else {
      assert merged.changes[k].ts == merged.lastTS;
    }
  }

  lemma SingleIsTimed(c: TableRowChange)
    ensures DocIsTimed(SingleChange(c))
  {
    assert SingleChange(c).changes[0] == c;
  }

  lemma RowKeepsTimed(b: Changes, c: TableRowChange)
    requires IsTimed(b)
    ensures IsTimed(WithRow(b, c))
  {
    var next := WithRow(b, c);
    hide DocIsTimed;
    SingleIsTimed(c);
    if Holds(b, c.index, c.docID) {
      MergedIsTimed(DocAt(b, c.index, c.docID), c);
    }
    hide Merged, SingleChange;
    forall i, d | Holds(next, i, d) ensures DocIsTimed(DocAt(next, i, d)) {
      if i != c.index || d != c.docID {
        assert Holds(b, i, d) && DocAt(next, i, d) == DocAt(b, i, d);
      }
    }
  }

  lemma PartIsTimed(b: Changes, isReady: DocumentChange -> bool, want: bool)
    requires IsTimed(b)
    ensures IsTimed(Part(b, isReady, want))
  {
    hide DocIsTimed;
    forall i, d | Holds(Part(b, isReady, want), i, d) ensures DocIsTimed(DocAt(Part(b, isReady, want), i, d)) {
      PartKeepsDocs(b, isReady, want, i, d);
    }
  }

  lemma FlushKeepsTimed(cfg: Config, s: State, env: FlushEnv)
    requires IsTimed(s.q.queue)
    ensures IsTimed(Flush(cfg, s, env).q.queue)
  {
    PartIsTimed(s.q.queue, ReadyAt(cfg, env.now), false);
    hide IsTimed, Part, Offset, FirstSeen, Notify;
  }

  lemma StepKeepsTimed(cfg: Config, s: State, input: Input)
    requires IsTimed(s.q.queue)
    ensures IsTimed(Step(cfg, s, input).q.queue)
  {
    match input
    case Quit =>
    case Tick(env) =>
      FlushKeepsTimed(cfg, Fired(cfg, s), env);
      hide Flush, IsTimed;
    case Receive(msg, env) =>
      if msg.RowMsg? {
        RowKeepsTimed(s.q.queue, msg.change.(eventID := s.q.last));
      }
      hide IsTimed, WithRow, Subscribe, Flush;
      FlushKeepsTimed(cfg, Accept(s, msg), env);
  }

  /** Over every run: the age of a queued document counts from its first change, its quiet time from its latest. */
  lemma {:induction false} QueueIsTimed(cfg: Config, m: Checkpoint, startedAt: int, inputs: seq<Input>)
    ensures IsTimed(Run(cfg, Init(m, startedAt), inputs).q.queue)
  {
    if inputs != [] {
      hide Step, IsTimed;
      QueueIsTimed(cfg, m, startedAt, Front(inputs));
      StepKeepsTimed(cfg, Run(cfg, Init(m, startedAt), Front(inputs)), Last(inputs));
    }
  }
}
