/** Exactly when the two halves of the pipeline break (river/sync.go): the handler on a callback it cannot process, the loop
    on a request it cannot answer. */
module Panics {
  import opened Types
  import opened Rule
  import opened Batch
  import opened Master
  import opened Sync
  import opened SyncSafety
  import opened SyncTiming
  import opened Handler

  /* ---------- the loop ---------- */

  /** The input asks for a GTID set, is taken, and the checkpoint has none. */
  predicate AsksTooEarly(s: State, input: Input) {
    && s.status == Running && input.Receive? && input.msg.SubscribeMsg?
    && input.msg.subscriber.gtid.Some? && s.master.gtid.None?
  }

  lemma FlushDoesNotPanic(cfg: Config, s: State, env: FlushEnv)
    requires Inv(s) && s.status == Running
    ensures Flush(cfg, s, env).status == if env.result.BatchApplied? then Running else Failed
  {
    FlushKeepsInv(cfg, s, env);
    hide Flush, Inv;
  }

  lemma StepPanicsIff(cfg: Config, s: State, input: Input)
    requires Inv(s) && s.q.last + 1 < NO_EVENT_ID
    ensures Step(cfg, s, input).status == Panicked <==> s.status == Panicked || AsksTooEarly(s, input)
  {
    if s.status == Running {
      match input
      case Quit =>
      case Tick(env) =>
        if CanTick(cfg, s) {
          FlushDoesNotPanic(cfg, Fired(cfg, s), env);
        }
        hide Flush, QueuesFit;
      case Receive(msg, env) =>
        AcceptKeepsInv(s, msg);
        if msg.PositionMsg? && msg.event.force {
          FlushDoesNotPanic(cfg, Accept(s, msg), env);
        }
        hide Flush, QueuesFit, AddRow, AddEvent, Subscribe;
    }
  }

  ghost predicate AskedTooEarly(cfg: Config, m: Checkpoint, startedAt: int, inputs: seq<Input>, k: nat)
    requires k < |inputs|
  {
    AsksTooEarly(Run(cfg, Init(m, startedAt), inputs[..k]), inputs[k])
  }

  /** Over every run the loop panics if and only if a request for a GTID set is taken while the checkpoint has none. Neither
      the unsigned offset nor the reslice nor an empty window ever makes it panic. */
  lemma {:induction false} LoopPanicsIff(cfg: Config, m: Checkpoint, startedAt: int, inputs: seq<Input>)
    requires |inputs| < NO_EVENT_ID
    ensures Run(cfg, Init(m, startedAt), inputs).status == Panicked <==>
            exists k :: 0 <= k < |inputs| && AskedTooEarly(cfg, m, startedAt, inputs, k)
  {
    if inputs != [] {
      var prior, n := Front(inputs), |inputs| - 1;
      LoopPanicsIff(cfg, m, startedAt, prior);
      RunKeepsInv(cfg, m, startedAt, prior);
      StepPanicsIff(cfg, Run(cfg, Init(m, startedAt), prior), Last(inputs));
      assert inputs[..n] == prior && AskedTooEarly(cfg, m, startedAt, inputs, n) ==
             AsksTooEarly(Run(cfg, Init(m, startedAt), prior), Last(inputs));
      forall k | 0 <= k < n
        ensures AskedTooEarly(cfg, m, startedAt, inputs, k) == AskedTooEarly(cfg, m, startedAt, prior, k)
      {
        assert inputs[..k] == prior[..k];
      }
      hide Step, AsksTooEarly, Inv, AskedTooEarly;
    }
  }

  /* ---------- row events that cannot be routed ---------- */

  /** A document id of the row operation cannot be read. */
  predicate UnreadableID(t: Table, idCol: nat, step: RowStep)
    requires StepShape(t, step) && idCol < |t.columns|
  {
    match step
    case InsertRow(row) => CoerceToUint64(row[idCol]).Err?
    case DeleteRow(row) => CoerceToUint64(row[idCol]).Err?
    case UpdateRow(before, after) => CoerceToUint64(before[idCol]).Err? || CoerceToUint64(after[idCol]).Err?
  }

  lemma StepFailsIff(r: IngestRule, t: Table, idCol: nat, step: RowStep, now: int)
    requires TableShape(t) && StepShape(t, step) && idCol < |t.columns|
    ensures StepChanges(r, t, idCol, step, now).Err? <==> UnreadableID(t, idCol, step)
  {
    hide InsertedChange, UpdatedChange, DeletedChange, PKColumns;
  }

  lemma {:induction false} StepsFailIff(r: IngestRule, t: Table, idCol: nat, steps: seq<RowStep>, now: int)
    requires TableShape(t) && StepsShape(t, steps) && idCol < |t.columns|
    ensures EmitSteps(r, t, idCol, steps, now).Err? <==> exists k :: 0 <= k < |steps| && UnreadableID(t, idCol, steps[k])
  {
    if steps != [] {
      StepsFailIff(r, t, idCol, Front(steps), now);
      StepFailsIff(r, t, idCol, Last(steps), now);
      hide StepChanges, UnreadableID, TableShape, StepShape;
      assert forall k :: 0 <= k < |steps| - 1 ==> Front(steps)[k] == steps[k];
    }
  }

  /** The rule concerns the table, and the table has no id column or the event an id that cannot be read. */
  ghost predicate Unroutable(r: IngestRule, e: RowsEvent)
    requires EventShape(e)
  {
    && r.tableName == e.table.name
    && (forall idCol :: 0 <= idCol < |e.table.columns| && IndexOf(e.table.columns, r.docIDField) == Some(idCol) ==>
          exists k :: 0 <= k < |StepsOf(e)| && UnreadableID(e.table, idCol, StepsOf(e)[k]))
  }

  lemma RuleFailsIff(r: IngestRule, e: RowsEvent, now: int)
    requires EventShape(e)
    ensures Emit(r, e, now).Err? <==> Unroutable(r, e)
  {
    IndexIsInRange(e.table.columns, r.docIDField);
    var at := IndexOf(e.table.columns, r.docIDField);
    if at.Some? {
      StepsFailIff(r, e.table, at.value, StepsOf(e), now);
    }
    hide IndexOf, EmitSteps, StepsOf, UnreadableID, TableShape;
  }

  /** An event stops the rule set if and only if some rule cannot route it. */
  lemma {:induction false} RuleSetFailsIff(rules: seq<IngestRule>, e: RowsEvent, now: int)
    requires EventShape(e)
    ensures !EmitRules(rules, e, now).ok <==> exists k :: 0 <= k < |rules| && Unroutable(rules[k], e)
  {
    if rules != [] {
      RuleSetFailsIff(Front(rules), e, now);
      RuleFailsIff(Last(rules), e, now);
      hide Emit, Unroutable, EventShape;
      assert forall k :: 0 <= k < |rules| - 1 ==> Front(rules)[k] == rules[k];
    }
  }

  /* ---------- the handler ---------- */

  function SetOf(call: Call): Option<GTIDSet> {
    match call
    case OnDDL(_, gtid) => gtid
    case OnGTID(gtid) => gtid
    case OnPosSynced(_, gtid, _) => gtid
    case _ => None
  }

  /** The handler has an active set: the checkpoint had one, or, when sets replace each other, some callback brought one. */
  ghost predicate HasActive(setup: Setup, m: Checkpoint, calls: seq<Call>) {
    m.gtid.Some? || (!setup.isMariaDB && exists k :: 0 <= k < |calls| && SetOf(calls[k]).Some?)
  }

  /** The callback cannot be processed after these ones: a commit, or a non-empty MariaDB set, without an active set, or a
      row event that some rule cannot route. */
  ghost predicate Breaks(setup: Setup, m: Checkpoint, calls: seq<Call>, call: Call)
    requires CallShape(call)
  {
    || (call.OnXID? && !HasActive(setup, m, calls))
    || (setup.isMariaDB && SetOf(call).Some? && SetOf(call).value != {} && !HasActive(setup, m, calls))
    || (call.OnRow? && exists k :: 0 <= k < |setup.rules| && Unroutable(setup.rules[k], call.event))
  }

  lemma CallFailsIff(setup: Setup, m: Checkpoint, calls: seq<Call>, h: Producer, call: Call)
    requires CallShape(call) && !h.failed && (h.active.Some? <==> HasActive(setup, m, calls))
    ensures Called(setup, h, call).failed <==> Breaks(setup, m, calls, call)
  {
    if call.OnRow? {
      RuleSetFailsIff(setup.rules, call.event, call.now);
    }
    hide EmitRules, SentRows, HasActive, Unroutable, EventShape;
  }

  lemma CallKeepsActive(setup: Setup, m: Checkpoint, calls: seq<Call>, h: Producer, call: Call)
    requires CallShape(call) && !Called(setup, h, call).failed && (h.active.Some? <==> HasActive(setup, m, calls))
    ensures Called(setup, h, call).active.Some? <==> HasActive(setup, m, calls + [call])
  {
    var more := calls + [call];
    assert more[|calls|] == call && forall k :: 0 <= k < |calls| ==> more[k] == calls[k];
    assert HasActive(setup, m, more) <==> HasActive(setup, m, calls) || (!setup.isMariaDB && SetOf(call).Some?);
    hide EmitRules, SentRows, HasActive, EventShape;
  }

  lemma FailedStays(setup: Setup, h: Producer, call: Call)
    requires CallShape(call) && h.failed
    ensures Called(setup, h, call) == h
  {
  }

  ghost predicate BreaksAt(setup: Setup, m: Checkpoint, calls: seq<Call>, k: nat)
    requires k < |calls| && CallsShape(calls)
  {
    assert CallShape(calls[k]);
    Breaks(setup, m, calls[..k], calls[k])
  }

  ghost predicate Breaking(setup: Setup, m: Checkpoint, calls: seq<Call>)
    requires CallsShape(calls)
  {
    exists k :: 0 <= k < |calls| && BreaksAt(setup, m, calls, k)
  }

  lemma OneMoreCall(setup: Setup, m: Checkpoint, calls: seq<Call>)
    requires CallsShape(calls) && calls != []
    ensures CallShape(Last(calls))
    ensures Breaking(setup, m, calls) <==> Breaking(setup, m, Front(calls)) || Breaks(setup, m, Front(calls), Last(calls))
  {
    var prior, n := Front(calls), |calls| - 1;
    assert CallShape(calls[n]) && calls[..n] == prior;
    forall k | 0 <= k < n ensures BreaksAt(setup, m, calls, k) == BreaksAt(setup, m, prior, k) {
      assert calls[..k] == prior[..k];
    }
    assert BreaksAt(setup, m, calls, n) == Breaks(setup, m, prior, Last(calls));
    hide BreaksAt, Breaks, CallShape;
  }

  /** Whatever callbacks come, the handler has failed if and only if one of them is a commit or a non-empty MariaDB set before
      any set was known, or a row event that some rule cannot route. */
  lemma {:induction false} HandlerFailsIff(setup: Setup, m: Checkpoint, calls: seq<Call>)
    requires CallsShape(calls)
    ensures Produced(setup, StartProducer(m), calls).failed <==> Breaking(setup, m, calls)
    ensures var h := Produced(setup, StartProducer(m), calls);
            !h.failed ==> (h.active.Some? <==> HasActive(setup, m, calls))
  {
    if calls != [] {
      var prior, call := Front(calls), Last(calls);
      HandlerFailsIff(setup, m, prior);
      OneMoreCall(setup, m, calls);
      var h := Produced(setup, StartProducer(m), prior);
      hide Called, HasActive, Breaks, Breaking, CallShape;
      if h.failed {
        FailedStays(setup, h, call);
      } else {
        CallFailsIff(setup, m, prior, h, call);
        assert prior + [call] == calls;
        if !Called(setup, h, call).failed {
          CallKeepsActive(setup, m, prior, h, call);
        }
      }
    }
  }

  /* ---------- how the loop ends ---------- */

  /** A running loop panics, fails or stops for exactly one reason each, and otherwise runs on; one that has ended stays so. */
  lemma StepStatusIs(cfg: Config, s: State, input: Input)
    requires Inv(s) && s.q.last + 1 < NO_EVENT_ID
    ensures s.status != Running ==> Step(cfg, s, input) == s
    ensures s.status == Running ==>
              Step(cfg, s, input).status ==
              if input.Quit? then Stopped
              else if AsksTooEarly(s, input) then Panicked
              else if Flushes(cfg, s, input) && input.env.result.BatchFailed? then Failed
              else Running
  {
    if s.status == Running {
      match input
      case Quit =>
      case Tick(env) =>
        if CanTick(cfg, s) {
          FlushDoesNotPanic(cfg, Fired(cfg, s), env);
        }
        hide Flush, QueuesFit;
      case Receive(msg, env) =>
        AcceptKeepsInv(s, msg);
        if msg.PositionMsg? && msg.event.force {
          FlushDoesNotPanic(cfg, Accept(s, msg), env);
        }
        hide Flush, QueuesFit, AddRow, AddEvent, Subscribe;
    }
  }

  ghost predicate Fails(cfg: Config, s: State, input: Input) {
    Flushes(cfg, s, input) && EnvOf(input).result.BatchFailed?
  }

  ghost predicate FailsAt(cfg: Config, start: State, inputs: seq<Input>, k: nat)
    requires k < |inputs|
  {
    Fails(cfg, Run(cfg, start, inputs[..k]), inputs[k])
  }

  ghost predicate StopsAt(cfg: Config, start: State, inputs: seq<Input>, k: nat)
    requires k < |inputs|
  {
    inputs[k].Quit? && Run(cfg, start, inputs[..k]).status == Running
  }

  lemma EndsBefore(cfg: Config, start: State, inputs: seq<Input>, k: nat)
    requires k < |inputs| - 1
    ensures FailsAt(cfg, start, inputs, k) == FailsAt(cfg, start, Front(inputs), k)
    ensures StopsAt(cfg, start, inputs, k) == StopsAt(cfg, start, Front(inputs), k)
  {
    assert inputs[..k] == Front(inputs)[..k];
  }

  ghost predicate SomeStop(cfg: Config, start: State, inputs: seq<Input>) {
    exists k :: 0 <= k < |inputs| && StopsAt(cfg, start, inputs, k)
  }

  ghost predicate SomeFailure(cfg: Config, start: State, inputs: seq<Input>) {
    exists k :: 0 <= k < |inputs| && FailsAt(cfg, start, inputs, k)
  }

  lemma OneMoreEnd(cfg: Config, start: State, inputs: seq<Input>)
    requires inputs != []
    ensures var s := Run(cfg, start, Front(inputs));
            && (SomeStop(cfg, start, inputs) <==>
                  SomeStop(cfg, start, Front(inputs)) || (Last(inputs).Quit? && s.status == Running))
            && (SomeFailure(cfg, start, inputs) <==>
                  SomeFailure(cfg, start, Front(inputs)) || Fails(cfg, s, Last(inputs)))
  {
    hide Run, Fails;
    var prior, n := Front(inputs), |inputs| - 1;
    assert inputs[..n] == prior;
    assert FailsAt(cfg, start, inputs, n) == Fails(cfg, Run(cfg, start, prior), Last(inputs));
    assert StopsAt(cfg, start, inputs, n) == (Last(inputs).Quit? && Run(cfg, start, prior).status == Running);
    hide FailsAt, StopsAt;
    forall k | 0 <= k < n
      ensures FailsAt(cfg, start, inputs, k) == FailsAt(cfg, start, prior, k)
      ensures StopsAt(cfg, start, inputs, k) == StopsAt(cfg, start, prior, k)
    {
      EndsBefore(cfg, start, inputs, k);
    }
  }

  /** Over every run the loop has stopped if and only if it was told to while running, and has failed if and only if a flush,
      taken while running, could not apply its batch. */
  lemma {:induction false} LoopEndsIff(cfg: Config, m: Checkpoint, startedAt: int, inputs: seq<Input>)
    requires |inputs| < NO_EVENT_ID
    ensures Run(cfg, Init(m, startedAt), inputs).status == Stopped <==> SomeStop(cfg, Init(m, startedAt), inputs)
    ensures Run(cfg, Init(m, startedAt), inputs).status == Failed <==> SomeFailure(cfg, Init(m, startedAt), inputs)
  {
    hide Step, Inv, SomeStop, SomeFailure;
    if inputs == [] {
      NothingEnds(cfg, Init(m, startedAt));
    } else {
      var s := Run(cfg, Init(m, startedAt), Front(inputs));
      LoopEndsIff(cfg, m, startedAt, Front(inputs));
      RunKeepsInv(cfg, m, startedAt, Front(inputs));
      StepStatusIs(cfg, s, Last(inputs));
      OneMoreEnd(cfg, Init(m, startedAt), inputs);
    }
  }

  lemma NothingEnds(cfg: Config, start: State)
    ensures !SomeStop(cfg, start, []) && !SomeFailure(cfg, start, [])
  {
  }
}
