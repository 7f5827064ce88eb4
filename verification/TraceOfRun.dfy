/** Every trace recorded from one created run is accepted by the inspector, and its
    summary tells the truth about the run. */
module TraceOfRun {
  import opened Domain
  import opened RunMachine
  import opened Events
  import opened Trace

  /** The events of a run, answer by answer. */
  function RunEvents(run: Run, inputs: seq<Input>): seq<Event>
    requires AdvanceAll(run, inputs).Some?
    decreases |inputs|
  {
    if inputs == [] then [] else Emits(run, inputs[0]) + RunEvents(Advance(run, inputs[0]), inputs[1..])
  }

  /** How often the run dispatched `Execute`. */
  function Dispatches(run: Run, inputs: seq<Input>): nat
    requires AdvanceAll(run, inputs).Some?
    decreases |inputs|
  {
    if inputs == [] then 0
    else
      var next := Advance(run, inputs[0]);
      (if next.pc.InTool? then 1 else 0) + Dispatches(next, inputs[1..])
  }

  predicate ValidEvent(e: Event, run: Run) {
    && ValidEventStatus(e.kind, e.status) && e.executionId == run.plan.request.executionId
    && 0 <= e.modelAttempt <= run.iterations
  }

  function ToolStarts(events: seq<Event>): nat {
    if events == [] then 0
    else ToolStarts(events[..|events| - 1]) + if events[|events| - 1].kind == ToolStarted then 1 else 0
  }

  predicate Returned(run: Run) {
    run.pc.Halted? && IsTerminal(run.pc.final.status)
  }

  /** The terminal event of a run that returned. */
  predicate Closes(run: Run, e: Event) {
    IsTerminalEvent(e.kind) && e.modelAttempt == run.iterations && run.pc.Halted? && e.status == run.pc.final.status
  }

  /** The events so far, against the state reached. */
  predicate Truthful(run: Run, events: seq<Event>, dispatched: nat) {
    && run.iterations >= 0
    && (forall i | 0 <= i < |events| :: ValidEvent(events[i], run))
    && (forall i | 0 <= i < |events| :: IsTerminalEvent(events[i].kind) ==> i == |events| - 1)
    && ToolStarts(events) == dispatched
    && (if Returned(run)
        then events != [] && Closes(run, events[|events| - 1])
        else forall i | 0 <= i < |events| :: !IsTerminalEvent(events[i].kind))
  }

  lemma ToolStartsAppend(events: seq<Event>, e: Event)
    ensures ToolStarts(events + [e]) == ToolStarts(events) + if e.kind == ToolStarted then 1 else 0
  {
    assert (events + [e])[..|events|] == events;
  }

  predicate IterationsGrow(run: Run, next: Run) {
    run.iterations <= next.iterations && next.plan == run.plan
  }

  lemma IterationsGrowAlways(run: Run, input: Input)
    requires Fits(run.pc, input)
    ensures IterationsGrow(run, Advance(run, input))
  {
    ConstantsKept(run, input);
  }

  lemma TerminalShape(run: Run)
    requires run.pc.Halted? && run.iterations >= 0
    ensures var emitted := TerminalEvents(run.plan.request.executionId, run.iterations, run.pc.final, run.pc.err);
            if Returned(run)
            then && |emitted| == 1 && ValidEvent(emitted[0], run) && Closes(run, emitted[0])
                 && emitted[0].kind != ToolStarted
            else emitted == []
  {
  }

  /** One answer emits at most one event, and what it is. */
  predicate Shape(next: Run, emitted: seq<Event>) {
    && |emitted| <= 1
    && (|emitted| == 1 ==>
          && ValidEvent(emitted[0], next)
          && (emitted[0].kind == ToolStarted <==> next.pc.InTool?)
          && (IsTerminalEvent(emitted[0].kind) <==> Returned(next))
          && (Returned(next) ==> Closes(next, emitted[0])))
    && (|emitted| == 0 ==> !next.pc.InTool? && !Returned(next))
  }

  lemma EmitsShape(run: Run, input: Input)
    requires Fits(run.pc, input) && run.iterations >= 0
    ensures Shape(Advance(run, input), Emits(run, input))
  {
    hide Advance, Emits, Fits, TerminalEvents;
    var next := Advance(run, input);
    IterationsGrowAlways(run, input);
    if next.pc.Halted? {
      TerminalShape(next);
      QuietBeforeHalt(run, input);
    } else {
      RunningShape(run, input);
    }
  }

  lemma RunningShape(run: Run, input: Input)
    requires Fits(run.pc, input) && run.iterations >= 0 && !Advance(run, input).pc.Halted?
    ensures Shape(Advance(run, input), Emits(run, input))
  {
    hide TerminalEvents, OnDecision, OnModelError, OnToolAnswer, AtLoopHead;
    IterationsGrowAlways(run, input);
    if !run.pc.Intended? { NoDispatch(run, input); }
  }

  /** A tool starts only from its own announcement. */
  lemma NoDispatch(run: Run, input: Input)
    requires Fits(run.pc, input) && !run.pc.Intended?
    ensures !Advance(run, input).pc.InTool?
  {
  }

  /** The step that ends a run emits nothing but its terminal event. */
  lemma QuietBeforeHalt(run: Run, input: Input)
    requires Fits(run.pc, input) && Advance(run, input).pc.Halted?
    ensures var next := Advance(run, input);
            Emits(run, input) ==
            TerminalEvents(next.plan.request.executionId, next.iterations, next.pc.final, next.pc.err)
  {
    hide TerminalEvents;
    assert !run.pc.InModel? && !run.pc.InTool?;
  }

  lemma TruthfulStep(run: Run, events: seq<Event>, dispatched: nat, input: Input)
    requires Truthful(run, events, dispatched) && Fits(run.pc, input)
    ensures var next := Advance(run, input);
            Truthful(next, events + Emits(run, input), dispatched + if next.pc.InTool? then 1 else 0)
  {
    hide Advance, Emits, Fits;
    EmitsShape(run, input);
    IterationsGrowAlways(run, input);
    assert !Returned(run) by { HaltedTakesNothing(run, input); }
    var next, emitted := Advance(run, input), Emits(run, input);
    if emitted == [] {
      assert events + emitted == events;
    } else {
      assert emitted == [emitted[0]];
      ToolStartsAppend(events, emitted[0]);
    }
  }

  lemma HaltedTakesNothing(run: Run, input: Input)
    requires Fits(run.pc, input)
    ensures !run.pc.Halted?
  {
  }

  lemma {:induction false} TruthfulRun(run: Run, events: seq<Event>, dispatched: nat, inputs: seq<Input>)
    requires Truthful(run, events, dispatched) && AdvanceAll(run, inputs).Some?
    ensures Truthful(AdvanceAll(run, inputs).value, events + RunEvents(run, inputs),
                     dispatched + Dispatches(run, inputs))
    decreases |inputs|
  {
    hide Truthful, Advance, Emits, Fits;
    if inputs == [] {
      assert events + [] == events;
    } else {
      var next, emitted := Advance(run, inputs[0]), Emits(run, inputs[0]);
      TruthfulStep(run, events, dispatched, inputs[0]);
      TruthfulRun(next, events + emitted, dispatched + (if next.pc.InTool? then 1 else 0), inputs[1..]);
      assert events + emitted + RunEvents(next, inputs[1..]) == events + RunEvents(run, inputs);
    }
  }

  /******* The events of one answer, written out *******/

  /** Each event carries the execution, the status at that moment, the model attempt, and the
      call or the error it is about. */
  lemma EventTable(run: Run, input: Input)
    requires Fits(run.pc, input)
    ensures var id, attempt, next := run.plan.request.executionId, run.iterations, Advance(run, input);
            match run.pc
            case AtWrite(Create, _, _) =>
              input.WriteAcked? ==> Emits(run, input) == [Event(ExecutionStarted, id, Created, 0, "", "", None)]
            case Reserved =>
              next.pc.InModel? ==> Emits(run, input) == [Event(ModelStarted, id, RunningModel, attempt, "", "", None)]
            case InModel =>
              Emits(run, input) ==
              [Event(ModelCompleted, id, RunningModel, attempt, "", "",
                     match input.model case Decided(_) => None case ModelFailed(e) => Some(e))]
            case Intended(call) =>
              next.pc.InTool? ==>
                Emits(run, input) == [Event(ToolStarted, id, RunningTool, attempt, call.id, call.name, None)]
            case InTool(call) =>
              Emits(run, input) ==
              [Event(ToolCompleted, id, RunningTool, attempt, call.id, call.name,
                     match input.tool case ToolOutput(_) => None case ToolFailed(e) => Some(e))]
            case _ => true
  {
    hide Conclude;
    if input.CtxRead? && input.ctx.Ended? { ConcludeParks(run, Cancelled, "", Some(input.ctx.cause)); }
  }

  /** The end of a run is announced once, with its status and its error, exactly when the
      returned status is terminal. */
  lemma ReturnEventTable(run: Run, input: Input)
    requires Fits(run.pc, input) && Advance(run, input).pc.Halted?
    ensures var id, attempt, next := run.plan.request.executionId, run.iterations, Advance(run, input);
            Emits(run, input) ==
            match next.pc.final.status
            case Completed => [Event(ExecutionCompleted, id, Completed, attempt, "", "", next.pc.err)]
            case Failed => [Event(ExecutionFailed, id, Failed, attempt, "", "", next.pc.err)]
            case Cancelled => [Event(ExecutionCancelled, id, Cancelled, attempt, "", "", next.pc.err)]
            case _ => []
  {
    QuietBeforeHalt(run, input);
    HaltingSpendsNothing(run, input);
  }

  lemma HaltingSpendsNothing(run: Run, input: Input)
    requires Fits(run.pc, input) && Advance(run, input).pc.Halted?
    ensures Advance(run, input).iterations == run.iterations && Advance(run, input).plan == run.plan
  {
  }

  /** The calls that the events announce, and those that the run dispatches. */
  function Announced(events: seq<Event>): seq<(string, string)> {
    if events == [] then []
    else (if events[0].kind == ToolStarted then [(events[0].toolCallId, events[0].toolName)] else [])
         + Announced(events[1..])
  }

  function Dispatched(run: Run, inputs: seq<Input>): seq<(string, string)>
    requires AdvanceAll(run, inputs).Some?
    decreases |inputs|
  {
    if inputs == [] then []
    else
      var next := Advance(run, inputs[0]);
      (match Demand(next) case Execute(call) => [(call.id, call.name)] case _ => []) + Dispatched(next, inputs[1..])
  }

  lemma AnnouncedAppend(a: seq<Event>, b: seq<Event>)
    ensures Announced(a + b) == Announced(a) + Announced(b)
  {
    if a == [] {
      assert a + b == b;
    } else {
      assert (a + b)[1..] == a[1..] + b;
      AnnouncedAppend(a[1..], b);
    }
  }

  /** One answer announces exactly the call that it dispatches. */
  lemma StepNamesTheCall(run: Run, input: Input)
    requires Fits(run.pc, input) && run.iterations >= 0
    ensures Announced(Emits(run, input)) ==
            match Demand(Advance(run, input)) case Execute(call) => [(call.id, call.name)] case _ => []
  {
    hide Advance, Emits, Fits, Closes, ValidEvent;
    EmitsShape(run, input);
    var next, emitted := Advance(run, input), Emits(run, input);
    if next.pc.InTool? {
      DispatchIsAnnounced(run, input);
      assert emitted[1..] == [];
    } else if emitted != [] {
      assert emitted[1..] == [];
    }
  }

  lemma DispatchIsAnnounced(run: Run, input: Input)
    requires Fits(run.pc, input) && Advance(run, input).pc.InTool?
    ensures Emits(run, input) ==
            [ToolEvent(run, ToolStarted, Advance(run, input).pc.call, None)]
  {
    if !run.pc.Intended? { NoDispatch(run, input); }
  }

  /** The trace of a run names exactly the calls that were passed to `Execute`, in order. */
  lemma {:induction false} TraceNamesTheCalls(run: Run, inputs: seq<Input>)
    requires AdvanceAll(run, inputs).Some? && run.iterations >= 0
    ensures Announced(RunEvents(run, inputs)) == Dispatched(run, inputs)
    decreases |inputs|
  {
    hide Advance, Emits, Fits, Demand;
    if inputs != [] {
      var next := Advance(run, inputs[0]);
      IterationsGrowAlways(run, inputs[0]);
      StepNamesTheCall(run, inputs[0]);
      TraceNamesTheCalls(next, inputs[1..]);
      AnnouncedAppend(Emits(run, inputs[0]), RunEvents(next, inputs[1..]));
    }
  }

  /******* From events to records *******/

  predicate HttpStatusesOk(events: seq<Event>) {
    forall i | 0 <= i < |events| :: ClassifyTraceError(events[i]).1 >= 0
  }

  lemma ClassifiedHttp(e: Event)
    ensures ClassifyTraceError(e).1 != 0 ==> ClassifyTraceError(e).0 == HTTP_ERROR_CODE
  {
  }

  lemma {:induction false} CountsCarryOver(events: seq<Event>, times: seq<int>, durations: seq<int>)
    requires |times| == |durations| == |events|
    ensures CountToolStarts(Recorded(events, times, durations)) == ToolStarts(events)
    decreases |events|
  {
    if events != [] {
      var n := |events| - 1;
      assert Recorded(events, times, durations)[..n] == Recorded(events[..n], times[..n], durations[..n]);
      CountsCarryOver(events[..n], times[..n], durations[..n]);
    }
  }

  lemma {:induction false} LastAttemptIsMax(records: seq<TraceRecord>, bound: int)
    requires bound >= 0 && forall i | 0 <= i < |records| :: records[i].modelAttempt <= bound
    ensures MaxAttempt(records) <= bound
    ensures records != [] && records[|records| - 1].modelAttempt == bound ==> MaxAttempt(records) == bound
    decreases |records|
  {
    if records != [] {
      LastAttemptIsMax(records[..|records| - 1], bound);
    }
  }

  /** The trace of one run begun by `Run`, recorded without I/O failure and with
      non-negative durations and HTTP statuses: the inspector accepts it, calls it
      complete exactly when the run returned a terminal status, counts the `Execute`
      dispatches, and on a complete trace reports the final iteration count. */
  lemma TraceOfRunIsTruthful(plan: Plan, inputs: seq<Input>, times: seq<int>, durations: seq<int>)
    requires AdvanceAll(Begin(plan), inputs).Some?
    requires var events := RunEvents(Begin(plan), inputs);
             && events != [] && |times| == |durations| == |events| && HttpStatusesOk(events)
             && (forall i | 0 <= i < |events| :: times[i] != 0 && durations[i] >= 0)
    ensures TellsTheTruth(AdvanceAll(Begin(plan), inputs).value, Dispatches(Begin(plan), inputs),
                          Recorded(RunEvents(Begin(plan), inputs), times, durations))
  {
    hide Advance, Emits, Fits, Truthful, TellsTheTruth, Recorded;
    var end, events := AdvanceAll(Begin(plan), inputs).value, RunEvents(Begin(plan), inputs);
    assert Truthful(Begin(plan), [], 0) by { NothingYet(plan); }
    TruthfulRun(Begin(plan), [], 0, inputs);
    assert [] + events == events;
    TruthfulRecords(end, events, Dispatches(Begin(plan), inputs), times, durations);
  }

  lemma NothingYet(plan: Plan)
    ensures Truthful(Begin(plan), [], 0)
  {
  }

  /** What a trace says of the run it was recorded from. */
  predicate TellsTheTruth(end: Run, dispatched: nat, records: seq<TraceRecord>) {
    && ValidTrace(records)
    && var summary := Summary(records);
    && summary.toolCalls == dispatched
    && (summary.terminal.Some? <==> Returned(end))
    && (summary.terminal.Some? ==>
          summary.terminal.value.status == end.pc.final.status && summary.modelAttempts == end.iterations)
  }

  lemma TruthfulRecords(end: Run, events: seq<Event>, dispatched: nat, times: seq<int>, durations: seq<int>)
    requires events != [] && Truthful(end, events, dispatched) && HttpStatusesOk(events)
    requires |times| == |durations| == |events|
    requires forall i | 0 <= i < |events| :: times[i] != 0 && durations[i] >= 0
    ensures TellsTheTruth(end, dispatched, Recorded(events, times, durations))
  {
    hide ClassifyTraceError, ValidTrace, HttpStatusesOk;
    var records := Recorded(events, times, durations);
    RecordsAreValid(end, events, times, durations);
    CountsCarryOver(events, times, durations);
    forall i | 0 <= i < |records| ensures records[i].modelAttempt <= end.iterations {
      assert ValidEvent(events[i], end);
    }
    LastAttemptIsMax(records, end.iterations);
    var n := |events| - 1;
    assert records[n].kind == events[n].kind && records[n].status == events[n].status;
  }

  lemma RecordIsValid(e: Event, run: Run, sequence: int, now: int, duration: int)
    requires ValidEvent(e, run) && ClassifyTraceError(e).1 >= 0 && now != 0 && duration >= 0
    ensures var r := RecordOf(e, sequence, now, duration);
            ValidRecord(r, sequence) && r.executionId == run.plan.request.executionId && r.kind == e.kind
  {
    hide ClassifyTraceError;
    ClassifiedHttp(e);
  }

  lemma RecordsAreValid(run: Run, events: seq<Event>, times: seq<int>, durations: seq<int>)
    requires events != [] && HttpStatusesOk(events) && Truthful(run, events, ToolStarts(events))
    requires |times| == |durations| == |events|
    requires forall i | 0 <= i < |events| :: times[i] != 0 && durations[i] >= 0
    ensures ValidTrace(Recorded(events, times, durations))
  {
    hide ClassifyTraceError, ToolStarts, ValidRecord, RecordOf, ValidEvent, Closes;
    var records := Recorded(events, times, durations);
    forall i | 0 <= i < |records| ensures ValidAt(records, i) {
      RecordIsValid(events[i], run, i + 1, times[i], durations[i]);
      RecordIsValid(events[0], run, 1, times[0], durations[0]);
      assert records[i] == RecordOf(events[i], i + 1, times[i], durations[i]);
    }
  }
}
