/** Crash and resume against the uninterrupted run: a crash at the loop head or in
    the retry wait is invisible, a crash between reservation and model answer costs
    exactly one iteration, and a crash inside a tool that is recovered with the true
    output continues as if nothing had happened. */
module Crash {
  import opened Domain
  import opened Checkpoints
  import opened RunMachine
  import opened RunInvariant
  import opened Recovery

  /** A runtime that may resume this run: same tools and same retry budget. */
  predicate Matches(cfg: Config, run: Run) {
    cfg.hasTools == run.plan.hasTools && cfg.maxModelRetries == run.plan.maxModelRetries
  }

  /******* Crashes at a quiet boundary *******/

  /** At the loop head, all of memory can be rebuilt from the stored record. */
  lemma LoopHeadIsDurable(run: Run, base: Base)
    requires Sound(run, base) && run.pc.LoopHead?
    ensures Launch(base.cp, run.plan.hasTools) == run
  {
  }

  /** A quiet process waits for nothing but its own loop head. */
  predicate Quiet(p: Process) {
    p.Executing? && (p.run.pc.LoopHead? || p.run.pc.Waiting?)
  }

  function Resumed(cfg: Config, base: Base): Process
    requires base != NoBase
  {
    AfterLoad(cfg, base.cp.executionId, base.cp)
  }

  /** Resuming the stored record of a quiet process is the same as letting it go on. */
  lemma QuietCrashIsInvisible(cfg: Config, p: Process, base: Base)
    requires SoundProcess(p, base) && Quiet(p) && Matches(cfg, p.run)
    requires Resumable(base.cp)
    ensures Resumed(cfg, base) == if p.run.pc.LoopHead? then p else Proceed(cfg, p, WaitElapsed)
  {
    hide Sound, Valid, Launch;
    QuietShape(p.run, base);
    LoopHeadIsDurable(p.run.(pc := LoopHead), base);
  }

  lemma QuietShape(run: Run, base: Base)
    requires Sound(run, base) && (run.pc.LoopHead? || run.pc.Waiting?)
    ensures base != NoBase && Sound(run.(pc := LoopHead), base)
    ensures !IsTerminal(base.cp.result.status) && base.cp.pendingTool.None?
    ensures run.plan.maxModelRetries == base.cp.maxModelRetries
  {
    hide SoundAtWrite, SoundHalted;
  }

  /******* A crash between reservation and model answer *******/

  function Shift(run: Run, d: int): Run {
    run.(iterations := run.iterations + d, plan := run.plan.(maxSteps := run.plan.maxSteps + d))
  }

  lemma ConcludeShifts(run: Run, d: int, to: Status, output: string, err: Option<Err>)
    ensures Conclude(Shift(run, d), to, output, err) == Shift(Conclude(run, to, output, err), d)
  {
  }

  lemma ModelErrorShifts(run: Run, d: int, e: Err)
    ensures OnModelError(Shift(run, d), e) == Shift(OnModelError(run, e), d)
  {
    ConcludeShifts(run, d, Failed, "", Some(Wrap("model step", {}, e)));
  }

  lemma DecisionShifts(run: Run, d: int, decision: Decision)
    ensures OnDecision(Shift(run, d), decision) == Shift(OnDecision(run, decision), d)
  {
    if ValidDecision(decision) && decision.kind == Final {
      ConcludeShifts(run, d, Completed, decision.output, None);
    } else if !ValidDecision(decision) {
      ConcludeShifts(run, d, Failed, "", Some(Sentinel(InvalidDecision, "invalid model decision")));
    } else if decision.call.id in StepIds(run.steps) {
      ConcludeShifts(run, d, Failed, "", Some(Sentinel(DuplicateToolCall, "tool call ID already completed")));
    } else if !run.plan.hasTools {
      ConcludeShifts(run, d, Failed, "", Some(Sentinel(ToolExecutorMissing, "tool executor is required")));
    }
  }

  lemma ToolAnswerShifts(run: Run, d: int, call: ToolCall, answer: ToolAnswer)
    ensures OnToolAnswer(Shift(run, d), call, answer) == Shift(OnToolAnswer(run, call, answer), d)
  {
  }

  /** The loop only ever compares iterations with the budget. */
  lemma AdvanceShifts(run: Run, d: int, input: Input)
    requires Fits(run.pc, input)
    ensures Advance(Shift(run, d), input) == Shift(Advance(run, input), d)
  {
    hide Conclude, OnDecision, OnModelError, OnToolAnswer, Acknowledge, Abandon;
    if input.CtxRead? && input.ctx.Ended? {
      ConcludeShifts(run, d, Cancelled, "", Some(input.ctx.cause));
    } else if input.WaitInterrupted? {
      ConcludeShifts(run, d, Cancelled, "", Some(input.waitCause));
    } else if run.pc.ModelDone? {
      if run.pc.model.Decided? { DecisionShifts(run, d, run.pc.model.decision); }
      else { ModelErrorShifts(run, d, run.pc.model.modelErr); }
    } else if run.pc.ToolDone? {
      ToolAnswerShifts(run, d, run.pc.call, run.pc.tool);
    } else if run.pc.AtWrite? {
      WriteShifts(run, d, input);
    } else if run.pc.LoopHead? {
      ConcludeShifts(run, d, Failed, "", Some(Sentinel(StepLimitExceeded, "harness step limit exceeded")));
    }
  }

  lemma WriteShifts(run: Run, d: int, input: Input)
    requires run.pc.AtWrite? && Fits(run.pc, input)
    ensures Advance(Shift(run, d), input) == Shift(Advance(run, input), d)
  {
  }

  /** Same answers, one more iteration used and one more allowed: same outcome. */
  lemma {:induction false} RunShifts(run: Run, d: int, inputs: seq<Input>)
    requires AdvanceAll(run, inputs).Some?
    ensures AdvanceAll(Shift(run, d), inputs) == Some(Shift(AdvanceAll(run, inputs).value, d))
    decreases |inputs|
  {
    if inputs != [] {
      AdvanceShifts(run, d, inputs[0]);
      RunShifts(Advance(run, inputs[0]), d, inputs[1..]);
    }
  }

  /** Resuming a lost reservation is the loop head with that iteration used up. */
  lemma ReservationResumes(cfg: Config, run: Run, base: Base)
    requires Sound(run, base) && (run.pc.Reserved? || run.pc.InModel? || run.pc.ModelDone?)
    requires Resumable(base.cp) && Matches(cfg, run)
    ensures Sound(run.(pc := LoopHead), base)
    ensures Resumed(cfg, base) == Executing(Launch(base.cp, run.plan.hasTools)) == Executing(run.(pc := LoopHead))
  {
    hide FinalStatus, Recoverable, SoundAtWrite, SoundHalted, Launch;
    LoopHeadIsDurable(run.(pc := LoopHead), base);
  }

  lemma ReservationIsSaved(run: Run, base: Base)
    requires Sound(run, base) && (run.pc.Reserved? || run.pc.InModel? || run.pc.ModelDone?)
    ensures run.exec.status == RunningModel && run.lastSaved == Snapshot(run, "")
  {
  }

  /** A worker lost after its reservation was stored and before it used the model
      answer: the resumed run, on budget `maxSteps`, reserves one more iteration and
      from there gives on every answer what the lost one would have given on budget
      `maxSteps - 1`; with no budget left it stops at the step limit. */
  lemma ReservationCrashCostsOneIteration(cfg: Config, run: Run, base: Base, inputs: seq<Input>)
    requires Sound(run, base) && (run.pc.Reserved? || run.pc.InModel? || run.pc.ModelDone?)
    requires base != NoBase && Resumable(base.cp) && Matches(cfg, run)
    ensures Resumed(cfg, base) == Executing(Launch(base.cp, run.plan.hasTools))
    ensures var resumed := Launch(base.cp, run.plan.hasTools);
            var lost := run.(pc := Reserved, plan := run.plan.(maxSteps := run.plan.maxSteps - 1));
            if run.iterations < run.plan.maxSteps then
              && AdvanceAll(resumed, [CtxRead(Live), WriteAcked]) == Some(Shift(lost, 1))
              && (AdvanceAll(lost, inputs).Some? ==>
                    AdvanceAll(Shift(lost, 1), inputs) == Some(Shift(AdvanceAll(lost, inputs).value, 1)))
            else
              && var limited := Advance(resumed, CtxRead(Live));
              && limited.pc.AtWrite? && limited.pc.result.status == Failed
              && limited.pc.cause.Some? && StepLimitExceeded in limited.pc.cause.value.tags
  {
    hide Resumable, Valid, AfterLoad, Sound, Launch;
    ReservationResumes(cfg, run, base);
    ReservationIsSaved(run, base);
    var resumed := Launch(base.cp, run.plan.hasTools);
    var lost := run.(pc := Reserved, plan := run.plan.(maxSteps := run.plan.maxSteps - 1));
    if run.iterations < run.plan.maxSteps {
      var reserving := Advance(resumed, CtxRead(Live));
      assert [CtxRead(Live), WriteAcked][1..] == [WriteAcked];
      assert AdvanceAll(reserving, [WriteAcked]) == Some(Advance(reserving, WriteAcked));
      if AdvanceAll(lost, inputs).Some? { RunShifts(lost, 1, inputs); }
    }
  }

  /******* A crash inside a tool *******/

  lemma CompletionWritesRestored(run: Run, cp: Checkpoint, call: ToolCall, output: string)
    requires Holds(run, cp) && Tidy(cp) && cp.schemaVersion == SCHEMA_VERSION
    requires run.exec.status == RunningTool && run.pendingTool == Some(call)
    ensures var completing := OnToolAnswer(run, call, ToolOutput(output));
            && completing.pc.AtWrite? && completing.pc.kind == Complete
            && Outgoing(completing) == Stamp(Restored(cp, output))
            && Acknowledge(completing) == Launch(Stamp(Restored(cp, output)), run.plan.hasTools)
  {
    var completing := OnToolAnswer(run, call, ToolOutput(output));
    assert completing.pc.result == Restored(cp, output).result;
  }

  /** Resuming inside a tool recovers the pending call. */
  lemma ToolCrashRecovers(cfg: Config, run: Run, base: Base, call: ToolCall)
    requires Sound(run, base) && base != NoBase && Resumable(base.cp) && Matches(cfg, run)
    requires run.pc == InTool(call) || (run.pc.ToolDone? && run.pc.call == call)
    ensures base.AckedBase? && base.cp.pendingTool == Some(call) && base.cp.result.status == RunningTool
    ensures base.cp.schemaVersion == SCHEMA_VERSION && Tidy(base.cp) && Holds(run, base.cp)
    ensures Resumed(cfg, base) == if cfg.canReconcile then Reconciling(base.cp) else ToReplay(cfg, base.cp)
  {
    hide FinalStatus, Recoverable, SoundAtWrite, SoundHalted;
  }

  /** The run once its tool has answered with this output. */
  function Answered(run: Run, call: ToolCall, output: string): Run {
    run.(pc := ToolDone(call, ToolOutput(output)))
  }

  /** The same run, its context found live, at its completion save. */
  function Completing(run: Run, call: ToolCall, output: string): Run {
    OnToolAnswer(Answered(run, call, output), call, ToolOutput(output))
  }

  /** Recovery of the stored record comes to a write that completes the pending call. */
  predicate RecoversWith(cfg: Config, base: Base, outcome: ReconcileAnswer, replay: ToolAnswer, output: string) {
    && base != NoBase
    && var end := Settles(cfg, Resumed(cfg, base), Live, outcome, replay);
    && end.Restoring? && end.output == output
  }

  /** The restoring write of recovery is the completion save of the run, and both go on alike. */
  predicate CompletesAlike(cfg: Config, cp: Checkpoint, completing: Run, output: string) {
    && cp.pendingTool.Some? && cp.result.status == RunningTool
    && completing.pc.AtWrite? && completing.pc.kind == Complete
    && var restoring := Restoring(cp, output);
    && Outgoing(completing) == WriteOf(restoring)
    && ResumeDemand(restoring) == Demand(completing)
    && Proceed(cfg, restoring, WriteAcked) == Executing(Acknowledge(completing))
  }

  /** A crash inside a tool, or after its answer and before the completion save, that
      recovery answers with an output (for an answered call, with the same one), whether
      proved by reconciliation or returned by replay, leads to the state the lost worker
      would have reached on that output, through the same checkpoint. */
  lemma ToolCrashIsInvisible(cfg: Config, run: Run, base: Base, call: ToolCall, output: string,
                             outcome: ReconcileAnswer, replay: ToolAnswer)
    requires Sound(run, base) && base != NoBase && Resumable(base.cp) && Matches(cfg, run)
    requires run.pc == InTool(call) || run.pc == ToolDone(call, ToolOutput(output))
    requires RecoversWith(cfg, base, outcome, replay, output)
    ensures Settles(cfg, Resumed(cfg, base), Live, outcome, replay) == Restoring(base.cp, output)
    ensures CompletesAlike(cfg, base.cp, Completing(run, call, output), output)
  {
    hide Sound, Resumable, Settles, AfterLoad, Tidy, Holds, Outgoing, OnToolAnswer, Acknowledge, Launch, Stamp,
         Restored;
    ToolCrashRecovers(cfg, run, base, call);
    HoldsStatus(run, base.cp);
    RecoveredRestoresRecord(cfg, base.cp, Live, outcome, replay);
    var answered := Answered(run, call, output);
    assert Holds(answered, base.cp) by { HoldsAnywhere(run, answered.pc, base.cp); }
    CompletionWritesRestored(answered, base.cp, call, output);
  }

  lemma HoldsAnywhere(run: Run, pc: Pc, cp: Checkpoint)
    requires Holds(run, cp)
    ensures Holds(run.(pc := pc), cp)
  {
  }

  lemma HoldsStatus(run: Run, cp: Checkpoint)
    requires Holds(run, cp) && cp.result.status == RunningTool
    ensures run.exec.status == RunningTool && run.pendingTool == cp.pendingTool
  {
  }
}
