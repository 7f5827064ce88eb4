/** What `Resume` does with a stored record, and its recovery with each answer, written out
    in terms of the record, the configuration and the sentinels of the returned error. */
module RecoveryTable {
  import opened Domain
  import opened Checkpoints
  import opened RunMachine
  import opened RunInvariant
  import opened Recovery

  /** Returns at once with the record's result and an error of exactly these sentinels. */
  predicate RefusesWith(p: Process, cp: Checkpoint, tags: set<Tag>) {
    p.Stopped? && p.result == Some(cp.result) && p.err.Some? && p.err.value.tags == tags
  }

  predicate Unfinished(cp: Checkpoint) {
    cp.result.status == Created || cp.result.status == RunningModel || cp.result.status == RunningTool
  }

  /** The saved retry budget is one that this runtime does not have. */
  predicate BudgetDiffers(cfg: Config, cp: Checkpoint) {
    cp.schemaVersion == 3 && cp.maxModelRetries > 0 && cp.maxModelRetries != cfg.maxModelRetries
  }

  predicate Supported(cfg: Config, cp: Checkpoint) {
    Unfinished(cp) && cp.schemaVersion != 1 && !BudgetDiffers(cfg, cp)
  }

  /** The loop entered with exactly the progress of this record. */
  predicate RunsFrom(p: Process, cp: Checkpoint, hasTools: bool) {
    && p.Executing? && p.run.pc == LoopHead
    && p.run.plan == Plan(cp.request, cp.maxSteps, cp.maxModelRetries, hasTools)
    && p.run.iterations == cp.modelIterations && p.run.modelRetries == cp.modelRetries
    && p.run.steps == cp.result.steps && p.run.pendingTool == None && p.run.lastSaved == cp.result
    && p.run.exec.status == RunningModel
    && p.run.exec.transitions ==
       cp.result.transitions + (if cp.result.status == Created then [Transition(Created, RunningModel)] else [])
  }

  /** `Resume` on what the store returned: every outcome and exactly when it comes. A
      terminated execution is never reported as a success unless it completed. */
  lemma ResumeTable(cfg: Config, id: string, cp: Checkpoint)
    requires Valid(cp) && cp.executionId == id
    ensures var p := Proceed(cfg, Loading(id), Loaded(cp));
            && (p == Stopped(Some(cp.result), None) <==> cp.result.status == Completed)
            && (RefusesWith(p, cp, {ExecutionTerminal}) <==>
                  cp.result.status == Failed || cp.result.status == Cancelled)
            && (RefusesWith(p, cp, {RecoveryUnsupported}) <==>
                  Unfinished(cp) && (cp.schemaVersion == 1 || BudgetDiffers(cfg, cp)))
            && (RunsFrom(p, cp, cfg.hasTools) <==> Supported(cfg, cp) && cp.pendingTool.None?)
            && (p == Reconciling(cp) <==> Supported(cfg, cp) && cp.pendingTool.Some? && cfg.canReconcile)
            && (p == Replaying(cp) <==>
                  Supported(cfg, cp) && cp.pendingTool.Some? && !cfg.canReconcile && cfg.canReplay)
            && (RefusesWith(p, cp, {ToolOutcomeUnknown}) <==>
                  Supported(cfg, cp) && cp.pendingTool.Some? && !cfg.canReconcile && !cfg.canReplay)
            && (p.Stopped? || RunsFrom(p, cp, cfg.hasTools) || p == Reconciling(cp) || p == Replaying(cp))
  {
    hide Valid;
    SchemaRange(cp);
    if Supported(cfg, cp) {
      UnfinishedShape(cp);
    }
  }

  lemma SchemaRange(cp: Checkpoint)
    requires Valid(cp)
    ensures 1 <= cp.schemaVersion <= 3
  {
  }

  /** A record that is invalid or of another execution returns nothing but the error. */
  lemma RejectionTable(cfg: Config, id: string, cp: Checkpoint)
    requires !Valid(cp) || cp.executionId != id
    ensures var p := Proceed(cfg, Loading(id), Loaded(cp));
            p.Stopped? && p.result == None && p.err.Some? && p.err.value.tags == {InvalidCheckpoint}
  {
    hide Valid;
  }

  /** A record that cannot be loaded: an ended context is reported first. */
  lemma LoadErrorTable(cfg: Config, id: string, e: Err, ctx: Ctx)
    ensures var refused := Proceed(cfg, Loading(id), LoadFailed(e));
            && ResumeDemand(refused) == ReadContext && Accepts(refused, CtxRead(ctx))
            && var p := Proceed(cfg, refused, CtxRead(ctx));
            && p.Stopped? && p.result == None && p.err.Some?
            && (if ctx.Ended? then p.err.value == ctx.cause else p.err.value.tags == {CheckpointStore} + e.tags)
  {
  }

  /******* The pending call *******/

  /** The pending call is the one that is asked about, and its answer is taken as it is. */
  lemma AskTable(cfg: Config, cp: Checkpoint, outcome: ReconcileAnswer, replay: ToolAnswer)
    requires cp.pendingTool.Some?
    ensures ResumeDemand(Reconciling(cp)) == Reconcile(cp.pendingTool.value)
    ensures ResumeDemand(Replaying(cp)) == Replay(cp.pendingTool.value)
    ensures Proceed(cfg, Reconciling(cp), ReconcileReply(outcome)) == ReconcileDone(cp, outcome)
    ensures Proceed(cfg, Replaying(cp), ReplayReply(replay)) == ReplayDone(cp, replay)
    ensures ResumeDemand(ReconcileDone(cp, outcome)) == ResumeDemand(ReplayDone(cp, replay)) == ReadContext
  {
  }

  /** The store is asked to save the record with the pending call completed by this output
      and nothing else changed. */
  predicate AsksToComplete(p: Process, cp: Checkpoint, output: string) {
    && cp.pendingTool.Some? && ResumeDemand(p).Save? && !ResumeDemand(p).create
    && var next, call := ResumeDemand(p).cp, cp.pendingTool.value;
    && next.schemaVersion == cp.schemaVersion && next.executionId == cp.executionId && next.request == cp.request
    && next.maxSteps == cp.maxSteps && next.modelIterations == cp.modelIterations
    && next.maxModelRetries == cp.maxModelRetries && next.modelRetries == cp.modelRetries
    && next.pendingTool == None && next.error == cp.error
    && next.result.executionId == cp.result.executionId && next.result.output == cp.result.output
    && next.result.status == RunningModel
    && next.result.steps == cp.result.steps + [Step(|cp.result.steps| + 1, call, ToolResult(call.id, output))]
    && next.result.transitions == cp.result.transitions + [Transition(RunningTool, RunningModel)]
  }

  /** What an answer of reconciliation leads to. */
  lemma OutcomeTable(cfg: Config, cp: Checkpoint, answer: ReconcileAnswer, ctx: Ctx)
    requires cp.pendingTool.Some?
    ensures var p := Proceed(cfg, ReconcileDone(cp, answer), CtxRead(ctx));
            if ctx.Ended? then p == Stopped(Some(cp.result), Some(ctx.cause))
            else match answer
                 case ReconcileFailed(e) => RefusesWith(p, cp, {ToolReconciliation} + e.tags)
                 case Outcome(OutcomeCompleted, output) => AsksToComplete(p, cp, output)
                 case Outcome(OutcomeUnknown, output) =>
                   if output != "" then RefusesWith(p, cp, {ToolReconciliation})
                   else if cfg.canReplay then p == Replaying(cp)
                   else RefusesWith(p, cp, {ToolOutcomeUnknown})
                 case Outcome(OutcomeOther(_), _) => RefusesWith(p, cp, {ToolReconciliation})
  {
    hide Revision;
  }

  /** What an answer of replay leads to. */
  lemma ReplayTable(cfg: Config, cp: Checkpoint, answer: ToolAnswer, ctx: Ctx)
    requires cp.pendingTool.Some?
    ensures var p := Proceed(cfg, ReplayDone(cp, answer), CtxRead(ctx));
            if ctx.Ended? then p == Stopped(Some(cp.result), Some(ctx.cause))
            else match answer
                 case ToolOutput(output) => AsksToComplete(p, cp, output)
                 case ToolFailed(e) =>
                   RefusesWith(p, cp,
                               if ReplayUnsupported in e.tags then {ToolOutcomeUnknown} else {ToolReplay} + e.tags)
  {
    hide Revision;
  }

  /** What the store's answer to the completing write leads to: the run from exactly that
      record, or the loaded result with a store error. */
  lemma CompletionTable(cfg: Config, cp: Checkpoint, output: string, e: Err)
    requires cp.pendingTool.Some?
    ensures RunsFrom(Proceed(cfg, Restoring(cp, output), WriteAcked),
                     ResumeDemand(Restoring(cp, output)).cp, cfg.hasTools)
    ensures RefusesWith(Proceed(cfg, Restoring(cp, output), WriteFailed(e)), cp, {CheckpointStore} + e.tags)
  {
    hide Revision;
  }

  /** The run inside the process: its steps are the process's, and what it returns is
      returned, result and error. */
  lemma RunInProcessTable(cfg: Config, run: Run, input: Input)
    requires Fits(run.pc, input)
    ensures ResumeDemand(Executing(run)) == Demand(run) && Accepts(Executing(run), input)
    ensures var p, next := Proceed(cfg, Executing(run), input), Advance(run, input);
            if next.pc.Halted? then p == Stopped(Some(next.pc.final), next.pc.err) else p == Executing(next)
  {
    hide Advance;
  }
}
