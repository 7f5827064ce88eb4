/** `Resume` and its recovery of a pending tool call, joined with `run` into one
    process; the invariant of whole processes, what they write and what they return. */
module Recovery {
  import opened Domain
  import opened Checkpoints
  import opened RunMachine
  import opened RunInvariant

  /** What a worker's runtime is configured with. The two capabilities are those
      the installed tool executor implements. */
  datatype Config = Config(hasTools: bool, canReconcile: bool, canReplay: bool, maxModelRetries: int)

  datatype Process =
    | Loading(id: string)
    | LoadRefused(loadErr: Err)
    | Reconciling(cp: Checkpoint)
    | ReconcileDone(cp: Checkpoint, outcome: ReconcileAnswer)
    | Replaying(cp: Checkpoint)
    | ReplayDone(cp: Checkpoint, replay: ToolAnswer)
    | Restoring(cp: Checkpoint, output: string)
    | Executing(run: Run)
    | Stopped(result: Option<Result>, err: Option<Err>)

  function ResumeDemand(p: Process): Effect {
    match p
    case Loading(id) => LoadRecord(id)
    case Reconciling(cp) => if cp.pendingTool.Some? then Reconcile(cp.pendingTool.value) else NoEffect
    case Replaying(cp) => if cp.pendingTool.Some? then Replay(cp.pendingTool.value) else NoEffect
    case Restoring(cp, output) =>
      if cp.pendingTool.Some? then Save(Stamp(Restored(cp, output)), false) else NoEffect
    case Executing(run) => Demand(run)
    case Stopped(_, _) => NoEffect
    case _ => ReadContext
  }

  /** Which answers a waiting process can get. */
  predicate Accepts(p: Process, input: Input) {
    match p
    case Loading(_) => input.Loaded? || input.LoadFailed?
    case Reconciling(_) => input.ReconcileReply?
    case Replaying(_) => input.ReplayReply?
    case Restoring(cp, _) => cp.pendingTool.Some? && (input.WriteAcked? || input.WriteFailed?)
    case Executing(run) => Fits(run.pc, input)
    case Stopped(_, _) => false
    case _ => input.CtxRead?
  }

  /** A run that has returned is a process that has returned. */
  function Settle(run: Run): Process {
    if run.pc.Halted? then Stopped(Some(run.pc.final), run.pc.err) else Executing(run)
  }

  function Stop(cp: Checkpoint, err: Err): Process {
    Stopped(Some(cp.result), Some(err))
  }

  function OutcomeStaysUnknown(cp: Checkpoint): Process {
    Stop(cp, Sentinel(ToolOutcomeUnknown, "pending tool outcome is unknown"))
  }

  /** `Resume` after a successful load. */
  function AfterLoad(cfg: Config, id: string, cp: Checkpoint): Process {
    if !Valid(cp) || cp.executionId != id then Stopped(None, Some(Sentinel(InvalidCheckpoint, "invalid checkpoint")))
    else if cp.result.status == Completed then Stopped(Some(cp.result), None)
    else if IsTerminal(cp.result.status) then
      Stop(cp, Sentinel(ExecutionTerminal, "execution has already terminated: " + cp.error))
    else if cp.schemaVersion < 2 then Stop(cp, Sentinel(RecoveryUnsupported, "execution recovery is unsupported"))
    else if cp.schemaVersion >= 3 && cp.maxModelRetries > 0 && cfg.maxModelRetries != cp.maxModelRetries then
      Stop(cp, Sentinel(RecoveryUnsupported, "execution recovery is unsupported"))
    else if cp.pendingTool.Some? then (if cfg.canReconcile then Reconciling(cp) else ToReplay(cfg, cp))
    else Executing(Launch(cp, cfg.hasTools))
  }

  function ToReplay(cfg: Config, cp: Checkpoint): Process {
    if cfg.canReplay then Replaying(cp) else OutcomeStaysUnknown(cp)
  }

  /** `reconcilePendingTool` once the context has been read as live. */
  function OnOutcome(cfg: Config, cp: Checkpoint, answer: ReconcileAnswer): Process {
    if answer.ReconcileFailed? then
      Stop(cp, Wrap("tool outcome reconciliation failed", {ToolReconciliation}, answer.reconcileErr))
    else
      match answer.state
      case OutcomeUnknown =>
        if answer.output != ""
        then Stop(cp, Sentinel(ToolReconciliation, "unknown call returned output")) else ToReplay(cfg, cp)
      case OutcomeCompleted => Restoring(cp, answer.output)
      case OutcomeOther(_) => Stop(cp, Sentinel(ToolReconciliation, "unknown state"))
  }

  /** `replayPendingTool` once the context has been read as live. */
  function OnReplay(cp: Checkpoint, answer: ToolAnswer): Process {
    if answer.ToolOutput? then Restoring(cp, answer.output)
    else if ReplayUnsupported in answer.toolErr.tags then OutcomeStaysUnknown(cp)
    else Stop(cp, Wrap("idempotent tool replay failed", {ToolReplay}, answer.toolErr))
  }

  function Proceed(cfg: Config, p: Process, input: Input): Process
    requires Accepts(p, input)
  {
    match p
    case Loading(id) =>
      if input.Loaded? then AfterLoad(cfg, id, input.record)
      else LoadRefused(input.loadErr)
    case LoadRefused(e) =>
      Stopped(None, Some(if input.ctx.Ended? then input.ctx.cause else Wrap("load execution", {CheckpointStore}, e)))
    case Reconciling(cp) => ReconcileDone(cp, input.outcome)
    case ReconcileDone(cp, answer) =>
      if input.ctx.Ended? then Stop(cp, input.ctx.cause) else OnOutcome(cfg, cp, answer)
    case Replaying(cp) => ReplayDone(cp, input.replay)
    case ReplayDone(cp, answer) =>
      if input.ctx.Ended? then Stop(cp, input.ctx.cause) else OnReplay(cp, answer)
    case Restoring(cp, output) =>
      if input.WriteAcked? then Executing(Launch(Stamp(Restored(cp, output)), cfg.hasTools))
      else Stop(cp, Wrap("checkpoint store failed", {CheckpointStore}, input.writeErr))
    case Executing(run) => Settle(Advance(run, input))
  }

  /******* The invariant of a process *******/

  predicate AtWritePoint(p: Process) {
    (p.Restoring? && p.cp.pendingTool.Some?) || (p.Executing? && p.run.pc.AtWrite?)
  }

  function WriteOf(p: Process): Checkpoint
    requires AtWritePoint(p)
  {
    if p.Restoring? then Stamp(Restored(p.cp, p.output)) else Outgoing(p.run)
  }

  function KindOf(p: Process): WriteKind
    requires AtWritePoint(p)
  {
    if p.Restoring? then Complete else p.run.pc.kind
  }

  predicate Recovering(p: Process) {
    p.Reconciling? || p.ReconcileDone? || p.Replaying? || p.ReplayDone? || p.Restoring?
  }

  predicate HoldsLoaded(cp: Checkpoint, base: Base) {
    base == LoadedBase(cp) && cp.pendingTool.Some? && cp.result.status == RunningTool && Tidy(cp)
  }

  /** Memory agrees with the last checkpoint known to be stored, and a recovering
      worker holds a loaded record with a pending call. */
  predicate SoundProcess(p: Process, base: Base) {
    && (p.Loading? || p.LoadRefused? ==> base == NoBase)
    && (Recovering(p) ==> HoldsLoaded(p.cp, base))
    && (p.Executing? ==> Sound(p.run, base) && !p.run.pc.Halted?)
    && (p.Stopped? && base != NoBase ==> p.result == Some(base.cp.result))
  }

  /** The checkpoint of an execution that has just been created. */
  predicate IsFirst(cp: Checkpoint) {
    cp == Outgoing(Begin(Plan(cp.request, cp.maxSteps, cp.maxModelRetries, false)))
  }

  /** The write at a write point is a successor of the base, or the first write. */
  predicate Writable(kind: WriteKind, base: Base, cp: Checkpoint) {
    if kind == Create then base == NoBase && IsFirst(cp)
    else base != NoBase && Successor(kind, IsReserved(base), base.cp, cp)
  }

  lemma WritePointIsWritable(p: Process, base: Base)
    requires SoundProcess(p, base) && AtWritePoint(p)
    ensures Writable(KindOf(p), base, WriteOf(p))
    ensures ResumeDemand(p) == Save(WriteOf(p), KindOf(p) == Create)
  {
    if p.Restoring? {
      var next := WriteOf(p);
      assert next.result.steps[|p.cp.result.steps|].result.output == p.output;
    }
  }

  function BaseAfter(cfg: Config, p: Process, base: Base, input: Input): Base
    requires Accepts(p, input)
  {
    if AtWritePoint(p) && input.WriteAcked? then AckedBase(KindOf(p), WriteOf(p))
    else if p.Loading? && input.Loaded? && Proceed(cfg, p, input) != InvalidRecord() then LoadedBase(input.record)
    else base
  }

  function InvalidRecord(): Process {
    Stopped(None, Some(Sentinel(InvalidCheckpoint, "invalid checkpoint")))
  }

  /** What the status of an unfinished resumable record says. */
  lemma UnfinishedShape(cp: Checkpoint)
    requires Resumable(cp) && !IsTerminal(cp.result.status)
    ensures Tidy(cp)
    ensures cp.pendingTool.Some? <==> cp.result.status == RunningTool
  {
    hide FinalStatus, Started, Finished, ValidSteps, StepIds;
  }

  lemma AfterLoadIsSound(cfg: Config, id: string, cp: Checkpoint)
    ensures var p := AfterLoad(cfg, id, cp);
            if p == InvalidRecord() then SoundProcess(p, NoBase) else SoundProcess(p, LoadedBase(cp))
    ensures AfterLoad(cfg, id, cp) != InvalidRecord() ==> Valid(cp) && cp.executionId == id
    ensures AfterLoad(cfg, id, cp).Executing? || Recovering(AfterLoad(cfg, id, cp)) ==> Resumable(cp)
  {
    hide Valid, Sound, Launch, Tidy;
    if Resumable(cp) && !IsTerminal(cp.result.status) {
      UnfinishedShape(cp);
      if cp.pendingTool.None? {
        LaunchIsSound(cp, cfg.hasTools, LoadedBase(cp));
        LaunchEntersLoop(cp, cfg.hasTools);
      }
    }
  }

  lemma LaunchEntersLoop(cp: Checkpoint, hasTools: bool)
    ensures Launch(cp, hasTools).pc.LoopHead?
  {
  }

  lemma ExecutingKeepsSound(run: Run, base: Base, input: Input)
    requires Sound(run, base) && Fits(run.pc, input)
    requires run.pc.AtWrite? && input.WriteAcked? ==> Tidy(Outgoing(run))
    ensures SoundProcess(Settle(Advance(run, input)), NextBase(run, base, input))
  {
    AdvanceKeepsSound(run, base, input);
  }

  lemma RestoredLaunches(cfg: Config, cp: Checkpoint, output: string)
    requires cp.pendingTool.Some? && Tidy(Stamp(Restored(cp, output)))
    ensures var next := Stamp(Restored(cp, output));
            SoundProcess(Executing(Launch(next, cfg.hasTools)), AckedBase(Complete, next))
  {
    var next := Stamp(Restored(cp, output));
    LaunchIsSound(next, cfg.hasTools, AckedBase(Complete, next));
  }

  /** Whatever the outside answers, a process stays sound. */
  lemma ProceedKeepsSound(cfg: Config, p: Process, base: Base, input: Input)
    requires SoundProcess(p, base) && Accepts(p, input)
    requires AtWritePoint(p) && input.WriteAcked? ==> Tidy(WriteOf(p))
    ensures SoundProcess(Proceed(cfg, p, input), BaseAfter(cfg, p, base, input))
  {
    if p.Executing? {
      assert BaseAfter(cfg, p, base, input) == NextBase(p.run, base, input);
      ExecutingKeepsSound(p.run, base, input);
    } else if p.Loading? {
      if input.Loaded? { AfterLoadIsSound(cfg, p.id, input.record); }
    } else if p.Restoring? && input.WriteAcked? {
      RestoredLaunches(cfg, p.cp, p.output);
    } else if Recovering(p) {
      RecoveryHoldsRecord(cfg, p, input);
    }
  }

  /** Still recovering this record, or returned with its result and an error. */
  predicate HoldsOrStops(next: Process, cp: Checkpoint) {
    if next.Stopped? then next.result == Some(cp.result) && next.err.Some? else Recovering(next) && next.cp == cp
  }

  lemma OutcomeHolds(cfg: Config, cp: Checkpoint, answer: ReconcileAnswer)
    ensures HoldsOrStops(OnOutcome(cfg, cp, answer), cp)
  {
  }

  lemma ReplayHolds(cp: Checkpoint, answer: ToolAnswer)
    ensures HoldsOrStops(OnReplay(cp, answer), cp)
  {
  }

  /** Recovery that does not restore keeps the loaded record or returns its result. */
  lemma RecoveryHoldsRecord(cfg: Config, p: Process, input: Input)
    requires Recovering(p) && Accepts(p, input) && !(p.Restoring? && input.WriteAcked?)
    ensures HoldsOrStops(Proceed(cfg, p, input), p.cp)
  {
    hide OnOutcome, OnReplay;
    if p.ReconcileDone? { OutcomeHolds(cfg, p.cp, p.outcome); }
    if p.ReplayDone? { ReplayHolds(p.cp, p.replay); }
  }

  /** Every checkpoint a sound process wants to write over a resumable base passes
      the validator, except exactly a terminal one whose error text is empty; and it
      carries the next revision. */
  lemma EveryWriteIsValid(p: Process, base: Base)
    requires SoundProcess(p, base) && AtWritePoint(p)
    requires base != NoBase ==> Resumable(base.cp)
    requires p.Executing? && p.run.pc.kind == Create ==> Startable(p.run.plan)
    ensures Resumable(WriteOf(p)) <==> HasErrorText(WriteOf(p))
    ensures Valid(WriteOf(p)) <==> HasErrorText(WriteOf(p))
    ensures WriteOf(p).revision == Revision(WriteOf(p))
    ensures Revision(WriteOf(p)) == (if base == NoBase then 1 else Revision(base.cp) + 1)
  {
    WritePointIsWritable(p, base);
    if KindOf(p) == Create {
      CreatedIsValid(p.run);
    } else {
      SuccessorIsValid(KindOf(p), IsReserved(base), base.cp, WriteOf(p));
    }
  }

  /******* Returned results *******/

  /** With a store, a returned result is the result of the last acknowledged or
      loaded checkpoint; nothing follows a write error. */
  lemma ReturnedIsLastAcknowledged(cfg: Config, p: Process, base: Base, input: Input)
    requires SoundProcess(p, base) && Accepts(p, input)
    requires AtWritePoint(p) && input.WriteAcked? ==> Tidy(WriteOf(p))
    ensures var p', base' := Proceed(cfg, p, input), BaseAfter(cfg, p, base, input);
            && (p'.Stopped? && base' != NoBase ==> p'.result == Some(base'.cp.result))
            && (input.WriteFailed? ==> p'.Stopped? && p'.err.Some? && CheckpointStore in p'.err.value.tags)
  {
    ProceedKeepsSound(cfg, p, base, input);
  }

  /******* Recovery of a pending call, up to its write or its return *******/

  /** Recovery from a loaded record up to its restoring write or its return, under a
      fixed context and fixed executor answers. */
  function Settles(cfg: Config, p: Process, ctx: Ctx, outcome: ReconcileAnswer, replay: ToolAnswer): Process
    decreases if p.Reconciling? then 4 else if p.ReconcileDone? then 3 else if p.Replaying? then 2
              else if p.ReplayDone? then 1 else 0
  {
    match p
    case Reconciling(_) => Settles(cfg, Proceed(cfg, p, ReconcileReply(outcome)), ctx, outcome, replay)
    case ReconcileDone(_, _) => Settles(cfg, Proceed(cfg, p, CtxRead(ctx)), ctx, outcome, replay)
    case Replaying(_) => Settles(cfg, Proceed(cfg, p, ReplayReply(replay)), ctx, outcome, replay)
    case ReplayDone(_, _) => Settles(cfg, Proceed(cfg, p, CtxRead(ctx)), ctx, outcome, replay)
    case _ => p
  }

  /** `Resume`'s pending-tool branch. */
  function RecoverPending(cfg: Config, cp: Checkpoint, ctx: Ctx, outcome: ReconcileAnswer, replay: ToolAnswer): Process
  {
    Settles(cfg, if cfg.canReconcile then Reconciling(cp) else ToReplay(cfg, cp), ctx, outcome, replay)
  }

  lemma ReplaySettles(cfg: Config, cp: Checkpoint, ctx: Ctx, outcome: ReconcileAnswer, replay: ToolAnswer)
    ensures Settles(cfg, ToReplay(cfg, cp), ctx, outcome, replay) ==
            if !cfg.canReplay then OutcomeStaysUnknown(cp)
            else if ctx.Ended? then Stop(cp, ctx.cause) else OnReplay(cp, replay)
  {
    if cfg.canReplay {
      var done := ReplayDone(cp, replay);
      assert Settles(cfg, Replaying(cp), ctx, outcome, replay) == Settles(cfg, done, ctx, outcome, replay);
      assert Settles(cfg, done, ctx, outcome, replay) ==
             Settles(cfg, Proceed(cfg, done, CtxRead(ctx)), ctx, outcome, replay);
    }
  }

  lemma ReconcileSettles(cfg: Config, cp: Checkpoint, ctx: Ctx, outcome: ReconcileAnswer, replay: ToolAnswer)
    ensures Settles(cfg, Reconciling(cp), ctx, outcome, replay) ==
            if ctx.Ended? then Stop(cp, ctx.cause)
            else if outcome.Outcome? && outcome.state == OutcomeUnknown && outcome.output == ""
            then Settles(cfg, ToReplay(cfg, cp), ctx, outcome, replay)
            else OnOutcome(cfg, cp, outcome)
  {
    var done := ReconcileDone(cp, outcome);
    assert Settles(cfg, Reconciling(cp), ctx, outcome, replay) == Settles(cfg, done, ctx, outcome, replay);
    assert Settles(cfg, done, ctx, outcome, replay) ==
           Settles(cfg, Proceed(cfg, done, CtxRead(ctx)), ctx, outcome, replay);
  }

  /** Recovery that gets as far as a write restores the record it loaded. */
  lemma RecoveredRestoresRecord(cfg: Config, cp: Checkpoint, ctx: Ctx, outcome: ReconcileAnswer, replay: ToolAnswer)
    ensures RestoresOrStops(RecoverPending(cfg, cp, ctx, outcome, replay), cp, ctx)
  {
    hide Settles, Proceed, Wrap, OnReplay, OnOutcome, ToReplay;
    ReplaySettles(cfg, cp, ctx, outcome, replay);
    ReplayRestores(cp, replay);
    assert RestoresOrStops(Settles(cfg, ToReplay(cfg, cp), ctx, outcome, replay), cp, ctx);
    ReconcileSettles(cfg, cp, ctx, outcome, replay);
    OutcomeRestores(cfg, cp, outcome);
  }

  predicate RestoresOrStops(end: Process, cp: Checkpoint, ctx: Ctx) {
    end.Stopped? || (end.Restoring? && end.cp == cp && ctx.Live?)
  }

  lemma ReplayRestores(cp: Checkpoint, replay: ToolAnswer)
    ensures RestoresOrStops(OnReplay(cp, replay), cp, Live)
  {
  }

  lemma OutcomeRestores(cfg: Config, cp: Checkpoint, outcome: ReconcileAnswer)
    ensures RestoresOrStops(OnOutcome(cfg, cp, outcome), cp, Live)
            || (outcome.Outcome? && outcome.state == OutcomeUnknown && outcome.output == "")
  {
  }
}
