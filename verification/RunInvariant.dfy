/** What every step of `run` keeps: the state agrees with the last acknowledged
    checkpoint, and every checkpoint about to be written is one of six successors
    of it. */
module RunInvariant {
  import opened Domain
  import opened Checkpoints
  import opened RunMachine

  /******* The six legal successors of a stored checkpoint *******/

  /** The result as the loop sees it: a created execution has entered running_model. */
  function Entered(r: Result): Result {
    if r.status == Created
    then r.(status := RunningModel, transitions := r.transitions + [Transition(Created, RunningModel)])
    else r
  }

  function Moved(r: Result, to: Status): Result {
    r.(status := to, transitions := r.transitions + [Transition(r.status, to)])
  }

  /** `completePendingTool`: the pending call becomes a completed step. */
  function Restored(cp: Checkpoint, output: string): Checkpoint
    requires cp.pendingTool.Some?
  {
    cp.(result := cp.result.(steps := cp.result.steps + [NewStep(cp.result.steps, cp.pendingTool.value, output)],
                             transitions := cp.result.transitions + [Transition(RunningTool, RunningModel)],
                             status := RunningModel),
        pendingTool := None)
  }

  /** `next` is what the runtime may write over `prev` at a write of this kind.
      `reserved` says that `prev` is a model attempt reserved by the same worker. */
  predicate Successor(kind: WriteKind, reserved: bool, prev: Checkpoint, next: Checkpoint) {
    && !IsTerminal(prev.result.status)
    && var entered := prev.(schemaVersion := SCHEMA_VERSION, result := Entered(prev.result));
       match kind
       case Create => false
       case Reserve =>
         && entered.result.status == RunningModel
         && prev.modelIterations < prev.maxSteps
         && next == Stamp(entered.(modelIterations := prev.modelIterations + 1))
       case Retry =>
         && reserved
         && prev.result.status == RunningModel
         && prev.modelRetries < prev.maxModelRetries
         && prev.modelRetries < prev.modelIterations < prev.maxSteps
         && next == Stamp(entered.(modelRetries := prev.modelRetries + 1))
       case Intent(call) =>
         && reserved
         && prev.result.status == RunningModel
         && |prev.result.steps| < prev.modelIterations
         && ValidCall(call) && call.id !in StepIds(prev.result.steps)
         && next == Stamp(entered.(pendingTool := Some(call), result := Moved(prev.result, RunningTool)))
       case Complete =>
         && prev.result.status == RunningTool && prev.pendingTool.Some?
         && |next.result.steps| == |prev.result.steps| + 1
         && next.schemaVersion in {prev.schemaVersion, SCHEMA_VERSION}
         && next == Stamp(Restored(prev.(schemaVersion := next.schemaVersion),
                                   next.result.steps[|prev.result.steps|].result.output))
       case Finish =>
         && var status := next.result.status;
         && IsTerminal(status) && ValidTransition(entered.result.status, status)
         && next == Stamp(entered.(error := next.error,
                                   result := Moved(entered.result, status).(output := next.result.output)))
         && (status == Completed ==> reserved && |prev.result.steps| < prev.modelIterations && next.error == "")
         && (status != Completed ==> next.result.output == "")
  }

  /** Only the text of a terminal error is outside the runtime's control: a caller
      may cancel its context with a cause whose text is empty. */
  predicate HasErrorText(cp: Checkpoint) {
    cp.result.status == Failed || cp.result.status == Cancelled ==> cp.error != ""
  }

  /** Every successor of a valid record is valid exactly when its terminal error has
      text, and its revision is the next one. */
  lemma SuccessorIsValid(kind: WriteKind, reserved: bool, prev: Checkpoint, next: Checkpoint)
    requires Resumable(prev) && Successor(kind, reserved, prev, next)
    ensures Resumable(next) <==> HasErrorText(next)
    ensures Revision(next) == Revision(prev) + 1 == next.revision
  {
    hide Resumable, Revision;
    match kind
    case Reserve => ReserveIsValid(reserved, prev, next);
    case Retry => RetryIsValid(reserved, prev, next);
    case Intent(call) => IntentIsValid(call, reserved, prev, next);
    case Complete => CompleteIsValid(reserved, prev, next);
    case Finish => FinishIsValid(reserved, prev, next);
  }

  /** The view of the loop on a stored record: same progress, running_model entered. */
  function EnteredRecord(prev: Checkpoint): Checkpoint {
    prev.(schemaVersion := SCHEMA_VERSION, revision := 0, result := Entered(prev.result))
  }

  /** Entering running_model is a legal transition that no tool counter sees. */
  lemma EnteredHistory(r: Result)
    requires FinalStatus(r.transitions) == Some(r.status)
    ensures var ts := Entered(r).transitions;
            && FinalStatus(ts) == Some(Entered(r).status)
            && Started(ts) == Started(r.transitions) && Finished(ts) == Finished(r.transitions)
  {
    Append(r.transitions, Transition(Created, RunningModel));
  }

  lemma EnteredIsValid(prev: Checkpoint)
    requires Resumable(prev)
    ensures Resumable(EnteredRecord(prev)) && Revision(EnteredRecord(prev)) == Revision(prev)
  {
    hide ValidSteps, StepIds, FinalStatus, Started, Finished;
    EnteredHistory(prev.result);
  }

  lemma ReserveIsValid(reserved: bool, prev: Checkpoint, next: Checkpoint)
    requires Resumable(prev) && Successor(Reserve, reserved, prev, next)
    ensures Resumable(next) && Revision(next) == Revision(prev) + 1 == next.revision
  {
    hide ValidSteps, StepIds, FinalStatus, Started, Finished;
    EnteredIsValid(prev);
  }

  lemma RetryIsValid(reserved: bool, prev: Checkpoint, next: Checkpoint)
    requires Resumable(prev) && Successor(Retry, reserved, prev, next)
    ensures Resumable(next) && Revision(next) == Revision(prev) + 1 == next.revision
  {
    hide ValidSteps, StepIds, FinalStatus, Started, Finished;
  }

  lemma IntentIsValid(call: ToolCall, reserved: bool, prev: Checkpoint, next: Checkpoint)
    requires Resumable(prev) && Successor(Intent(call), reserved, prev, next)
    ensures Resumable(next) && Revision(next) == Revision(prev) + 1 == next.revision
  {
    Append(prev.result.transitions, Transition(RunningModel, RunningTool));
  }

  lemma StepAppended(steps: seq<Step>, call: ToolCall, output: string)
    requires ValidSteps(steps) && ValidCall(call) && call.id !in StepIds(steps)
    ensures ValidSteps(steps + [NewStep(steps, call, output)])
    ensures StepIds(steps + [NewStep(steps, call, output)]) == StepIds(steps) + {call.id}
  {
    var longer := steps + [NewStep(steps, call, output)];
    forall i | 0 <= i < |steps| ensures longer[i].call.id in StepIds(steps) {
      assert longer[i] == steps[i];
    }
    forall id | id in StepIds(steps) ensures id in StepIds(longer) {
      var i :| 0 <= i < |steps| && steps[i].call.id == id;
      assert longer[i].call.id == id;
    }
    assert longer[|steps|].call.id == call.id;
  }

  lemma RestoredIsValid(cp: Checkpoint, output: string)
    requires Resumable(cp) && cp.result.status == RunningTool && cp.pendingTool.Some?
    ensures var next := Stamp(Restored(cp, output));
            && Resumable(next) && Revision(next) == Revision(cp) + 1 == next.revision
            && RecordedIds(next) == RecordedIds(cp)
  {
    Append(cp.result.transitions, Transition(RunningTool, RunningModel));
    StepAppended(cp.result.steps, cp.pendingTool.value, output);
  }

  lemma CompleteIsValid(reserved: bool, prev: Checkpoint, next: Checkpoint)
    requires Resumable(prev) && Successor(Complete, reserved, prev, next)
    ensures Resumable(next) && Revision(next) == Revision(prev) + 1 == next.revision
    ensures RecordedIds(next) == RecordedIds(prev)
  {
    RestoredIsValid(prev.(schemaVersion := next.schemaVersion), next.result.steps[|prev.result.steps|].result.output);
  }

  /** A terminal transition leaves the tool counters alone. */
  lemma FinishedHistory(r: Result, to: Status)
    requires FinalStatus(r.transitions) == Some(r.status) && ValidTransition(r.status, to) && IsTerminal(to)
    ensures var us := Moved(r, to).transitions;
            && FinalStatus(us) == Some(to) && us[|us| - 1].from == r.status
            && Started(us) == Started(r.transitions) && Finished(us) == Finished(r.transitions)
  {
    Append(r.transitions, Transition(r.status, to));
  }

  lemma FinishFromEntered(entered: Checkpoint, next: Checkpoint)
    requires Resumable(entered) && entered.result.status in {RunningModel, RunningTool}
    requires entered.schemaVersion == SCHEMA_VERSION
    requires var status := next.result.status;
             && IsTerminal(status) && ValidTransition(entered.result.status, status)
             && next == Stamp(entered.(error := next.error,
                                       result := Moved(entered.result, status).(output := next.result.output)))
             && (status == Completed ==> |entered.result.steps| < entered.modelIterations && next.error == "")
             && (status != Completed ==> next.result.output == "")
    ensures Resumable(next) <==> HasErrorText(next)
    ensures Revision(next) == Revision(entered) + 1 == next.revision
  {
    hide ValidSteps, StepIds, FinalStatus, Started, Finished;
    FinishedHistory(entered.result, next.result.status);
  }

  lemma FinishIsValid(reserved: bool, prev: Checkpoint, next: Checkpoint)
    requires Resumable(prev) && Successor(Finish, reserved, prev, next)
    ensures Resumable(next) <==> HasErrorText(next)
    ensures Revision(next) == Revision(prev) + 1 == next.revision
  {
    hide Resumable, FinalStatus, Started, Finished, HasErrorText;
    EnteredIsValid(prev);
    FinishFromEntered(EnteredRecord(prev), next);
  }

  /** Histories only grow, and identity and budgets never change. */
  predicate Extends(prev: Checkpoint, next: Checkpoint) {
    && next.executionId == prev.executionId && next.request == prev.request
    && next.maxSteps == prev.maxSteps && next.maxModelRetries == prev.maxModelRetries
    && prev.modelIterations <= next.modelIterations && prev.modelRetries <= next.modelRetries
    && prev.result.steps <= next.result.steps
    && prev.result.transitions <= next.result.transitions
    && RecordedIds(prev) <= RecordedIds(next)
  }

  lemma SuccessorExtends(kind: WriteKind, reserved: bool, prev: Checkpoint, next: Checkpoint)
    requires Resumable(prev) && Successor(kind, reserved, prev, next)
    ensures Extends(prev, next)
  {
    if kind.Complete? {
      CompleteIsValid(reserved, prev, next);
    }
  }

  /******* The invariant of one run *******/

  /** The last checkpoint this worker knows to be stored. */
  datatype Base = NoBase | LoadedBase(cp: Checkpoint) | AckedBase(kind: WriteKind, cp: Checkpoint)

  predicate IsReserved(base: Base) {
    base.AckedBase? && base.kind == Reserve
  }

  /** What the loop itself relies on of a stored record; every resumable record has it. */
  predicate Tidy(cp: Checkpoint) {
    && cp.executionId == cp.request.executionId == cp.result.executionId
    && cp.modelRetries <= cp.modelIterations && |cp.result.steps| <= cp.modelIterations
    && (!IsTerminal(cp.result.status) ==> cp.error == "" && cp.result.output == "")
    && (cp.result.status in {Created, RunningModel} ==> cp.pendingTool.None?)
  }

  lemma ResumableIsTidy(cp: Checkpoint)
    requires Resumable(cp)
    ensures Tidy(cp)
  {
  }

  /** Everything in memory is what the base checkpoint says. */
  predicate Holds(run: Run, cp: Checkpoint) {
    && Owns(run, cp)
    && run.iterations == cp.modelIterations && run.modelRetries == cp.modelRetries
    && run.pendingTool == cp.pendingTool
    && Snapshot(run, "") == Entered(cp.result)
  }

  predicate Owns(run: Run, cp: Checkpoint) {
    && run.plan.request == cp.request && run.plan.maxSteps == cp.maxSteps
    && run.plan.maxModelRetries == cp.maxModelRetries
    && run.lastSaved == cp.result
  }

  predicate Sound(run: Run, base: Base) {
    if run.pc.AtWrite? then SoundAtWrite(run, base)
    else if run.pc.Halted? then SoundHalted(run, base)
    else base != NoBase && SoundBetween(run, base)
  }

  predicate SoundAtWrite(run: Run, base: Base)
    requires run.pc.AtWrite?
  {
    if run.pc.kind == Create then
      base == NoBase && run == Begin(run.plan)
    else
      && base != NoBase && Tidy(base.cp) && Owns(run, base.cp)
      && Successor(run.pc.kind, IsReserved(base), base.cp, Outgoing(run))
      && (run.pc.kind != Finish ==> run.pc.result == Snapshot(run, "") && run.pc.cause == None)
  }

  predicate SoundHalted(run: Run, base: Base)
    requires run.pc.Halted?
  {
    if base == NoBase
    then run.pc.final == Begin(run.plan).lastSaved
    else run.pc.final == base.cp.result
  }

  predicate SoundBetween(run: Run, base: Base)
    requires base != NoBase
  {
    && Tidy(base.cp) && Holds(run, base.cp)
    && (run.pc.LoopHead? || run.pc.Waiting? ==> run.exec.status == RunningModel)
    && (run.pc.Reserved? || run.pc.InModel? || run.pc.ModelDone? ==> AtModel(base))
    && (run.pc.Intended? || run.pc.InTool? || run.pc.ToolDone? ==> AtTool(run, base, run.pc.call))
  }

  predicate AtModel(base: Base) {
    && base.AckedBase? && base.kind == Reserve && base.cp.result.status == RunningModel
    && base.cp.modelRetries < base.cp.modelIterations && |base.cp.result.steps| < base.cp.modelIterations
  }

  predicate AtTool(run: Run, base: Base, call: ToolCall) {
    && run.exec.status == RunningTool && run.pendingTool == Some(call)
    && base.AckedBase? && base.kind == Intent(call) && base.cp.schemaVersion == SCHEMA_VERSION
  }

  /** The base moves exactly when a write is acknowledged. */
  function NextBase(run: Run, base: Base, input: Input): Base {
    if run.pc.AtWrite? && input.WriteAcked? then AckedBase(run.pc.kind, Outgoing(run)) else base
  }

  /** The options `Run` accepts. */
  predicate Startable(plan: Plan) {
    plan.request.executionId != "" && plan.request.prompt != "" && plan.maxSteps > 0 && plan.maxModelRetries >= 0
  }

  /** The first checkpoint is valid and has revision one. */
  lemma CreatedIsValid(run: Run)
    requires Startable(run.plan) && run == Begin(run.plan)
    ensures Resumable(Outgoing(run)) && Revision(Outgoing(run)) == 1
    ensures Entered(Outgoing(run).result).status == RunningModel
  {
  }

  /** A worker that enters the loop from a stored record holds that record. */
  lemma LaunchIsSound(cp: Checkpoint, hasTools: bool, base: Base)
    requires base != NoBase && base.cp == cp && Tidy(cp) && cp.result.status in {Created, RunningModel}
    ensures Sound(Launch(cp, hasTools), base)
  {
  }

  /** After an acknowledged non-terminal write, memory holds what was written. */
  lemma AcknowledgedIsHeld(run: Run)
    requires run.pc.AtWrite? && run.pc.kind != Finish && run.pc.result == Snapshot(run, "") && run.pc.cause == None
    requires run.pc.kind == Create <==> run.exec.status == Created
    ensures Holds(Acknowledge(run), Outgoing(run))
  {
  }

  /** What a non-terminal successor looks like where the loop goes on from it. */
  lemma SuccessorStatus(kind: WriteKind, reserved: bool, prev: Checkpoint, next: Checkpoint)
    requires Tidy(prev) && Successor(kind, reserved, prev, next)
    ensures kind == Reserve || kind == Retry || kind == Complete ==> next.result.status == RunningModel
    ensures kind == Reserve ==> AtModel(AckedBase(kind, next))
    ensures kind.Intent? ==>
              next.result.status == RunningTool && next.pendingTool == Some(kind.call)
              && next.schemaVersion == SCHEMA_VERSION
  {
  }

  lemma AcknowledgeKeepsSound(run: Run, base: Base)
    requires Sound(run, base) && run.pc.AtWrite? && Tidy(Outgoing(run))
    ensures Sound(Acknowledge(run), AckedBase(run.pc.kind, Outgoing(run)))
  {
    if run.pc.kind != Create {
      SuccessorStatus(run.pc.kind, IsReserved(base), base.cp, Outgoing(run));
    }
    if run.pc.kind != Finish {
      AcknowledgedIsHeld(run);
    }
  }

  /** Leaving the loop writes a terminal successor of the base. */
  lemma ConcludeIsSuccessor(run: Run, cp: Checkpoint, reserved: bool, to: Status, output: string, err: Option<Err>)
    requires Holds(run, cp) && cp.executionId == cp.request.executionId
    requires IsTerminal(to) && ValidTransition(run.exec.status, to)
    requires to != Completed ==> output == ""
    requires to == Completed ==> reserved && |cp.result.steps| < cp.modelIterations && err.None?
    ensures var next := Conclude(run, to, output, err);
            && next.pc == AtWrite(Finish, Snapshot(Move(run, to), output), err)
            && Owns(next, cp) && Successor(Finish, reserved, cp, Outgoing(next))
  {
    var next := Conclude(run, to, output, err);
    var entered := cp.(schemaVersion := SCHEMA_VERSION, result := Entered(cp.result));
    assert next.pc.result == Moved(entered.result, to).(output := output);
  }

  lemma ConcludeKeepsSound(run: Run, base: Base, to: Status, output: string, err: Option<Err>)
    requires Sound(run, base) && !run.pc.AtWrite? && !run.pc.Halted?
    requires to == Failed || to == Cancelled ==> output == "" && err.Some?
    requires to == Completed ==> run.pc.ModelDone? && err.None?
    requires IsTerminal(to)
    ensures Sound(Conclude(run, to, output, err), base)
  {
    ConcludeIsSuccessor(run, base.cp, IsReserved(base), to, output, err);
  }

  /** The invariant survives every step, whatever the outside answers; an
      acknowledgement is possible only for a checkpoint the store accepts. */
  lemma AdvanceKeepsSound(run: Run, base: Base, input: Input)
    requires Sound(run, base) && Fits(run.pc, input)
    requires run.pc.AtWrite? && input.WriteAcked? ==> Tidy(Outgoing(run))
    ensures Sound(Advance(run, input), NextBase(run, base, input))
  {
    hide Successor, Tidy, Outgoing, Conclude, OnDecision, OnModelError, OnToolAnswer, AtLoopHead;
    if run.pc.AtWrite? {
      if input.WriteAcked? { AcknowledgeKeepsSound(run, base); }
    } else if run.pc.Waiting? {
      if input.WaitInterrupted? { ConcludeKeepsSound(run, base, Cancelled, "", Some(input.waitCause)); }
    } else if run.pc.LoopHead? {
      LoopHeadKeepsSound(run, base, input.ctx);
    } else if run.pc.ModelDone? {
      ModelAnswerKeepsSound(run, base, input.ctx);
    } else if run.pc.ToolDone? {
      ToolAnswerKeepsSound(run, base, input.ctx);
    } else if input.CtxRead? && input.ctx.Ended? {
      ConcludeKeepsSound(run, base, Cancelled, "", Some(input.ctx.cause));
    }
  }

  /** A reservation is a successor of the base. */
  lemma ReserveIsSuccessor(run: Run, cp: Checkpoint, reserved: bool)
    requires Holds(run, cp) && Tidy(cp) && run.exec.status == RunningModel && run.iterations < run.plan.maxSteps
    ensures var next := Persist(run.(iterations := run.iterations + 1), Reserve);
            Owns(next, cp) && Successor(Reserve, reserved, cp, Outgoing(next))
  {
  }

  lemma LoopHeadKeepsSound(run: Run, base: Base, ctx: Ctx)
    requires Sound(run, base) && run.pc.LoopHead?
    ensures Sound(AtLoopHead(run, ctx), base)
  {
    hide Conclude, Successor, Tidy, Outgoing;
    if ctx.Ended? {
      ConcludeKeepsSound(run, base, Cancelled, "", Some(ctx.cause));
    } else if run.iterations >= run.plan.maxSteps {
      ConcludeKeepsSound(run, base, Failed, "", Some(Sentinel(StepLimitExceeded, "harness step limit exceeded")));
    } else {
      ReserveIsSuccessor(run, base.cp, IsReserved(base));
    }
  }

  lemma ModelAnswerKeepsSound(run: Run, base: Base, ctx: Ctx)
    requires Sound(run, base) && run.pc.ModelDone?
    ensures Sound(Advance(run, CtxRead(ctx)), base)
  {
    if ctx.Ended? {
      ConcludeKeepsSound(run, base, Cancelled, "", Some(ctx.cause));
    } else if run.pc.model.ModelFailed? {
      var e := run.pc.model.modelErr;
      if !CanRetry(run, e) { ConcludeKeepsSound(run, base, Failed, "", Some(Wrap("model step", {}, e))); }
    } else {
      DecisionKeepsSound(run, base, run.pc.model.decision);
    }
  }

  lemma DecisionKeepsSound(run: Run, base: Base, d: Decision)
    requires Sound(run, base) && run.pc.ModelDone?
    ensures Sound(OnDecision(run, d), base)
  {
    if !ValidDecision(d) {
      ConcludeKeepsSound(run, base, Failed, "", Some(Sentinel(InvalidDecision, "invalid model decision")));
    } else if d.kind == Final {
      ConcludeKeepsSound(run, base, Completed, d.output, None);
    } else if d.call.id in StepIds(run.steps) {
      ConcludeKeepsSound(run, base, Failed, "", Some(Sentinel(DuplicateToolCall, "tool call ID already completed")));
    } else if !run.plan.hasTools {
      ConcludeKeepsSound(run, base, Failed, "", Some(Sentinel(ToolExecutorMissing, "tool executor is required")));
    }
  }

  lemma ToolAnswerKeepsSound(run: Run, base: Base, ctx: Ctx)
    requires Sound(run, base) && run.pc.ToolDone?
    ensures Sound(Advance(run, CtxRead(ctx)), base)
  {
    if ctx.Ended? {
      ConcludeKeepsSound(run, base, Cancelled, "", Some(ctx.cause));
    } else if run.pc.tool.ToolFailed? {
      ConcludeKeepsSound(run, base, Failed, "", Some(Wrap("execute tool", {}, run.pc.tool.toolErr)));
    } else {
      CompleteIsSuccessor(run, base.cp, IsReserved(base), run.pc.call, run.pc.tool.output);
    }
  }

  lemma CompleteIsSuccessor(run: Run, cp: Checkpoint, reserved: bool, call: ToolCall, output: string)
    requires Holds(run, cp) && cp.executionId == cp.request.executionId && cp.error == ""
    requires run.exec.status == RunningTool && run.pendingTool == Some(call)
    ensures var next := OnToolAnswer(run, call, ToolOutput(output));
            && next.pc == AtWrite(Complete, Snapshot(next, ""), None)
            && Owns(next, cp) && Successor(Complete, reserved, cp, Outgoing(next))
  {
    var next := OnToolAnswer(run, call, ToolOutput(output));
    var entered := cp.(schemaVersion := SCHEMA_VERSION);
    assert next.pc.result == Restored(entered, output).result;
    assert Outgoing(next) == Stamp(Restored(entered, output));
  }
}
