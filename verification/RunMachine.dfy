/** `Runtime.run` as a step machine. Between two interactions with the outside
    (a store write, a context reading, a model or tool callback, the retry wait)
    the loop is deterministic: `Demand` is the interaction a state waits for and
    `Advance` is what the loop does with its answer. A run without a store is the
    case in which every write is acknowledged. */
module RunMachine {
  import opened Domain
  import opened Checkpoints

  /** The six places where the runtime persists. */
  datatype WriteKind = Create | Reserve | Retry | Intent(call: ToolCall) | Complete | Finish

  datatype Pc =
    | AtWrite(kind: WriteKind, result: Result, cause: Option<Err>)
    | LoopHead
    | Reserved
    | InModel
    | ModelDone(model: ModelAnswer)
    | Waiting
    | Intended(call: ToolCall)
    | InTool(call: ToolCall)
    | ToolDone(call: ToolCall, tool: ToolAnswer)
    | Halted(final: Result, err: Option<Err>)

  /** What a run was started with; it never changes. */
  datatype Plan = Plan(request: Request, maxSteps: int, maxModelRetries: int, hasTools: bool)

  datatype Execution = Execution(status: Status, transitions: seq<Transition>)

  /** The variables of `run`. */
  datatype Run = Run(
    plan: Plan,
    iterations: int,
    modelRetries: int,
    steps: seq<Step>,
    exec: Execution,
    pendingTool: Option<ToolCall>,
    lastSaved: Result,
    pc: Pc)

  /** Answers from outside. The last four belong to recovery. */
  datatype Input =
    | CtxRead(ctx: Ctx)
    | WriteAcked
    | WriteFailed(writeErr: Err)
    | ModelReply(model: ModelAnswer)
    | WaitElapsed
    | WaitInterrupted(waitCause: Err)
    | ToolReply(tool: ToolAnswer)
    | Loaded(record: Checkpoint)
    | LoadFailed(loadErr: Err)
    | ReconcileReply(outcome: ReconcileAnswer)
    | ReplayReply(replay: ToolAnswer)

  datatype Effect =
    | Save(cp: Checkpoint, create: bool)
    | ReadContext
    | CallModel(prompt: string, steps: seq<Step>)
    | AwaitRetry
    | Execute(call: ToolCall)
    | LoadRecord(id: string)
    | Reconcile(call: ToolCall)
    | Replay(call: ToolCall)
    | NoEffect

  /******* Building blocks of `run` *******/

  function Snapshot(run: Run, output: string): Result {
    Result(run.plan.request.executionId, run.exec.status, output, run.steps, run.exec.transitions)
  }

  /** `execution.transition`, with its error ignored. */
  function Move(run: Run, to: Status): Run {
    if ValidTransition(run.exec.status, to)
    then run.(exec := Execution(to, run.exec.transitions + [Transition(run.exec.status, to)]))
    else run
  }

  /** Leaving the loop: a terminal outcome is persisted before it is returned. */
  function Conclude(run: Run, to: Status, output: string, err: Option<Err>): Run {
    var moved := Move(run, to);
    var result := Snapshot(moved, output);
    moved.(pc := if IsTerminal(result.status) then AtWrite(Finish, result, err) else Halted(result, err))
  }

  function Persist(run: Run, kind: WriteKind): Run {
    run.(pc := AtWrite(kind, Snapshot(run, ""), None))
  }

  /** A transition whose error is returned, followed by a write. */
  function MoveAndPersist(run: Run, to: Status, pending: Option<ToolCall>, kind: WriteKind): Run {
    if ValidTransition(run.exec.status, to) then Persist(Move(run, to).(pendingTool := pending), kind)
    else run.(pc := Halted(Snapshot(run, ""), Some(Sentinel(InvalidTransition, "invalid execution transition"))))
  }

  predicate IsTransient(e: Err) {
    if CtxCanceled in e.tags then false
    else if ModelTimeout in e.tags then true
    else if e.http.Some? then e.http.value in {408, 429, 500, 502, 503, 504}
    else ModelResponse !in e.tags && ModelProvider in e.tags
  }

  predicate CanRetry(run: Run, e: Err) {
    run.plan.maxModelRetries > run.modelRetries && run.iterations < run.plan.maxSteps && IsTransient(e)
  }

  /** `checkpoint.Revision = checkpointRevision(checkpoint)`; the uint64 conversion
      of a negative count never arises, because iteration counts start at zero. */
  function Stamp(cp: Checkpoint): Checkpoint {
    cp.(revision := if Revision(cp) >= 0 then Revision(cp) else 0)
  }

  /** The checkpoint that the `persist` closure builds. */
  function Outgoing(run: Run): Checkpoint
    requires run.pc.AtWrite?
  {
    Stamp(Checkpoint(SCHEMA_VERSION, 0, run.plan.request.executionId, run.plan.request, run.plan.maxSteps,
                     run.iterations, run.plan.maxModelRetries, run.modelRetries, run.pc.result, run.pendingTool,
                     if run.pc.cause.Some? then run.pc.cause.value.text else ""))
  }

  /******* The machine *******/

  /** Entering the loop: a created execution moves to running_model first. */
  function Enter(run: Run): Run {
    (if run.exec.status == Created then Move(run, RunningModel) else run).(pc := LoopHead)
  }

  /** `Run` before its first write. */
  function Begin(plan: Plan): Run {
    var initial := Result(plan.request.executionId, Created, "", [], []);
    Run(plan, 0, 0, [], Execution(Created, []), None, initial, AtWrite(Create, initial, None))
  }

  /** `run` entered from a loaded or restored checkpoint. */
  function Launch(cp: Checkpoint, hasTools: bool): Run {
    Enter(Run(Plan(cp.request, cp.maxSteps, cp.maxModelRetries, hasTools), cp.modelIterations, cp.modelRetries,
              cp.result.steps, Execution(cp.result.status, cp.result.transitions), None, cp.result, LoopHead))
  }

  function Demand(run: Run): Effect {
    match run.pc
    case AtWrite(kind, _, _) => Save(Outgoing(run), kind == Create)
    case InModel => CallModel(run.plan.request.prompt, run.steps)
    case Waiting => AwaitRetry
    case InTool(call) => Execute(call)
    case Halted(_, _) => NoEffect
    case _ => ReadContext
  }

  /** Which answers a waiting loop can get. */
  predicate Fits(pc: Pc, input: Input) {
    match pc
    case AtWrite(_, _, _) => input.WriteAcked? || input.WriteFailed?
    case InModel => input.ModelReply?
    case Waiting => input.WaitElapsed? || input.WaitInterrupted?
    case InTool(_) => input.ToolReply?
    case Halted(_, _) => false
    case _ => input.CtxRead?
  }

  function Advance(run: Run, input: Input): Run
    requires Fits(run.pc, input)
  {
    match run.pc
    case AtWrite(_, _, _) => if input.WriteAcked? then Acknowledge(run) else Abandon(run, input.writeErr)
    case LoopHead => AtLoopHead(run, input.ctx)
    case Reserved => if input.ctx.Ended? then Cancel(run, input.ctx.cause) else run.(pc := InModel)
    case InModel => run.(pc := ModelDone(input.model))
    case ModelDone(answer) =>
      if input.ctx.Ended? then Cancel(run, input.ctx.cause)
      else if answer.Decided? then OnDecision(run, answer.decision) else OnModelError(run, answer.modelErr)
    case Waiting => if input.WaitElapsed? then run.(pc := LoopHead) else Cancel(run, input.waitCause)
    case Intended(call) => if input.ctx.Ended? then Cancel(run, input.ctx.cause) else run.(pc := InTool(call))
    case InTool(call) => run.(pc := ToolDone(call, input.tool))
    case ToolDone(call, answer) =>
      if input.ctx.Ended? then Cancel(run, input.ctx.cause) else OnToolAnswer(run, call, answer)
  }

  function Cancel(run: Run, cause: Err): Run {
    Conclude(run, Cancelled, "", Some(cause))
  }

  function Fail(run: Run, err: Err): Run {
    Conclude(run, Failed, "", Some(err))
  }

  function Acknowledge(run: Run): Run
    requires run.pc.AtWrite?
  {
    var saved := run.(lastSaved := run.pc.result);
    match run.pc.kind
    case Create => Enter(saved)
    case Reserve => saved.(pc := Reserved)
    case Retry => saved.(pc := Waiting)
    case Intent(call) => saved.(pc := Intended(call))
    case Complete => saved.(pc := LoopHead)
    case Finish => saved.(pc := Halted(run.pc.result, run.pc.cause))
  }

  /** Any write error ends the run with the last acknowledged result. */
  function Abandon(run: Run, e: Err): Run
    requires run.pc.AtWrite?
  {
    var wrapped := Wrap("checkpoint store failed", {CheckpointStore}, e);
    run.(pc := Halted(run.lastSaved, Some(if run.pc.kind == Finish then Join(run.pc.cause, wrapped) else wrapped)))
  }

  function AtLoopHead(run: Run, ctx: Ctx): Run {
    if ctx.Ended? then Cancel(run, ctx.cause)
    else if run.iterations < run.plan.maxSteps then Persist(run.(iterations := run.iterations + 1), Reserve)
    else Fail(run, Sentinel(StepLimitExceeded, "harness step limit exceeded"))
  }

  function OnModelError(run: Run, e: Err): Run {
    if CanRetry(run, e) then Persist(run.(modelRetries := run.modelRetries + 1), Retry)
    else Fail(run, Wrap("model step", {}, e))
  }

  function OnDecision(run: Run, d: Decision): Run {
    if !ValidDecision(d) then Fail(run, Sentinel(InvalidDecision, "invalid model decision"))
    else if d.kind == Final then Conclude(run, Completed, d.output, None)
    else if d.call.id in StepIds(run.steps) then
      Fail(run, Sentinel(DuplicateToolCall, "tool call ID already completed"))
    else if !run.plan.hasTools then Fail(run, Sentinel(ToolExecutorMissing, "tool executor is required"))
    else MoveAndPersist(run, RunningTool, Some(d.call), Intent(d.call))
  }

  function OnToolAnswer(run: Run, call: ToolCall, answer: ToolAnswer): Run {
    if answer.ToolFailed? then Fail(run, Wrap("execute tool", {}, answer.toolErr))
    else
      var step := NewStep(run.steps, call, answer.output);
      MoveAndPersist(run.(steps := run.steps + [step]), RunningModel, None, Complete)
  }

  function NewStep(steps: seq<Step>, call: ToolCall, output: string): Step {
    Step(|steps| + 1, call, ToolResult(call.id, output))
  }

  /** The run after a sequence of answers; None when one does not fit in its turn. */
  function AdvanceAll(run: Run, inputs: seq<Input>): Option<Run>
    decreases |inputs|
  {
    if inputs == [] then Some(run)
    else if !Fits(run.pc, inputs[0]) then None
    else AdvanceAll(Advance(run, inputs[0]), inputs[1..])
  }

  /** At a write, or returned: what all of the loop's own work comes to. */
  predicate Parked(run: Run) {
    run.pc.AtWrite? || run.pc.Halted?
  }

  lemma ConcludeParks(run: Run, to: Status, output: string, err: Option<Err>)
    ensures Parked(Conclude(run, to, output, err))
  {
  }

  lemma DecisionParks(run: Run, d: Decision)
    ensures Parked(OnDecision(run, d))
  {
    hide StepIds, ValidDecision;
  }

  lemma ModelErrorParks(run: Run, e: Err)
    ensures Parked(OnModelError(run, e))
  {
    hide IsTransient;
  }

  lemma ToolAnswerParks(run: Run, call: ToolCall, answer: ToolAnswer)
    ensures Parked(OnToolAnswer(run, call, answer))
  {
  }

  lemma LoopHeadParks(run: Run, ctx: Ctx)
    ensures Parked(AtLoopHead(run, ctx))
  {
  }

  /** Request and budgets never change. */
  lemma ConstantsKept(run: Run, input: Input)
    requires Fits(run.pc, input)
    ensures Advance(run, input).plan == run.plan
  {
  }
}
