/** Values shared by the whole model: statuses and their transition rule, tool
    calls and steps, checkpoints, errors, execution contexts and callback answers. */
module Domain {

  datatype Option<+T> = None | Some(value: T)

  datatype Status = Created | RunningModel | RunningTool | Completed | Failed | Cancelled

  predicate IsTerminal(status: Status) {
    status == Completed || status == Failed || status == Cancelled
  }

  datatype Transition = Transition(from: Status, to: Status)

  predicate ValidTransition(from: Status, to: Status) {
    match from
    case Created => to == RunningModel
    case RunningModel => to == RunningTool || IsTerminal(to)
    case RunningTool => to == RunningModel || to == Failed || to == Cancelled
    case _ => false
  }

  /** The eight legal transitions. */
  lemma TransitionTable(from: Status, to: Status)
    ensures ValidTransition(from, to) <==>
            Transition(from, to) in {
              Transition(Created, RunningModel),
              Transition(RunningModel, RunningTool), Transition(RunningTool, RunningModel),
              Transition(RunningModel, Completed), Transition(RunningModel, Failed),
              Transition(RunningModel, Cancelled),
              Transition(RunningTool, Failed), Transition(RunningTool, Cancelled)
            }
    ensures IsTerminal(from) <==> forall next :: !ValidTransition(from, next)
  {
    if !IsTerminal(from) {
      assert ValidTransition(from, if from == RunningModel then RunningTool else RunningModel);
    }
  }

  datatype ToolCall = ToolCall(id: string, name: string, arguments: string)
  datatype ToolResult = ToolResult(callId: string, output: string)
  datatype Step = Step(index: int, call: ToolCall, result: ToolResult)

  datatype DecisionKind = Final | UseTool | OtherKind(tag: string)
  datatype Decision = Decision(kind: DecisionKind, output: string, call: ToolCall)

  predicate ValidCall(call: ToolCall) {
    call.id != "" && call.name != ""
  }

  predicate ValidDecision(d: Decision) {
    d.kind == Final || (d.kind == UseTool && ValidCall(d.call))
  }

  datatype Request = Request(executionId: string, prompt: string)

  datatype Result = Result(
    executionId: string,
    status: Status,
    output: string,
    steps: seq<Step>,
    transitions: seq<Transition>)

  const SCHEMA_VERSION := 3

  datatype Checkpoint = Checkpoint(
    schemaVersion: int,
    revision: nat,
    executionId: string,
    request: Request,
    maxSteps: int,
    modelIterations: int,
    maxModelRetries: int,
    modelRetries: int,
    result: Result,
    pendingTool: Option<ToolCall>,
    error: string)

  /** The sentinel errors that the source compares with `errors.Is`. */
  datatype Tag =
    | CtxCanceled | DeadlineExceeded | LeaseLost
    | ModelTimeout | ToolTimeout | ModelProvider | ModelResponse | ModelAdapterConfig
    | StepLimitExceeded | DuplicateToolCall | InvalidDecision | InvalidTransition
    | InvalidRequest | InvalidCheckpoint | ToolExecutorMissing | CheckpointStore
    | CheckpointConflict | ExecutionExists | ExecutionNotFound | ExecutionBusy
    | ExecutionFenced | LeaseRequired | RecoveryUnsupported | ExecutionTerminal
    | ToolOutcomeUnknown | ToolReconciliation | ToolReplay | ReplayUnsupported
    | McpInputRequired

  /** An error: the sentinels it wraps, the provider HTTP status that `errors.As`
      would find in it, and its text. */
  datatype Err = Err(tags: set<Tag>, http: Option<int>, text: string)

  function Sentinel(tag: Tag, text: string): Err {
    Err({tag}, None, text)
  }

  /** `fmt.Errorf("prefix: %w", e)`, also wrapping the sentinels in `tags`. */
  function Wrap(prefix: string, tags: set<Tag>, e: Err): Err {
    Err(tags + e.tags, e.http, prefix + ": " + e.text)
  }

  /** `errors.Join(cause, e)`. */
  function Join(cause: Option<Err>, e: Err): Err {
    match cause
    case None => e
    case Some(c) =>
      Err(c.tags + e.tags, if c.http.Some? then c.http else e.http, c.text + "\n" + e.text)
  }

  /** The execution context. It never goes back to Live. */
  datatype Ctx = Live | Ended(cause: Err)

  predicate LostLease(ctx: Ctx) {
    ctx.Ended? && LeaseLost in ctx.cause.tags
  }

  datatype ModelAnswer = Decided(decision: Decision) | ModelFailed(modelErr: Err)
  datatype ToolAnswer = ToolOutput(output: string) | ToolFailed(toolErr: Err)

  datatype OutcomeState = OutcomeUnknown | OutcomeCompleted | OutcomeOther(tag: string)
  datatype ReconcileAnswer =
    | Outcome(state: OutcomeState, output: string)
    | ReconcileFailed(reconcileErr: Err)

  /** The identifiers of the tool calls completed in `steps`. */
  function StepIds(steps: seq<Step>): set<string> {
    set i | 0 <= i < |steps| :: steps[i].call.id
  }

  /** Every tool call identifier a checkpoint records, completed or pending. */
  function RecordedIds(cp: Checkpoint): set<string> {
    StepIds(cp.result.steps) + (if cp.pendingTool.Some? then {cp.pendingTool.value.id} else {})
  }

  function PendingCount(pending: Option<ToolCall>): nat {
    if pending.Some? then 1 else 0
  }
}
