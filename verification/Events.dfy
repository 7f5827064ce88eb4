/** The events a run shows its observer, step by step of the machine. */
module Events {
  import opened Domain
  import opened RunMachine
  import opened Recovery

  datatype EventType =
    | ExecutionStarted | ModelStarted | ModelCompleted | ToolStarted | ToolCompleted
    | ExecutionCompleted | ExecutionFailed | ExecutionCancelled
    | UnknownEvent(name: string)

  datatype Event = Event(
    kind: EventType,
    executionId: string,
    status: Status,
    modelAttempt: int,
    toolCallId: string,
    toolName: string,
    error: Option<Err>)

  function StartedEvent(run: Run): Event {
    Event(ExecutionStarted, run.plan.request.executionId, Created, 0, "", "", None)
  }

  function ModelEvent(run: Run, kind: EventType, error: Option<Err>): Event {
    Event(kind, run.plan.request.executionId, RunningModel, run.iterations, "", "", error)
  }

  function ToolEvent(run: Run, kind: EventType, call: ToolCall, error: Option<Err>): Event {
    Event(kind, run.plan.request.executionId, RunningTool, run.iterations, call.id, call.name, error)
  }

  /** `terminalEventType`; None when the status is not terminal. */
  function TerminalEventType(status: Status): Option<EventType> {
    match status
    case Completed => Some(ExecutionCompleted)
    case Failed => Some(ExecutionFailed)
    case Cancelled => Some(ExecutionCancelled)
    case _ => None
  }

  /** The last deferred handler of `run`. */
  function TerminalEvents(id: string, attempt: int, result: Result, err: Option<Err>): seq<Event> {
    var kind := TerminalEventType(result.status);
    if kind.None? then []
    else [Event(kind.value, id, result.status, attempt, "", "", err)]
  }

  /** What one answer makes the run emit before it waits again. */
  function Emits(run: Run, input: Input): seq<Event>
    requires Fits(run.pc, input)
  {
    var next := Advance(run, input);
    (match run.pc
     case AtWrite(kind, _, _) => if kind == Create && input.WriteAcked? then [StartedEvent(run)] else []
     case Reserved => if next.pc.InModel? then [ModelEvent(run, ModelStarted, None)] else []
     case InModel =>
       [ModelEvent(run, ModelCompleted, if input.model.ModelFailed? then Some(input.model.modelErr) else None)]
     case Intended(call) => if next.pc.InTool? then [ToolEvent(run, ToolStarted, call, None)] else []
     case InTool(call) =>
       [ToolEvent(run, ToolCompleted, call, if input.tool.ToolFailed? then Some(input.tool.toolErr) else None)]
     case _ => [])
    + (if next.pc.Halted?
       then TerminalEvents(next.plan.request.executionId, next.iterations, next.pc.final, next.pc.err)
       else [])
  }

  /** Recovery itself emits nothing. */
  function ProcessEmits(p: Process, input: Input): seq<Event>
    requires Accepts(p, input)
  {
    if p.Executing? then Emits(p.run, input) else []
  }
}
