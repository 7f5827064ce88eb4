/** `run` and `Resume` as the source writes them, a loop over mutable variables,
    proved to make exactly the interactions of the step machine, in its order, and to
    return its result. */
module Runtime {
  import opened Domain
  import opened Checkpoints
  import opened RunMachine
  import opened RunInvariant
  import opened Recovery
  import opened Events

  predicate FitsEffect(effect: Effect, input: Input) {
    match effect
    case Save(_, _) => input.WriteAcked? || input.WriteFailed?
    case ReadContext => input.CtxRead?
    case CallModel(_, _) => input.ModelReply?
    case AwaitRetry => input.WaitElapsed? || input.WaitInterrupted?
    case Execute(_) => input.ToolReply?
    case LoadRecord(_) => input.Loaded? || input.LoadFailed?
    case Reconcile(_) => input.ReconcileReply?
    case Replay(_) => input.ReplayReply?
    case NoEffect => false
  }

  lemma DemandedAnswersFit(p: Process, input: Input)
    requires FitsEffect(ResumeDemand(p), input)
    ensures Accepts(p, input)
  {
    hide Outgoing, Stamp, Restored;
  }

  /** Everything outside a run: store, context, clock, model and tools. `script` holds
      the answers to come; `state` is the machine that watches every interaction. */
  class Environment {
    const cfg: Config
    var script: seq<Input>
    var ctx: Ctx
    var events: seq<Event>
    ghost var state: Process
    ghost var expected: seq<Event>

    constructor (cfg: Config, script: seq<Input>, ghost state: Process)
      ensures this.cfg == cfg && this.script == script && this.ctx == Live && this.events == []
      ensures this.state == state && expected == []
    {
      this.cfg, this.script, this.ctx, this.events := cfg, script, Live, [];
      this.state, expected := state, [];
    }

    /** One interaction. It must be the one the machine waits for. The context never
        comes back to life, and a lost lease refuses every write. */
    method Ask(effect: Effect) returns (answer: Input)
      requires ResumeDemand(state) == effect != NoEffect
      modifies this`script, this`ctx, this`state, this`expected
      ensures FitsEffect(effect, answer) && Accepts(old(state), answer)
      ensures state == Proceed(cfg, old(state), answer)
      ensures expected == old(expected) + ProcessEmits(old(state), answer)
      ensures old(ctx).Ended? ==> ctx == old(ctx)
      ensures answer.CtxRead? ==> answer.ctx == ctx
      ensures answer.WaitInterrupted? ==> ctx == Ended(answer.waitCause)
      ensures effect.Save? && LostLease(old(ctx)) ==> answer.WriteFailed?
    {
      answer := Default(effect, ctx);
      if script != [] {
        var scripted := script[0];
        script := script[1..];
        if FitsEffect(effect, scripted) {
          if scripted.CtxRead? {
            ctx := if ctx.Ended? then ctx else scripted.ctx;
            answer := CtxRead(ctx);
          } else if scripted.WaitInterrupted? {
            ctx := if ctx.Ended? then ctx else Ended(scripted.waitCause);
            answer := WaitInterrupted(ctx.cause);
          } else if !(effect.Save? && LostLease(ctx)) {
            answer := scripted;
          }
        }
      }
      DemandedAnswersFit(state, answer);
      expected := expected + ProcessEmits(state, answer);
      state := Proceed(cfg, state, answer);
    }

    method Observe(event: Event)
      modifies this`events
      ensures events == old(events) + [event]
    {
      events := events + [event];
    }
  }

  /** An answer that is always possible. */
  function Default(effect: Effect, ctx: Ctx): (answer: Input)
    requires effect != NoEffect
    ensures FitsEffect(effect, answer)
    ensures answer.CtxRead? ==> answer.ctx == ctx
    ensures !answer.WaitInterrupted? && !answer.WriteAcked?
  {
    var unavailable := Sentinel(CheckpointStore, "unavailable");
    match effect
    case Save(_, _) => WriteFailed(unavailable)
    case ReadContext => CtxRead(ctx)
    case CallModel(_, _) => ModelReply(ModelFailed(unavailable))
    case AwaitRetry => WaitElapsed
    case Execute(_) => ToolReply(ToolFailed(unavailable))
    case LoadRecord(_) => LoadFailed(unavailable)
    case Reconcile(_) => ReconcileReply(ReconcileFailed(unavailable))
    case Replay(_) => ReplayReply(ToolFailed(unavailable))
  }

  /** The events that follow an acknowledged write. */
  function AckEvents(run: Run): seq<Event>
    requires run.pc.AtWrite?
  {
    if run.pc.kind == Create then [StartedEvent(run)]
    else if run.pc.kind == Finish
    then TerminalEvents(run.plan.request.executionId, run.iterations, run.pc.result, run.pc.cause)
    else []
  }

  lemma WriteAnswers(cfg: Config, run: Run, input: Input)
    requires run.pc.AtWrite? && Fits(run.pc, input)
    ensures input.WriteAcked? ==>
              && Proceed(cfg, Executing(run), input) == Settle(Acknowledge(run))
              && ProcessEmits(Executing(run), input) == AckEvents(run)
    ensures input.WriteFailed? ==>
              && var final := Abandon(run, input.writeErr).pc;
              && Proceed(cfg, Executing(run), input) == Stopped(Some(run.lastSaved), final.err)
              && ProcessEmits(Executing(run), input) ==
                 TerminalEvents(run.plan.request.executionId, run.iterations, run.lastSaved, final.err)
  {
    hide TerminalEventType;
  }

  /** What the machine does with the context reading before a model call. */
  lemma ReservedAnswer(cfg: Config, run: Run, ctx: Ctx)
    requires run.pc.Reserved? && run.exec.status == RunningModel
    ensures Proceed(cfg, Executing(run), CtxRead(ctx)) ==
            Executing(if ctx.Ended? then Conclude(run, Cancelled, "", Some(ctx.cause)) else run.(pc := InModel))
    ensures ProcessEmits(Executing(run), CtxRead(ctx)) ==
            if ctx.Ended? then [] else [ModelEvent(run, ModelStarted, None)]
  {
  }

  /** What it does with the context reading before a tool call. */
  lemma IntendedAnswer(cfg: Config, run: Run, call: ToolCall, ctx: Ctx)
    requires run.pc == Intended(call) && run.exec.status == RunningTool
    ensures Proceed(cfg, Executing(run), CtxRead(ctx)) ==
            Executing(if ctx.Ended? then Conclude(run, Cancelled, "", Some(ctx.cause)) else run.(pc := InTool(call)))
    ensures ProcessEmits(Executing(run), CtxRead(ctx)) ==
            if ctx.Ended? then [] else [ToolEvent(run, ToolStarted, call, None)]
  {
  }

  /** What it does with the answer of a callback. */
  lemma CallbackAnswers(cfg: Config, run: Run, model: ModelAnswer, tool: ToolAnswer)
    ensures run.pc.InModel? ==>
              && Proceed(cfg, Executing(run), ModelReply(model)) == Executing(run.(pc := ModelDone(model)))
              && ProcessEmits(Executing(run), ModelReply(model)) ==
                 [ModelEvent(run, ModelCompleted, if model.ModelFailed? then Some(model.modelErr) else None)]
    ensures run.pc.InTool? ==>
              && Proceed(cfg, Executing(run), ToolReply(tool)) == Executing(run.(pc := ToolDone(run.pc.call, tool)))
              && ProcessEmits(Executing(run), ToolReply(tool)) ==
                 [ToolEvent(run, ToolCompleted, run.pc.call, if tool.ToolFailed? then Some(tool.toolErr) else None)]
  {
  }

  /** What it does with the context reading after a model call. */
  lemma ModelDoneAnswer(cfg: Config, run: Run, ctx: Ctx)
    requires run.pc.ModelDone? && run.exec.status == RunningModel
    ensures Proceed(cfg, Executing(run), CtxRead(ctx)) ==
            Executing(if ctx.Ended? then Conclude(run, Cancelled, "", Some(ctx.cause))
                      else if run.pc.model.ModelFailed? then RunMachine.OnModelError(run, run.pc.model.modelErr)
                      else RunMachine.OnDecision(run, run.pc.model.decision))
    ensures ProcessEmits(Executing(run), CtxRead(ctx)) == []
  {
    hide StepIds, ValidDecision, IsTransient;
  }

  /** What it does with the context reading after a tool call. */
  lemma ToolDoneAnswer(cfg: Config, run: Run, ctx: Ctx)
    requires run.pc.ToolDone? && run.exec.status == RunningTool
    ensures Proceed(cfg, Executing(run), CtxRead(ctx)) ==
            Executing(if ctx.Ended? then Conclude(run, Cancelled, "", Some(ctx.cause))
                      else RunMachine.OnToolAnswer(run, run.pc.call, run.pc.tool))
    ensures ProcessEmits(Executing(run), CtxRead(ctx)) == []
  {
  }

  /** What one pass of the loop does next. */
  datatype Flow = Continue | Return(result: Result, err: Option<Err>)

  /** The variables that `run` and its closures share. */
  class Activation {
    const plan: Plan
    var iterations: int
    var modelRetries: int
    var steps: seq<Step>
    var status: Status
    var transitions: seq<Transition>
    var pendingTool: Option<ToolCall>
    var lastSaved: Result
    var storeFailed: bool

    constructor (initial: Checkpoint, hasTools: bool)
      ensures plan == Plan(initial.request, initial.maxSteps, initial.maxModelRetries, hasTools)
      ensures At(LoopHead) == Run(plan, initial.modelIterations, initial.modelRetries, initial.result.steps,
                                  Execution(initial.result.status, initial.result.transitions), None,
                                  initial.result, LoopHead)
      ensures !storeFailed
    {
      plan := Plan(initial.request, initial.maxSteps, initial.maxModelRetries, hasTools);
      iterations, modelRetries := initial.modelIterations, initial.modelRetries;
      steps, status, transitions := initial.result.steps, initial.result.status, initial.result.transitions;
      pendingTool, lastSaved, storeFailed := None, initial.result, false;
    }

    /** These variables as the machine's state at `pc`. */
    ghost function At(pc: Pc): Run
      reads this
    {
      Run(plan, iterations, modelRetries, steps, Execution(status, transitions), pendingTool, lastSaved, pc)
    }

    function Snapshot(output: string): Result
      reads this
    {
      Result(plan.request.executionId, status, output, steps, transitions)
    }

    /** `execution.transition`. */
    method Transition(to: Status) returns (ok: bool)
      modifies this`status, this`transitions
      ensures ok == ValidTransition(old(status), to)
      ensures forall pc :: At(pc) == Move(old(At(pc)), to)
    {
      ok := ValidTransition(status, to);
      if ok {
        transitions := transitions + [Domain.Transition(status, to)];
        status := to;
      }
    }

    /** The `persist` closure: the write the machine asks for, then the bookkeeping. */
    method Persist(env: Environment, current: Result, cause: Option<Err>, create: bool, ghost kind: WriteKind)
      returns (failure: Option<Err>)
      requires create == (kind == Create)
      requires env.state == Executing(At(AtWrite(kind, current, cause)))
      modifies this`lastSaved, this`storeFailed, env`script, env`ctx, env`state, env`expected
      ensures failure.None? ==>
                && At(Waiting) == old(At(Waiting)).(lastSaved := current) && storeFailed == old(storeFailed)
                && env.state == Settle(Acknowledge(old(At(AtWrite(kind, current, cause)))))
                && env.expected == old(env.expected) + AckEvents(old(At(AtWrite(kind, current, cause))))
      ensures failure.Some? ==>
                && At(Waiting) == old(At(Waiting)) && storeFailed
                && var returned := if kind == Finish then Join(cause, failure.value) else failure.value;
                && env.state == Stopped(Some(lastSaved), Some(returned))
                && env.expected == old(env.expected)
                   + TerminalEvents(plan.request.executionId, iterations, lastSaved, Some(returned))
    {
      hide Proceed, ProcessEmits, TerminalEvents, AckEvents, Settle, Acknowledge;
      var cp := Checkpoint(SCHEMA_VERSION, 0, plan.request.executionId, plan.request, plan.maxSteps, iterations,
                           plan.maxModelRetries, modelRetries, current, pendingTool,
                           if cause.Some? then cause.value.text else "");
      var revision := CheckpointRevision(cp);
      cp := cp.(revision := if revision >= 0 then revision else 0);
      ghost var before := At(AtWrite(kind, current, cause));
      assert cp == Outgoing(before);
      var answer := env.Ask(Save(cp, create));
      WriteAnswers(env.cfg, before, answer);
      if answer.WriteFailed? {
        storeFailed := true;
        return Some(Wrap("checkpoint store failed", {CheckpointStore}, answer.writeErr));
      }
      lastSaved := current;
      return None;
    }

    /** The loop goes on, has a terminal result to persist, or a write has failed and the
        machine has returned the last acknowledged result. */
    ghost predicate Flows(env: Environment, flow: Flow)
      reads this, env
    {
      match flow
      case Continue =>
        !storeFailed && status == RunningModel && env.state == Executing(At(LoopHead)) && env.expected == env.events
      case Return(result, err) =>
        if storeFailed then
          && result == lastSaved && env.state == Stopped(Some(result), err)
          && env.expected == env.events + TerminalEvents(plan.request.executionId, iterations, result, err)
        else
          && IsTerminal(result.status) && env.expected == env.events
          && env.state == Executing(At(AtWrite(Finish, result, err)))
    }

    /** Leave the loop with a terminal status. */
    method Leave(env: Environment, to: Status, output: string, err: Option<Err>, ghost pc: Pc) returns (flow: Flow)
      requires !storeFailed && IsTerminal(to) && ValidTransition(status, to)
      requires env.state == Executing(Conclude(At(pc), to, output, err)) && env.expected == env.events
      modifies this`status, this`transitions
      ensures Flows(env, flow)
    {
      var _ := Transition(to);
      flow := Return(Snapshot(output), err);
    }

    /** A model error under a live context: retry while both budgets last, else fail. */
    method OnModelError(env: Environment, e: Err, ghost pc: Pc) returns (flow: Flow)
      requires !storeFailed && status == RunningModel && env.expected == env.events
      requires env.state == Executing(RunMachine.OnModelError(At(pc), e))
      modifies this`modelRetries, this`steps, this`status, this`transitions, this`pendingTool, this`lastSaved,
               this`storeFailed, env
      ensures Flows(env, flow)
    {
      if plan.maxModelRetries > modelRetries && iterations < plan.maxSteps && IsTransient(e) {
        modelRetries := modelRetries + 1;
        var failure := Persist(env, Snapshot(""), None, false, Retry);
        if failure.Some? { return Return(lastSaved, failure); }
        flow := WaitToRetry(env);
      } else {
        flow := Leave(env, Failed, "", Some(Wrap("model step", {}, e)), pc);
      }
    }

    /** `waitModelRetry`, which only the end of the context can interrupt. */
    method WaitToRetry(env: Environment) returns (flow: Flow)
      requires !storeFailed && status == RunningModel && env.expected == env.events
      requires env.state == Executing(At(Waiting))
      modifies this`modelRetries, this`steps, this`status, this`transitions, this`pendingTool, this`lastSaved,
               this`storeFailed, env
      ensures Flows(env, flow)
    {
      var waited := env.Ask(AwaitRetry);
      if waited.WaitInterrupted? {
        flow := Leave(env, Cancelled, "", Some(waited.waitCause), Waiting);
      } else {
        flow := Continue;
      }
    }

    /** Has this call identifier already been completed? */
    method AlreadyCompleted(id: string) returns (found: bool)
      ensures found == (id in StepIds(steps))
    {
      for i := 0 to |steps|
        invariant forall k | 0 <= k < i :: steps[k].call.id != id
      {
        if steps[i].call.id == id { return true; }
      }
      return false;
    }

    /** A decision under a live context. */
    method OnDecision(env: Environment, d: Decision, ghost pc: Pc) returns (flow: Flow)
      requires !storeFailed && status == RunningModel && env.expected == env.events
      requires env.state == Executing(RunMachine.OnDecision(At(pc), d))
      modifies this`modelRetries, this`steps, this`status, this`transitions, this`pendingTool, this`lastSaved,
               this`storeFailed, env
      ensures Flows(env, flow)
    {
      if !ValidDecision(d) {
        flow := Leave(env, Failed, "", Some(Sentinel(InvalidDecision, "invalid model decision")), pc);
      } else if d.kind == Final {
        flow := Leave(env, Completed, d.output, None, pc);
      } else {
        var duplicate := AlreadyCompleted(d.call.id);
        if duplicate {
          flow := Leave(env, Failed, "", Some(Sentinel(DuplicateToolCall, "tool call ID already completed")), pc);
        } else if !plan.hasTools {
          flow := Leave(env, Failed, "", Some(Sentinel(ToolExecutorMissing, "tool executor is required")), pc);
        } else {
          flow := UseTool(env, d.call, pc);
        }
      }
    }

    /** Announce a tool call durably, then make it. */
    method UseTool(env: Environment, call: ToolCall, ghost pc: Pc) returns (flow: Flow)
      requires !storeFailed && status == RunningModel && env.expected == env.events
      requires env.state == Executing(MoveAndPersist(At(pc), RunningTool, Some(call), Intent(call)))
      modifies this`modelRetries, this`steps, this`status, this`transitions, this`pendingTool, this`lastSaved,
               this`storeFailed, env
      ensures Flows(env, flow)
    {
      var _ := Transition(RunningTool);
      pendingTool := Some(call);
      var failure := Persist(env, Snapshot(""), None, false, Intent(call));
      if failure.Some? { return Return(lastSaved, failure); }
      flow := MakeCall(env, call);
    }

    method MakeCall(env: Environment, call: ToolCall) returns (flow: Flow)
      requires !storeFailed && status == RunningTool && env.expected == env.events
      requires env.state == Executing(At(Intended(call)))
      modifies this`modelRetries, this`steps, this`status, this`transitions, this`pendingTool, this`lastSaved,
               this`storeFailed, env
      ensures Flows(env, flow)
    {
      hide Proceed, ProcessEmits, TerminalEvents, Conclude;
      var reading := env.Ask(ReadContext);
      IntendedAnswer(env.cfg, At(Intended(call)), call, reading.ctx);
      if reading.ctx.Ended? {
        flow := Leave(env, Cancelled, "", Some(reading.ctx.cause), Intended(call));
        return;
      }
      env.Observe(Event(ToolStarted, plan.request.executionId, RunningTool, iterations, call.id, call.name, None));
      var answer := env.Ask(Execute(call));
      ghost var anyReply := ModelFailed(Sentinel(ModelProvider, ""));
      CallbackAnswers(env.cfg, At(InTool(call)), anyReply, answer.tool);
      env.Observe(Event(ToolCompleted, plan.request.executionId, RunningTool, iterations, call.id, call.name,
                        if answer.tool.ToolFailed? then Some(answer.tool.toolErr) else None));
      flow := OnToolAnswer(env, call, answer.tool);
    }

    method OnToolAnswer(env: Environment, call: ToolCall, answer: ToolAnswer) returns (flow: Flow)
      requires !storeFailed && status == RunningTool && env.expected == env.events
      requires env.state == Executing(At(ToolDone(call, answer)))
      modifies this`modelRetries, this`steps, this`status, this`transitions, this`pendingTool, this`lastSaved,
               this`storeFailed, env
      ensures Flows(env, flow)
    {
      hide Proceed, ProcessEmits, TerminalEvents, Conclude;
      ghost var pc := ToolDone(call, answer);
      var reading := env.Ask(ReadContext);
      ToolDoneAnswer(env.cfg, At(pc), reading.ctx);
      if reading.ctx.Ended? {
        flow := Leave(env, Cancelled, "", Some(reading.ctx.cause), pc);
      } else if answer.ToolFailed? {
        flow := Leave(env, Failed, "", Some(Wrap("execute tool", {}, answer.toolErr)), pc);
      } else {
        flow := RecordStep(env, call, answer.output, pc);
      }
    }

    method RecordStep(env: Environment, call: ToolCall, output: string, ghost pc: Pc) returns (flow: Flow)
      requires !storeFailed && status == RunningTool && env.expected == env.events
      requires env.state == Executing(RunMachine.OnToolAnswer(At(pc), call, ToolOutput(output)))
      modifies this`modelRetries, this`steps, this`status, this`transitions, this`pendingTool, this`lastSaved,
               this`storeFailed, env
      ensures Flows(env, flow)
    {
      hide Proceed, ProcessEmits, TerminalEvents, Outgoing, Stamp, ResumeDemand, Emits, Advance;
      steps := steps + [NewStep(steps, call, output)];
      ghost var grown := At(pc);
      var _ := Transition(RunningModel);
      assert At(pc) == Move(grown, RunningModel);
      pendingTool := None;
      flow := SaveStep(env);
    }

    method SaveStep(env: Environment) returns (flow: Flow)
      requires !storeFailed && status == RunningModel && env.expected == env.events
      requires env.state == Executing(RunMachine.Persist(At(LoopHead), Complete))
      modifies this`modelRetries, this`steps, this`status, this`transitions, this`pendingTool, this`lastSaved,
               this`storeFailed, env
      ensures Flows(env, flow)
    {
      var failure := Persist(env, Snapshot(""), None, false, Complete);
      if failure.Some? { return Return(lastSaved, failure); }
      flow := Continue;
    }

    /** One model attempt: reserve it durably, call the model, act on its answer. */
    method Attempt(env: Environment) returns (flow: Flow)
      requires !storeFailed && status == RunningModel && env.expected == env.events
      requires iterations < plan.maxSteps && env.state == Executing(At(LoopHead))
      modifies this, env
      ensures Flows(env, flow)
      ensures flow.Continue? ==> iterations == old(iterations) + 1
    {
      var reading := env.Ask(ReadContext);
      if reading.ctx.Ended? {
        flow := Leave(env, Cancelled, "", Some(reading.ctx.cause), LoopHead);
      } else {
        iterations := iterations + 1;
        flow := ReserveAndCall(env);
      }
    }

    /** A crash in the model callback consumes the iteration reserved here. */
    method ReserveAndCall(env: Environment) returns (flow: Flow)
      requires !storeFailed && status == RunningModel && env.expected == env.events
      requires env.state == Executing(RunMachine.Persist(At(LoopHead), Reserve))
      modifies this`modelRetries, this`steps, this`status, this`transitions, this`pendingTool, this`lastSaved,
               this`storeFailed, env
      ensures Flows(env, flow)
    {
      var failure := Persist(env, Snapshot(""), None, false, Reserve);
      if failure.Some? { return Return(lastSaved, failure); }
      flow := CallTheModel(env);
    }

    method CallTheModel(env: Environment) returns (flow: Flow)
      requires !storeFailed && status == RunningModel && env.expected == env.events
      requires env.state == Executing(At(Reserved))
      modifies this`modelRetries, this`steps, this`status, this`transitions, this`pendingTool, this`lastSaved,
               this`storeFailed, env
      ensures Flows(env, flow)
    {
      hide Proceed, ProcessEmits, TerminalEvents, Conclude;
      var reading := env.Ask(ReadContext);
      ReservedAnswer(env.cfg, At(Reserved), reading.ctx);
      if reading.ctx.Ended? {
        flow := Leave(env, Cancelled, "", Some(reading.ctx.cause), Reserved);
        return;
      }
      env.Observe(Event(ModelStarted, plan.request.executionId, RunningModel, iterations, "", "", None));
      var answer := env.Ask(CallModel(plan.request.prompt, steps));
      CallbackAnswers(env.cfg, At(InModel), answer.model, ToolOutput(""));
      env.Observe(Event(ModelCompleted, plan.request.executionId, RunningModel, iterations, "", "",
                        if answer.model.ModelFailed? then Some(answer.model.modelErr) else None));
      flow := OnModelAnswer(env, answer.model);
    }

    method OnModelAnswer(env: Environment, answer: ModelAnswer) returns (flow: Flow)
      requires !storeFailed && status == RunningModel && env.expected == env.events
      requires env.state == Executing(At(ModelDone(answer)))
      modifies this`modelRetries, this`steps, this`status, this`transitions, this`pendingTool, this`lastSaved,
               this`storeFailed, env
      ensures Flows(env, flow)
    {
      hide Proceed, ProcessEmits, TerminalEvents, Conclude, RunMachine.OnModelError, RunMachine.OnDecision;
      ghost var pc := ModelDone(answer);
      var reading := env.Ask(ReadContext);
      ModelDoneAnswer(env.cfg, At(pc), reading.ctx);
      if reading.ctx.Ended? {
        flow := Leave(env, Cancelled, "", Some(reading.ctx.cause), pc);
      } else if answer.ModelFailed? {
        flow := OnModelError(env, answer.modelErr, pc);
      } else {
        flow := OnDecision(env, answer.decision, pc);
      }
    }

    /** The loop of `run`, until it has a result. */
    method Loop(env: Environment) returns (result: Result, err: Option<Err>)
      requires Flows(env, Continue)
      modifies this, env
      ensures Flows(env, Return(result, err))
    {
      var flow := Continue;
      while flow.Continue? && iterations < plan.maxSteps
        invariant Flows(env, flow)
        decreases flow.Continue?, plan.maxSteps - iterations
      {
        flow := Attempt(env);
      }
      if flow.Continue? {
        flow := AfterBudget(env);
      }
      return flow.result, flow.err;
    }

    /** The iteration budget is used up; cancellation still comes first. */
    method AfterBudget(env: Environment) returns (flow: Flow)
      requires Flows(env, Continue) && iterations >= plan.maxSteps
      modifies this, env
      ensures Flows(env, flow) && flow.Return?
    {
      var reading := env.Ask(ReadContext);
      if reading.ctx.Ended? {
        flow := Leave(env, Cancelled, "", Some(reading.ctx.cause), LoopHead);
      } else {
        flow := Leave(env, Failed, "", Some(Sentinel(StepLimitExceeded, "harness step limit exceeded")), LoopHead);
      }
    }

    /** The two deferred handlers: persist a terminal outcome, then announce it. */
    method Deferred(env: Environment, outcome: Result, cause: Option<Err>) returns (result: Result, err: Option<Err>)
      requires Flows(env, Return(outcome, cause))
      modifies this, env
      ensures env.state == Stopped(Some(result), err) && env.events == env.expected && result == lastSaved
    {
      result, err := outcome, cause;
      if !storeFailed {
        var failure := Persist(env, outcome, cause, false, Finish);
        if failure.Some? {
          result, err := lastSaved, Some(Join(cause, failure.value));
        }
      }
      var kind := TerminalEventType(result.status);
      if kind.Some? {
        env.Observe(Event(kind.value, plan.request.executionId, result.status, iterations, "", "", err));
      }
    }

    /** `run`: every interaction is the machine's, in its order; the result is the last
        acknowledged one, and the observer saw exactly the machine's events. */
    method RunToEnd(env: Environment, create: bool) returns (result: Result, err: Option<Err>)
      requires !storeFailed && env.expected == env.events
      requires create ==>
                 env.state == Executing(At(AtWrite(Create, lastSaved, None))) && status == lastSaved.status == Created
      requires !create ==> env.state == Executing(Enter(At(LoopHead))) && (status == Created || status == RunningModel)
      modifies this, env
      ensures env.state == Stopped(Some(result), err) && env.events == env.expected && result == lastSaved
    {
      if create {
        var failure := Persist(env, lastSaved, None, true, Create);
        if failure.Some? { return lastSaved, failure; }
        env.Observe(Event(ExecutionStarted, plan.request.executionId, Created, 0, "", "", None));
      }
      ghost var entering := At(LoopHead);
      assert env.state == Executing(Enter(entering));
      if status == Created {
        var _ := Transition(RunningModel);
        assert At(LoopHead) == Move(entering, RunningModel);
      }
      result, err := Loop(env);
      result, err := Deferred(env, result, err);
    }
  }

  /** The checkpoint `Run` starts from. */
  function InitialCheckpoint(plan: Plan): Checkpoint {
    Checkpoint(SCHEMA_VERSION, 0, plan.request.executionId, plan.request, plan.maxSteps, 0, plan.maxModelRetries, 0,
               Result(plan.request.executionId, Created, "", [], []), None, "")
  }

  /** `Run` with a store, once it owns the execution: a request without prompt or
      identifier touches nothing; any other one drives the machine to its end. */
  method RunRequest(env: Environment, plan: Plan) returns (result: Option<Result>, err: Option<Err>)
    requires env.state == Executing(Begin(plan)) && env.expected == env.events
    modifies env
    ensures plan.request.prompt == "" || plan.request.executionId == "" ==>
              && result.None? && err.Some? && err.value.tags == {InvalidRequest}
              && env.state == old(env.state) && env.events == old(env.events)
    ensures plan.request.prompt != "" && plan.request.executionId != "" ==>
              result.Some? && env.state == Stopped(result, err) && env.events == env.expected
  {
    if plan.request.prompt == "" || plan.request.executionId == "" {
      return None, Some(Sentinel(InvalidRequest, "invalid harness request"));
    }
    var activation := new Activation(InitialCheckpoint(plan), plan.hasTools);
    var returned, failure := activation.RunToEnd(env, true);
    return Some(returned), failure;
  }

  /** `Resume`, once it owns the execution. */
  method Resume(env: Environment, id: string) returns (result: Option<Result>, err: Option<Err>)
    requires env.state == Loading(id) && env.expected == env.events
    modifies env
    ensures env.state == Stopped(result, err) && env.events == env.expected
  {
    var loaded := env.Ask(LoadRecord(id));
    if loaded.LoadFailed? {
      var reading := env.Ask(ReadContext);
      if reading.ctx.Ended? { return None, Some(reading.ctx.cause); }
      return None, Some(Wrap("load execution", {CheckpointStore}, loaded.loadErr));
    }
    var cp := loaded.record;
    var valid := ValidateCheckpoint(cp);
    if !valid || cp.executionId != id {
      return None, Some(Sentinel(InvalidCheckpoint, "invalid checkpoint"));
    }
    result, err := ResumeValid(env, id, cp);
  }

  /** `Resume` with a valid record of the right execution. */
  method ResumeValid(env: Environment, id: string, cp: Checkpoint) returns (result: Option<Result>, err: Option<Err>)
    requires Valid(cp) && cp.executionId == id
    requires env.state == AfterLoad(env.cfg, id, cp) && env.expected == env.events
    modifies env
    ensures env.state == Stopped(result, err) && env.events == env.expected
  {
    match cp.result.status {
      case Completed => return Some(cp.result), None;
      case Failed =>
        return Some(cp.result), Some(Sentinel(ExecutionTerminal, "execution has already terminated: " + cp.error));
      case Cancelled =>
        return Some(cp.result), Some(Sentinel(ExecutionTerminal, "execution has already terminated: " + cp.error));
      case _ =>
    }
    if cp.schemaVersion < 2 {
      return Some(cp.result), Some(Sentinel(RecoveryUnsupported, "execution recovery is unsupported"));
    }
    if cp.schemaVersion >= 3 && cp.maxModelRetries > 0 && env.cfg.maxModelRetries != cp.maxModelRetries {
      return Some(cp.result), Some(Sentinel(RecoveryUnsupported, "execution recovery is unsupported"));
    }
    if cp.pendingTool.Some? {
      result, err := ReconcilePendingTool(env, cp);
    } else {
      result, err := RunFrom(env, cp);
    }
  }

  method RunFrom(env: Environment, cp: Checkpoint) returns (result: Option<Result>, err: Option<Err>)
    requires env.state == Executing(Launch(cp, env.cfg.hasTools)) && env.expected == env.events
    requires cp.result.status == Created || cp.result.status == RunningModel
    modifies env
    ensures env.state == Stopped(result, err) && env.events == env.expected
  {
    var activation := new Activation(cp, env.cfg.hasTools);
    var returned, failure := activation.RunToEnd(env, false);
    return Some(returned), failure;
  }

  /** `reconcilePendingTool`, continued by `run` when the call could be completed. */
  method ReconcilePendingTool(env: Environment, cp: Checkpoint) returns (result: Option<Result>, err: Option<Err>)
    requires cp.pendingTool.Some? && env.expected == env.events
    requires env.state == if env.cfg.canReconcile then Reconciling(cp) else ToReplay(env.cfg, cp)
    modifies env
    ensures env.state == Stopped(result, err) && env.events == env.expected
  {
    if !env.cfg.canReconcile {
      result, err := ReplayPendingTool(env, cp);
      return;
    }
    var reply := env.Ask(Reconcile(cp.pendingTool.value));
    var reading := env.Ask(ReadContext);
    if reading.ctx.Ended? { return Some(cp.result), Some(reading.ctx.cause); }
    var outcome := reply.outcome;
    if outcome.ReconcileFailed? {
      return Some(cp.result),
             Some(Wrap("tool outcome reconciliation failed", {ToolReconciliation}, outcome.reconcileErr));
    }
    match outcome.state {
      case OutcomeUnknown =>
        if outcome.output != "" {
          return Some(cp.result), Some(Sentinel(ToolReconciliation, "unknown call returned output"));
        }
        result, err := ReplayPendingTool(env, cp);
      case OutcomeCompleted =>
        result, err := CompletePendingTool(env, cp, outcome.output);
      case OutcomeOther(_) =>
        return Some(cp.result), Some(Sentinel(ToolReconciliation, "unknown state"));
    }
  }

  /** `replayPendingTool`. */
  method ReplayPendingTool(env: Environment, cp: Checkpoint) returns (result: Option<Result>, err: Option<Err>)
    requires cp.pendingTool.Some? && env.state == ToReplay(env.cfg, cp) && env.expected == env.events
    modifies env
    ensures env.state == Stopped(result, err) && env.events == env.expected
  {
    if !env.cfg.canReplay {
      return Some(cp.result), Some(Sentinel(ToolOutcomeUnknown, "pending tool outcome is unknown"));
    }
    var reply := env.Ask(Replay(cp.pendingTool.value));
    var reading := env.Ask(ReadContext);
    if reading.ctx.Ended? { return Some(cp.result), Some(reading.ctx.cause); }
    var answer := reply.replay;
    if answer.ToolFailed? {
      if ReplayUnsupported in answer.toolErr.tags {
        return Some(cp.result), Some(Sentinel(ToolOutcomeUnknown, "pending tool outcome is unknown"));
      }
      return Some(cp.result), Some(Wrap("idempotent tool replay failed", {ToolReplay}, answer.toolErr));
    }
    result, err := CompletePendingTool(env, cp, answer.output);
  }

  /** `completePendingTool`, then `run` from the restored checkpoint. */
  method CompletePendingTool(env: Environment, cp: Checkpoint, output: string)
    returns (result: Option<Result>, err: Option<Err>)
    requires cp.pendingTool.Some? && env.state == Restoring(cp, output) && env.expected == env.events
    modifies env
    ensures env.state == Stopped(result, err) && env.events == env.expected
  {
    var call := cp.pendingTool.value;
    var next := cp.(
      result := cp.result.(
        steps := cp.result.steps + [NewStep(cp.result.steps, call, output)],
        transitions := cp.result.transitions + [Transition(RunningTool, RunningModel)],
        status := RunningModel),
      pendingTool := None);
    var revision := CheckpointRevision(next);
    next := next.(revision := if revision >= 0 then revision else 0);
    var answer := env.Ask(Save(next, false));
    if answer.WriteFailed? {
      return Some(cp.result), Some(Wrap("checkpoint store failed", {CheckpointStore}, answer.writeErr));
    }
    result, err := RunFrom(env, next);
  }
}
