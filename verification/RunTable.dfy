/** What `run` does with each answer, written out field by field: which checkpoint it
    asks to store next, or what it returns. */
module RunTable {
  import opened Domain
  import opened Checkpoints
  import opened RunMachine
  import opened RunInvariant

  /** The run asks to save a record of this status, output, steps, pending call and error
      text; identity, budgets and counters are the run's own, and the history of `run` is
      kept, with one transition more where the status changes. */
  predicate Saves(run: Run, next: Run, status: Status, output: string, steps: seq<Step>, pending: Option<ToolCall>,
                  error: string)
  {
    && Demand(next).Save? && !Demand(next).create
    && var cp := Demand(next).cp;
    && cp.schemaVersion == 3 && cp.revision == (if Revision(cp) < 0 then 0 else Revision(cp))
    && cp.executionId == cp.result.executionId == run.plan.request.executionId
    && cp.request == run.plan.request && next.plan == run.plan
    && cp.maxSteps == run.plan.maxSteps && cp.maxModelRetries == run.plan.maxModelRetries
    && cp.modelIterations == next.iterations && cp.modelRetries == next.modelRetries
    && cp.result.status == status && cp.result.output == output && cp.result.steps == steps
    && cp.result.transitions ==
       run.exec.transitions + (if status == run.exec.status then [] else [Transition(run.exec.status, status)])
    && cp.pendingTool == pending && cp.error == error
    && next.lastSaved == run.lastSaved
  }

  /** A terminal write after which the run will return this error. */
  predicate Ends(run: Run, next: Run, status: Status, output: string, err: Option<Err>) {
    && Saves(run, next, status, output, run.steps, run.pendingTool, if err.Some? then err.value.text else "")
    && next.pc.AtWrite? && next.pc.kind == Finish && next.pc.cause == err
    && next.iterations == run.iterations && next.modelRetries == run.modelRetries
  }

  /** A failure of the loop's own: it carries exactly these sentinels. */
  predicate FailsWith(run: Run, next: Run, tags: set<Tag>) {
    && next.pc.AtWrite? && next.pc.cause.Some? && next.pc.cause.value.tags == tags && next.pc.cause.value.text != ""
    && Ends(run, next, Failed, "", next.pc.cause)
  }

  /******* The first write *******/

  lemma FirstWriteTable(plan: Plan)
    ensures Demand(Begin(plan)).Save? && Demand(Begin(plan)).create
    ensures var cp := Demand(Begin(plan)).cp;
            && cp.schemaVersion == 3 && cp.revision == 1
            && cp.executionId == cp.result.executionId == plan.request.executionId && cp.request == plan.request
            && cp.maxSteps == plan.maxSteps && cp.maxModelRetries == plan.maxModelRetries
            && cp.modelIterations == 0 && cp.modelRetries == 0
            && cp.result.status == Created && cp.result.output == "" && cp.result.steps == []
            && cp.result.transitions == [] && cp.pendingTool == None && cp.error == ""
  {
  }

  /******* A context that has ended *******/

  /** The place at which a run looks whether its context has ended. */
  predicate ReadsContext(run: Run) {
    run.pc.LoopHead? || run.pc.Reserved? || run.pc.ModelDone? || run.pc.Intended? || run.pc.ToolDone?
  }

  lemma StatusInLoop(run: Run, base: Base)
    requires Sound(run, base) && !run.pc.AtWrite? && !run.pc.Halted?
    ensures run.exec.status == RunningModel || run.exec.status == RunningTool
    ensures run.pc.LoopHead? || run.pc.Waiting? || run.pc.Reserved? || run.pc.InModel? || run.pc.ModelDone? ==>
              run.exec.status == RunningModel && run.pendingTool == None
    ensures run.pc.Intended? || run.pc.InTool? || run.pc.ToolDone? ==>
              run.exec.status == RunningTool && run.pendingTool == Some(run.pc.call)
  {
  }

  /** `Conclude`, field by field. */
  lemma ConcludeEnds(run: Run, to: Status, output: string, err: Option<Err>)
    requires IsTerminal(to) && ValidTransition(run.exec.status, to)
    ensures Ends(run, Conclude(run, to, output, err), to, output, err)
  {
    hide Started, Finished;
  }

  /** Wherever the loop looks, an ended context means a Cancelled record that carries the
      cause, with nothing else changed. */
  lemma EndedContextTable(run: Run, base: Base, cause: Err)
    requires Sound(run, base) && (ReadsContext(run) || run.pc.Waiting?)
    ensures ReadsContext(run) ==> Ends(run, Advance(run, CtxRead(Ended(cause))), Cancelled, "", Some(cause))
    ensures run.pc.Waiting? ==> Ends(run, Advance(run, WaitInterrupted(cause)), Cancelled, "", Some(cause))
  {
    hide Sound, Ends, Conclude;
    StatusInLoop(run, base);
    ConcludeEnds(run, Cancelled, "", Some(cause));
  }

  /******* A live context before a callback *******/

  /** Under a live context the loop reserves the next attempt, or stops at the step limit. */
  lemma LoopHeadTable(run: Run, base: Base)
    requires Sound(run, base) && run.pc.LoopHead?
    ensures var next := Advance(run, CtxRead(Live));
            if run.iterations < run.plan.maxSteps
            then && Saves(run, next, RunningModel, "", run.steps, None, "")
                 && next.pc.AtWrite? && next.pc.kind == Reserve
                 && next.iterations == run.iterations + 1 && next.modelRetries == run.modelRetries
            else FailsWith(run, next, {StepLimitExceeded})
  {
    hide Sound, Ends, Conclude, Started, Finished;
    StatusInLoop(run, base);
    ConcludeEnds(run, Failed, "", Some(Sentinel(StepLimitExceeded, "harness step limit exceeded")));
    ConcludeIsAtWrite(run, Failed, "", Some(Sentinel(StepLimitExceeded, "harness step limit exceeded")));
  }

  lemma ConcludeIsAtWrite(run: Run, to: Status, output: string, err: Option<Err>)
    requires IsTerminal(to) && ValidTransition(run.exec.status, to)
    ensures Conclude(run, to, output, err).pc.AtWrite? && Conclude(run, to, output, err).pc.cause == err
  {
  }

  /** Under a live context the announced callback is made: the model on the request's prompt
      and the recorded steps, or the pending tool call itself; its answer is taken as it is. */
  lemma CallbackTable(run: Run, base: Base, model: ModelAnswer, tool: ToolAnswer)
    requires Sound(run, base)
    ensures run.pc.Reserved? ==>
              && Advance(run, CtxRead(Live)) == run.(pc := InModel)
              && Demand(Advance(run, CtxRead(Live))) == CallModel(base.cp.request.prompt, base.cp.result.steps)
    ensures run.pc.InModel? ==> Advance(run, ModelReply(model)) == run.(pc := ModelDone(model))
    ensures run.pc.Intended? ==>
              && Advance(run, CtxRead(Live)) == run.(pc := InTool(run.pc.call))
              && Some(run.pc.call) == base.cp.pendingTool
              && Demand(Advance(run, CtxRead(Live))) == Execute(run.pc.call)
    ensures run.pc.InTool? ==> Advance(run, ToolReply(tool)) == run.(pc := ToolDone(run.pc.call, tool))
    ensures run.pc.Waiting? ==> Demand(run) == AwaitRetry && Advance(run, WaitElapsed) == run.(pc := LoopHead)
    ensures ReadsContext(run) ==> Demand(run) == ReadContext
  {
    hide SoundAtWrite, SoundHalted;
  }

  /******* A decision *******/

  predicate NamesACall(d: Decision) {
    d.kind == UseTool && d.call.id != "" && d.call.name != ""
  }

  predicate AlreadyMade(steps: seq<Step>, id: string) {
    exists i | 0 <= i < |steps| :: steps[i].call.id == id
  }

  /** What a decision leads to under a live context: a final one is stored as Completed with
      the model's own output; a new tool call is announced as exactly the model's call;
      anything else fails with its own sentinel. */
  lemma DecisionTable(run: Run, base: Base, d: Decision)
    requires Sound(run, base) && run.pc == ModelDone(Decided(d))
    ensures var next := Advance(run, CtxRead(Live));
            if d.kind == Final then Ends(run, next, Completed, d.output, None)
            else if !NamesACall(d) then FailsWith(run, next, {InvalidDecision})
            else if AlreadyMade(run.steps, d.call.id) then FailsWith(run, next, {DuplicateToolCall})
            else if !run.plan.hasTools then FailsWith(run, next, {ToolExecutorMissing})
            else
              && Saves(run, next, RunningTool, "", run.steps, Some(d.call), "")
              && next.pc.AtWrite? && next.pc.kind == Intent(d.call)
              && next.iterations == run.iterations && next.modelRetries == run.modelRetries
  {
    hide Sound, Ends, Conclude, Started, Finished;
    StatusInLoop(run, base);
    assert AlreadyMade(run.steps, d.call.id) <==> d.call.id in StepIds(run.steps);
    if !ValidDecision(d) {
      SentinelFails(run, InvalidDecision, "invalid model decision");
    } else if d.kind == Final {
      ConcludeEnds(run, Completed, d.output, None);
    } else if d.call.id in StepIds(run.steps) {
      SentinelFails(run, DuplicateToolCall, "tool call ID already completed");
    } else if !run.plan.hasTools {
      SentinelFails(run, ToolExecutorMissing, "tool executor is required");
    }
  }

  lemma SentinelFails(run: Run, tag: Tag, text: string)
    requires text != "" && (run.exec.status == RunningModel || run.exec.status == RunningTool)
    ensures FailsWith(run, Conclude(run, Failed, "", Some(Sentinel(tag, text))), {tag})
  {
    hide Ends, Conclude;
    ConcludeEnds(run, Failed, "", Some(Sentinel(tag, text)));
    ConcludeIsAtWrite(run, Failed, "", Some(Sentinel(tag, text)));
  }

  /******* A model error *******/

  /** The provider answers that are worth another attempt. */
  predicate RetryableStatus(status: int) {
    status == 408 || status == 429 || status == 500 || status == 502 || status == 503 || status == 504
  }

  /** What a model error leads to under a live context: a retry exactly while both budgets
      last and the error is a callback timeout, a retryable HTTP status, or a provider error
      without status and without a response; never one that wraps a cancellation. Any other
      error fails the run and keeps its own sentinels. */
  lemma ModelErrorTable(run: Run, base: Base, e: Err)
    requires Sound(run, base) && run.pc == ModelDone(ModelFailed(e))
    ensures var next := Advance(run, CtxRead(Live));
            if run.modelRetries < run.plan.maxModelRetries && run.iterations < run.plan.maxSteps
               && CtxCanceled !in e.tags
               && (|| ModelTimeout in e.tags
                   || (e.http.Some? && RetryableStatus(e.http.value))
                   || (e.http.None? && ModelProvider in e.tags && ModelResponse !in e.tags))
            then && Saves(run, next, RunningModel, "", run.steps, None, "") && next.pc.AtWrite? && next.pc.kind == Retry
                 && next.iterations == run.iterations && next.modelRetries == run.modelRetries + 1
            else FailsWith(run, next, e.tags) && next.pc.cause.value.http == e.http
  {
    hide Sound, Ends, Conclude, Started, Finished;
    StatusInLoop(run, base);
    WrappedFails(run, "model step", e);
  }

  lemma WrappedFails(run: Run, prefix: string, e: Err)
    requires prefix != "" && (run.exec.status == RunningModel || run.exec.status == RunningTool)
    ensures FailsWith(run, Conclude(run, Failed, "", Some(Wrap(prefix, {}, e))), e.tags)
    ensures Conclude(run, Failed, "", Some(Wrap(prefix, {}, e))).pc.cause.value.http == e.http
  {
    hide Ends, Conclude;
    ConcludeEnds(run, Failed, "", Some(Wrap(prefix, {}, e)));
    ConcludeIsAtWrite(run, Failed, "", Some(Wrap(prefix, {}, e)));
    assert |Wrap(prefix, {}, e).text| >= |prefix|;
  }

  /******* A tool answer *******/

  /** What a tool answer leads to under a live context: its output is recorded as the next
      step of exactly the pending call, or its error fails the run with the call pending. */
  lemma ToolAnswerTable(run: Run, base: Base, call: ToolCall, answer: ToolAnswer)
    requires Sound(run, base) && run.pc == ToolDone(call, answer)
    ensures var next := Advance(run, CtxRead(Live));
            match answer
            case ToolFailed(e) => FailsWith(run, next, e.tags) && next.pc.cause.value.http == e.http
            case ToolOutput(output) =>
              && Saves(run, next, RunningModel, "",
                       run.steps + [Step(|run.steps| + 1, call, ToolResult(call.id, output))], None, "")
              && next.pc.AtWrite? && next.pc.kind == Complete
              && next.iterations == run.iterations && next.modelRetries == run.modelRetries
  {
    hide Sound, Ends, Conclude, Started, Finished;
    StatusInLoop(run, base);
    if answer.ToolFailed? { WrappedFails(run, "execute tool", answer.toolErr); }
  }

  /******* The store's answer *******/

  /** After an acknowledged write the saved result is the last one, and the loop goes on to
      the announced callback, the wait or the next attempt; a terminal result is returned
      with the error it was stored for. */
  lemma AcknowledgedTable(run: Run, base: Base)
    requires Sound(run, base) && run.pc.AtWrite?
    ensures var next, cp := Advance(run, WriteAcked), Demand(run).cp;
            && next.lastSaved == cp.result && next.plan == run.plan
            && next.iterations == cp.modelIterations && next.modelRetries == cp.modelRetries
            && (run.pc.kind != Finish ==> next.steps == cp.result.steps && next.pendingTool == cp.pendingTool)
            && (run.pc.kind == Create ==>
                  && next.exec.status == RunningModel
                  && next.exec.transitions == cp.result.transitions + [Transition(Created, RunningModel)])
            && (run.pc.kind != Create ==> next.exec == run.exec)
            && match run.pc.kind
               case Create => next.pc == LoopHead
               case Reserve => next.pc == Reserved
               case Retry => next.pc == Waiting
               case Intent(call) => next.pc == Intended(call)
               case Complete => next.pc == LoopHead
               case Finish => next.pc == Halted(cp.result, run.pc.cause)
  {
    hide Successor, Tidy, Started, Finished;
  }

  /** After a failed write the run returns the last acknowledged result; the error wraps the
      store's, and that of the terminal outcome that could not be stored. */
  lemma WriteFailedTable(run: Run, e: Err)
    requires run.pc.AtWrite?
    ensures var next := Advance(run, WriteFailed(e));
            && next.pc.Halted? && next.pc.final == run.lastSaved && next.pc.err.Some?
            && next.pc.err.value.tags ==
               {CheckpointStore} + e.tags
               + (if run.pc.kind == Finish && run.pc.cause.Some? then run.pc.cause.value.tags else {})
            && next.lastSaved == run.lastSaved && next.steps == run.steps && next.plan == run.plan
  {
  }
}
