/** What a whole run makes of the answers it got: the steps it records are the tool calls
    the model asked for with the outputs the tools gave, in order, and the output it returns
    is the one of the model's last, final decision. */
module Transcript {
  import opened Domain
  import opened RunMachine

  /** The model's last answer. */
  function LastReply(inputs: seq<Input>): Option<ModelAnswer> {
    if inputs == [] then None
    else if inputs[|inputs| - 1].ModelReply? then Some(inputs[|inputs| - 1].model)
    else LastReply(inputs[..|inputs| - 1])
  }

  /** The call that the model last asked for. */
  function LastCall(inputs: seq<Input>): Option<ToolCall> {
    var reply := LastReply(inputs);
    if reply.Some? && reply.value.Decided? && reply.value.decision.kind == UseTool
    then Some(reply.value.decision.call) else None
  }

  /** The output with which a tool has just answered. */
  function FreshOutput(inputs: seq<Input>): Option<string> {
    if inputs != [] && inputs[|inputs| - 1].ToolReply? && inputs[|inputs| - 1].tool.ToolOutput?
    then Some(inputs[|inputs| - 1].tool.output) else None
  }

  /** The steps that the answers tell: whenever a tool has answered with an output and the
      context is then live, one more step with the model's call and that output. */
  function StepsTold(before: seq<Step>, inputs: seq<Input>): seq<Step> {
    if inputs == [] then before
    else
      var front, last := inputs[..|inputs| - 1], inputs[|inputs| - 1];
      var told, call, output := StepsTold(before, front), LastCall(front), FreshOutput(front);
      if last == CtxRead(Live) && output.Some? && call.Some?
      then told + [Step(|told| + 1, call.value, ToolResult(call.value.id, output.value))]
      else told
  }

  /** The output of the model's last answer, if that was a final decision. */
  function LastFinalOutput(inputs: seq<Input>): Option<string> {
    var reply := LastReply(inputs);
    if reply.Some? && reply.value.Decided? && reply.value.decision.kind == Final
    then Some(reply.value.decision.output) else None
  }

  /** The state reached, against the answers so far. */
  predicate Follows(before: seq<Step>, run: Run, inputs: seq<Input>) {
    && run.steps == StepsTold(before, inputs)
    && (!run.pc.Halted? ==> run.lastSaved.status != Completed)
    && (!Parked(run) ==> run.exec.status != Completed)
    && (run.pc.ToolDone? <==> inputs != [] && inputs[|inputs| - 1].ToolReply?)
    && Awaits(run, inputs)
  }

  predicate Awaits(run: Run, inputs: seq<Input>) {
    match run.pc
    case ModelDone(answer) => LastReply(inputs) == Some(answer)
    case Intended(call) => LastCall(inputs) == Some(call)
    case InTool(call) => LastCall(inputs) == Some(call)
    case ToolDone(call, tool) =>
      LastCall(inputs) == Some(call) && inputs != [] && inputs[|inputs| - 1] == ToolReply(tool)
    case AtWrite(kind, result, _) =>
      && (kind.Intent? ==> LastCall(inputs) == Some(kind.call))
      && (kind != Finish ==> run.exec.status != Completed && result.status != Completed)
      && result.steps == run.steps && (result.status == Completed ==> Some(result.output) == LastFinalOutput(inputs))
    case Halted(final, _) =>
      if inputs != [] && inputs[|inputs| - 1].WriteFailed? then final.status != Completed
      else final.steps == run.steps && (final.status == Completed ==> Some(final.output) == LastFinalOutput(inputs))
    case _ => true
  }

  lemma OneMore(before: seq<Step>, inputs: seq<Input>, input: Input)
    ensures var longer := inputs + [input];
            && longer != [] && longer[|longer| - 1] == input && longer[..|longer| - 1] == inputs
            && LastReply(longer) == (if input.ModelReply? then Some(input.model) else LastReply(inputs))
            && StepsTold(before, longer) ==
               var told, call, output := StepsTold(before, inputs), LastCall(inputs), FreshOutput(inputs);
               if input == CtxRead(Live) && output.Some? && call.Some?
               then told + [Step(|told| + 1, call.value, ToolResult(call.value.id, output.value))]
               else told
  {
    assert (inputs + [input])[..|inputs|] == inputs;
  }

  /******* One answer *******/

  /** Work of the loop that records no step: at a write or returned, nothing completed
      unless it says so. */
  predicate Quietly(run: Run, next: Run, completed: Option<string>, intended: Option<ToolCall>) {
    && next.steps == run.steps && next.lastSaved == run.lastSaved
    && match next.pc
       case AtWrite(kind, result, _) =>
         && (kind.Intent? ==> intended == Some(kind.call))
         && (kind != Finish ==> next.exec.status != Completed && result.status != Completed)
         && result.steps == run.steps && (result.status == Completed ==> completed == Some(result.output))
       case Halted(final, _) => final.steps == run.steps && final.status != Completed
       case _ => false
  }

  lemma ConcludeIsQuiet(run: Run, to: Status, output: string, err: Option<Err>)
    requires run.exec.status != Completed
    ensures Quietly(run, Conclude(run, to, output, err), if to == Completed then Some(output) else None, None)
  {
  }

  lemma DecisionIsQuiet(run: Run, d: Decision)
    requires run.exec.status != Completed
    ensures Quietly(run, OnDecision(run, d), if d.kind == Final then Some(d.output) else None,
                    if d.kind == UseTool then Some(d.call) else None)
  {
    hide StepIds, ValidTransition;
  }

  lemma ModelErrorIsQuiet(run: Run, e: Err)
    requires run.exec.status != Completed
    ensures Quietly(run, OnModelError(run, e), None, None)
  {
    hide IsTransient, ValidTransition;
  }

  lemma LoopHeadIsQuiet(run: Run, ctx: Ctx)
    requires run.exec.status != Completed
    ensures Quietly(run, AtLoopHead(run, ctx), None, None)
  {
    hide ValidTransition;
  }

  lemma ToolAnswerIsTold(run: Run, call: ToolCall, answer: ToolAnswer)
    requires run.exec.status != Completed
    ensures var next := OnToolAnswer(run, call, answer);
            match answer
            case ToolFailed(_) => Quietly(run, next, None, None)
            case ToolOutput(output) =>
              Quietly(run.(steps := run.steps + [Step(|run.steps| + 1, call, ToolResult(call.id, output))]), next,
                      None, None)
  {
    hide ValidTransition;
  }

  lemma QuietlyFollows(before: seq<Step>, run: Run, next: Run, inputs: seq<Input>, completed: Option<string>,
                       intended: Option<ToolCall>)
    requires Quietly(run, next, completed, intended) && inputs != []
    requires run.steps == StepsTold(before, inputs) && run.lastSaved.status != Completed
    requires completed.Some? ==> completed == LastFinalOutput(inputs)
    requires intended.Some? ==> intended == LastCall(inputs)
    requires !inputs[|inputs| - 1].WriteFailed? && !inputs[|inputs| - 1].ToolReply?
    ensures Follows(before, next, inputs)
  {
  }

  lemma FollowsStep(before: seq<Step>, run: Run, inputs: seq<Input>, input: Input)
    requires Follows(before, run, inputs) && Fits(run.pc, input)
    ensures Follows(before, Advance(run, input), inputs + [input])
  {
    hide Conclude, OnDecision, OnModelError, OnToolAnswer, AtLoopHead;
    var next, longer := Advance(run, input), inputs + [input];
    OneMore(before, inputs, input);
    if run.pc.AtWrite? {
      WriteFollows(before, run, inputs, input);
    } else if input.WaitInterrupted? || (input.CtxRead? && input.ctx.Ended? && !run.pc.LoopHead?) {
      var cause := if input.CtxRead? then input.ctx.cause else input.waitCause;
      ConcludeIsQuiet(run, Cancelled, "", Some(cause));
      QuietlyFollows(before, run, next, longer, None, None);
    } else if run.pc.LoopHead? {
      LoopHeadIsQuiet(run, input.ctx);
      QuietlyFollows(before, run, next, longer, None, None);
    } else if run.pc.ModelDone? && run.pc.model.Decided? {
      var d := run.pc.model.decision;
      DecisionIsQuiet(run, d);
      QuietlyFollows(before, run, next, longer, if d.kind == Final then Some(d.output) else None,
                     if d.kind == UseTool then Some(d.call) else None);
    } else if run.pc.ModelDone? {
      ModelErrorIsQuiet(run, run.pc.model.modelErr);
      QuietlyFollows(before, run, next, longer, None, None);
    } else if run.pc.ToolDone? {
      ToolAnswerFollows(before, run, inputs);
    }
  }

  lemma ToolAnswerFollows(before: seq<Step>, run: Run, inputs: seq<Input>)
    requires Follows(before, run, inputs) && run.pc.ToolDone?
    ensures Follows(before, Advance(run, CtxRead(Live)), inputs + [CtxRead(Live)])
  {
    hide OnToolAnswer, Quietly;
    var call, answer, longer := run.pc.call, run.pc.tool, inputs + [CtxRead(Live)];
    OneMore(before, inputs, CtxRead(Live));
    ToolAnswerIsTold(run, call, answer);
    if answer.ToolFailed? {
      QuietlyFollows(before, run, OnToolAnswer(run, call, answer), longer, None, None);
    } else {
      var told := run.(steps := run.steps + [Step(|run.steps| + 1, call, ToolResult(call.id, answer.output))]);
      QuietlyFollows(before, told, OnToolAnswer(run, call, answer), longer, None, None);
    }
  }

  lemma WriteFollows(before: seq<Step>, run: Run, inputs: seq<Input>, input: Input)
    requires Follows(before, run, inputs) && run.pc.AtWrite? && Fits(run.pc, input)
    ensures Follows(before, Advance(run, input), inputs + [input])
  {
    OneMore(before, inputs, input);
  }

  /******* Whole runs *******/

  lemma {:induction false} RunFollows(before: seq<Step>, run: Run, done: seq<Input>, inputs: seq<Input>)
    requires Follows(before, run, done) && AdvanceAll(run, inputs).Some?
    ensures Follows(before, AdvanceAll(run, inputs).value, done + inputs)
    decreases |inputs|
  {
    hide Follows, Advance, Fits;
    if inputs == [] {
      assert done + [] == done;
    } else {
      FollowsStep(before, run, done, inputs[0]);
      RunFollows(before, Advance(run, inputs[0]), done + [inputs[0]], inputs[1..]);
      assert done + [inputs[0]] + inputs[1..] == done + inputs;
    }
  }

  /** A run created by `Run`, or entered at its loop head from a stored record. */
  predicate Starting(run: Run) {
    run == Begin(run.plan)
    || (run.pc == LoopHead && run.exec.status == RunningModel && run.lastSaved.status != Completed)
  }

  /** Whatever the outside answers: the recorded steps are the earlier ones and then, in
      order, the model's calls with the outputs of the tools; the model and the tools are
      called on exactly these; and a returned Completed result carries the steps and the
      output of the model's last answer, which was a final decision. */
  lemma AnswersAreRecorded(run: Run, inputs: seq<Input>)
    requires Starting(run) && AdvanceAll(run, inputs).Some?
    ensures var end := AdvanceAll(run, inputs).value;
            && end.steps == StepsTold(run.steps, inputs)
            && (end.pc.InModel? ==> Demand(end) == CallModel(run.plan.request.prompt, StepsTold(run.steps, inputs)))
            && (end.pc.InTool? ==> LastCall(inputs).Some? && Demand(end) == Execute(LastCall(inputs).value))
            && (end.pc.Halted? && (inputs == [] || !inputs[|inputs| - 1].WriteFailed?) ==>
                  end.pc.final.steps == StepsTold(run.steps, inputs))
            && (end.pc.Halted? && end.pc.final.status == Completed ==>
                  && LastFinalOutput(inputs) == Some(end.pc.final.output)
                  && end.pc.final.steps == StepsTold(run.steps, inputs))
  {
    hide StepsTold, LastCall, LastFinalOutput, Follows, Awaits, Starting, AdvanceAll, Demand;
    NothingTold(run);
    RunFollows(run.steps, run, [], inputs);
    assert [] + inputs == inputs;
    PlanIsKept(run, inputs);
    FollowersRecord(run.steps, AdvanceAll(run, inputs).value, inputs);
  }

  /** What following the answers comes to at a callback and on return. */
  lemma FollowersRecord(before: seq<Step>, end: Run, inputs: seq<Input>)
    requires Follows(before, end, inputs)
    ensures end.steps == StepsTold(before, inputs)
    ensures end.pc.InModel? ==> Demand(end) == CallModel(end.plan.request.prompt, StepsTold(before, inputs))
    ensures end.pc.InTool? ==> LastCall(inputs).Some? && Demand(end) == Execute(LastCall(inputs).value)
    ensures end.pc.Halted? && (inputs == [] || !inputs[|inputs| - 1].WriteFailed?) ==>
              end.pc.final.steps == StepsTold(before, inputs)
    ensures end.pc.Halted? && end.pc.final.status == Completed ==>
              && LastFinalOutput(inputs) == Some(end.pc.final.output)
              && end.pc.final.steps == StepsTold(before, inputs)
  {
    hide StepsTold, LastCall, LastFinalOutput;
  }

  lemma NothingTold(run: Run)
    requires Starting(run)
    ensures Follows(run.steps, run, [])
  {
  }

  lemma {:induction false} PlanIsKept(run: Run, inputs: seq<Input>)
    requires AdvanceAll(run, inputs).Some?
    ensures AdvanceAll(run, inputs).value.plan == run.plan
    decreases |inputs|
  {
    hide Advance, Fits;
    if inputs != [] {
      ConstantsKept(run, inputs[0]);
      PlanIsKept(Advance(run, inputs[0]), inputs[1..]);
    }
  }
}
