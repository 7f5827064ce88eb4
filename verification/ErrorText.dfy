/** With valid UTF-8 strings there is one way in which the runtime writes a record that
    every store rejects: a context ended with a cause whose text is empty. */
module ErrorText {
  import opened Domain
  import opened Checkpoints
  import opened RunMachine
  import opened RunInvariant

  /** The cause with which the outside says that the context has ended. */
  function EndCause(input: Input): Option<Err> {
    if input.CtxRead? && input.ctx.Ended? then Some(input.ctx.cause)
    else if input.WaitInterrupted? then Some(input.waitCause)
    else None
  }

  /** A terminal write lacks its error text exactly when the context was ended with a
      cause whose own text is empty; every failure of the loop's own has text. */
  lemma TextIsMissingOnlyFromCauses(run: Run, base: Base, input: Input)
    requires Sound(run, base) && Fits(run.pc, input) && !run.pc.AtWrite?
    requires var next := Advance(run, input); next.pc.AtWrite? && next.pc.kind == Finish
    ensures !HasErrorText(Outgoing(Advance(run, input))) <==>
            EndCause(input).Some? && EndCause(input).value.text == ""
  {
    hide Successor, Tidy, Snapshot, Move;
    var next := Advance(run, input);
    AdvanceKeepsSound(run, base, input);
    assert next.pc.cause.Some? ==> Outgoing(next).error == next.pc.cause.value.text;
    if EndCause(input).None? && next.pc.cause.Some? {
      OwnErrorsHaveText(run, input);
    }
    FinishStatus(run, base, input);
  }

  lemma OwnErrorsHaveText(run: Run, input: Input)
    requires Fits(run.pc, input) && !run.pc.AtWrite? && EndCause(input).None?
    requires var next := Advance(run, input); next.pc.AtWrite? && next.pc.kind == Finish && next.pc.cause.Some?
    ensures Advance(run, input).pc.cause.value.text != ""
  {
    if run.pc.ModelDone? && run.pc.model.ModelFailed? {
      WrappedHasText("model step", run.pc.model.modelErr);
    } else if run.pc.ToolDone? && run.pc.tool.ToolFailed? {
      WrappedHasText("execute tool", run.pc.tool.toolErr);
    }
  }

  lemma WrappedHasText(prefix: string, e: Err)
    requires prefix != ""
    ensures Wrap(prefix, {}, e).text != ""
  {
    assert |Wrap(prefix, {}, e).text| >= |prefix|;
  }

  lemma EnteredIsRunning(run: Run, base: Base)
    requires Sound(run, base) && !run.pc.AtWrite? && !run.pc.Halted?
    ensures run.exec.status == RunningModel || run.exec.status == RunningTool
  {
  }

  predicate Concluded(run: Run) {
    run.pc.AtWrite? && run.pc.kind == Finish ==>
      IsTerminal(run.pc.result.status) && (run.pc.result.status == Completed <==> run.pc.cause.None?)
  }

  lemma ConcludeStatus(run: Run, to: Status, output: string, err: Option<Err>)
    requires run.exec.status == RunningModel || (run.exec.status == RunningTool && to != Completed)
    requires IsTerminal(to) && (to == Completed <==> err.None?)
    ensures Concluded(Conclude(run, to, output, err)) && Conclude(run, to, output, err).pc.cause == err
  {
  }

  lemma DecisionStatus(run: Run, d: Decision)
    requires run.exec.status == RunningModel
    ensures Concluded(OnDecision(run, d))
  {
    hide Conclude, Concluded;
    if !ValidDecision(d) {
      ConcludeStatus(run, Failed, "", Some(Sentinel(InvalidDecision, "invalid model decision")));
    } else if d.kind == Final {
      ConcludeStatus(run, Completed, d.output, None);
    } else if d.call.id in StepIds(run.steps) {
      ConcludeStatus(run, Failed, "", Some(Sentinel(DuplicateToolCall, "tool call ID already completed")));
    } else if !run.plan.hasTools {
      ConcludeStatus(run, Failed, "", Some(Sentinel(ToolExecutorMissing, "tool executor is required")));
    } else {
      assert OnDecision(run, d).pc.kind != Finish;
      assert Concluded(OnDecision(run, d)) by { NotAtFinish(OnDecision(run, d)); }
    }
  }

  lemma NotAtFinish(run: Run)
    requires run.pc.AtWrite? ==> run.pc.kind != Finish
    ensures Concluded(run)
  {
  }

  lemma FinishStatus(run: Run, base: Base, input: Input)
    requires Sound(run, base) && Fits(run.pc, input) && !run.pc.AtWrite?
    requires var next := Advance(run, input); next.pc.AtWrite? && next.pc.kind == Finish
    ensures Concluded(Advance(run, input))
    ensures EndCause(input).Some? ==> Advance(run, input).pc.cause == EndCause(input)
  {
    hide Sound, OnDecision, Conclude, Concluded, StepIds;
    EnteredIsRunning(run, base);
    if EndCause(input).Some? {
      ConcludeStatus(run, Cancelled, "", EndCause(input));
    } else if run.pc.ModelDone? && run.pc.model.Decided? {
      assert run.exec.status == RunningModel by { ModelDoneIsRunning(run, base); }
      DecisionStatus(run, run.pc.model.decision);
    } else if run.pc.ModelDone? {
      ConcludeStatus(run, Failed, "", Some(Wrap("model step", {}, run.pc.model.modelErr)));
    } else if run.pc.LoopHead? {
      ConcludeStatus(run, Failed, "", Some(Sentinel(StepLimitExceeded, "harness step limit exceeded")));
    } else {
      assert run.pc.ToolDone?;
      if run.pc.tool.ToolFailed? {
        ConcludeStatus(run, Failed, "", Some(Wrap("execute tool", {}, run.pc.tool.toolErr)));
      }
    }
  }

  lemma ModelDoneIsRunning(run: Run, base: Base)
    requires Sound(run, base) && run.pc.ModelDone?
    ensures run.exec.status == RunningModel
  {
  }

  /** Such a cause does make the runtime write a record that every store rejects. */
  lemma EmptyCauseIsRejected()
    ensures var plan := Plan(Request("id", "prompt"), 1, 0, false);
            var run := Advance(Acknowledge(Begin(plan)), CtxRead(Ended(Err({CtxCanceled}, None, ""))));
            && Startable(plan) && run.pc.AtWrite? && run.pc.kind == Finish
            && !Valid(Outgoing(run))
  {
  }
}
