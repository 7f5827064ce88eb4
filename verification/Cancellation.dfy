/** Cancellation wins: once the context has ended, whatever else the outside answers,
    no callback starts, nothing is committed, and the outcome is Cancelled or the last
    acknowledged result. */
module Cancellation {
  import opened Domain
  import opened RunMachine
  import opened RunInvariant
  import opened Recovery

  /** An answer given after the context ended with `cause`. */
  predicate Under(cause: Err, input: Input) {
    && (input.CtxRead? ==> input.ctx == Ended(cause))
    && (input.WaitInterrupted? ==> input.waitCause == cause)
  }

  predicate AtCallback(pc: Pc) {
    pc.InModel? || pc.InTool?
  }

  lemma EndedContextStartsNothing(run: Run, cause: Err, input: Input)
    requires Fits(run.pc, input) && Under(cause, input)
    ensures !AtCallback(Advance(run, input).pc)
  {
  }

  /** From any state and for any further answers, no callback ever starts. Every prefix
      of `inputs` is covered, so this speaks of the whole rest of the run. */
  lemma {:induction false} NoCallbackAfterCancellation(run: Run, cause: Err, inputs: seq<Input>)
    requires inputs != [] && AdvanceAll(run, inputs).Some?
    requires forall i | 0 <= i < |inputs| :: Under(cause, inputs[i])
    ensures !AtCallback(AdvanceAll(run, inputs).value.pc)
    decreases |inputs|
  {
    hide Advance, Fits;
    EndedContextStartsNothing(run, cause, inputs[0]);
    if |inputs| > 1 {
      NoCallbackAfterCancellation(Advance(run, inputs[0]), cause, inputs[1..]);
    }
  }

  predicate SomeWriteFailed(inputs: seq<Input>) {
    exists i | 0 <= i < |inputs| :: inputs[i].WriteFailed?
  }

  /** On the way from `from` to the terminal write, at it, or returned; `failed` says
      whether a write has failed on the way. */
  predicate Winding(run: Run, from: Result, saved: Result, cause: Err, failed: bool) {
    match run.pc
    case AtWrite(kind, result, err) =>
      !failed && kind == Finish && result == Moved(from, Cancelled) && err == Some(cause) && run.lastSaved == saved
    case Halted(result, err) =>
      if failed
      then result == saved && err.Some? && cause.tags + {CheckpointStore} <= err.value.tags
      else result == Moved(from, Cancelled) && err == Some(cause)
    case _ =>
      && !failed && Snapshot(run, "") == from && run.lastSaved == saved
      && (run.exec.status == RunningModel || run.exec.status == RunningTool)
  }

  lemma WindingContinues(run: Run, from: Result, saved: Result, cause: Err, failed: bool, input: Input)
    requires Winding(run, from, saved, cause, failed) && Fits(run.pc, input) && Under(cause, input)
    ensures Winding(Advance(run, input), from, saved, cause, failed || input.WriteFailed?)
  {
    hide Outgoing, OnDecision, OnModelError, OnToolAnswer;
  }

  lemma {:induction false} WindingRuns(run: Run, from: Result, saved: Result, cause: Err, failed: bool,
                                       inputs: seq<Input>)
    requires Winding(run, from, saved, cause, failed) && AdvanceAll(run, inputs).Some?
    requires forall i | 0 <= i < |inputs| :: Under(cause, inputs[i])
    ensures Winding(AdvanceAll(run, inputs).value, from, saved, cause, failed || SomeWriteFailed(inputs))
    decreases |inputs|
  {
    hide Winding, Advance, Fits;
    if inputs != [] {
      var rest := inputs[1..];
      WindingContinues(run, from, saved, cause, failed, inputs[0]);
      WindingRuns(Advance(run, inputs[0]), from, saved, cause, failed || inputs[0].WriteFailed?, rest);
      assert SomeWriteFailed(inputs) <==> inputs[0].WriteFailed? || SomeWriteFailed(rest) by {
        assert forall i | 0 <= i < |rest| :: rest[i] == inputs[i + 1];
        assert forall i | 0 < i < |inputs| :: inputs[i] == rest[i - 1];
      }
    }
  }

  /** A run whose context ends anywhere between two writes (in a callback, at a check, in
      the retry wait, at budget exhaustion) adds no step and no output. What it returns is
      exactly the last acknowledged result moved to Cancelled, with the cause, unless the
      terminal write fails; then it is the last acknowledged result itself, with an error
      that carries both the cause and the store failure. */
  lemma CancellationWins(run: Run, base: Base, cause: Err, inputs: seq<Input>)
    requires Sound(run, base) && !run.pc.AtWrite? && !run.pc.Halted?
    requires AdvanceAll(run, inputs).Some?
    requires forall i | 0 <= i < |inputs| :: Under(cause, inputs[i])
    ensures var end := AdvanceAll(run, inputs).value;
            var cancelled := Moved(Entered(base.cp.result), Cancelled);
            && cancelled.status == Cancelled && cancelled.steps == base.cp.result.steps && cancelled.output == ""
            && (end.pc.AtWrite? ==> end.pc == AtWrite(Finish, cancelled, Some(cause)))
            && (end.pc.Halted? ==>
                  if SomeWriteFailed(inputs)
                  then && end.pc.final == base.cp.result
                       && end.pc.err.Some? && cause.tags + {CheckpointStore} <= end.pc.err.value.tags
                  else end.pc.final == cancelled && end.pc.err == Some(cause))
            && (!end.pc.AtWrite? && !end.pc.Halted? ==>
                  end.steps == base.cp.result.steps && !SomeWriteFailed(inputs))
  {
    hide AdvanceAll, SomeWriteFailed;
    WindingRuns(run, Snapshot(run, ""), run.lastSaved, cause, false, inputs);
  }

  /******* During recovery *******/

  function ProceedAll(cfg: Config, p: Process, inputs: seq<Input>): Option<Process>
    decreases |inputs|
  {
    if inputs == [] then Some(p)
    else if !Accepts(p, inputs[0]) then None
    else ProceedAll(cfg, Proceed(cfg, p, inputs[0]), inputs[1..])
  }

  /** A context that ends during reconciliation or replay leaves the stored record as it
      is: no write is ever asked for, and the loaded result is returned. */
  lemma {:induction false} CancelledRecoveryWritesNothing(cfg: Config, p: Process, cause: Err, inputs: seq<Input>)
    requires p.Reconciling? || p.ReconcileDone? || p.Replaying? || p.ReplayDone?
    requires ProceedAll(cfg, p, inputs).Some?
    requires forall i | 0 <= i < |inputs| :: Under(cause, inputs[i])
    ensures var end := ProceedAll(cfg, p, inputs).value;
            && !AtWritePoint(end) && !end.Executing?
            && (end.Stopped? ==> end == Stopped(Some(p.cp.result), Some(cause)))
    decreases |inputs|
  {
    if inputs != [] {
      var next := Proceed(cfg, p, inputs[0]);
      if next.Stopped? {
        assert inputs[1..] == [];
      } else {
        CancelledRecoveryWritesNothing(cfg, next, cause, inputs[1..]);
      }
    }
  }
}
