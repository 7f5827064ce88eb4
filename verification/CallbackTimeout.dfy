/** The callback deadlines: late answers are rejected, and the wrapper, which always
    advertises both optional capabilities, does not change what recovery means. */
module CallbackTimeout {
  import opened Domain
  import opened RunMachine
  import opened RunInvariant
  import opened Recovery

  const PARENT_DONE := Sentinel(CtxCanceled, "context canceled")

  function TimeoutError(tag: Tag): Err {
    Err({tag, DeadlineExceeded}, None, "callback timeout: context deadline exceeded")
  }

  /** `timeoutModel.Next`: the parent's end comes first, then the deadline. */
  function TimedModel(parent: Ctx, expired: bool, inner: ModelAnswer): ModelAnswer {
    if parent.Ended? then ModelFailed(PARENT_DONE)
    else if expired then ModelFailed(TimeoutError(ModelTimeout))
    else inner
  }

  /** `executeWithTimeout`. */
  function TimedTool(parent: Ctx, expired: bool, inner: ToolAnswer): ToolAnswer {
    if parent.Ended? then ToolFailed(PARENT_DONE)
    else if expired then ToolFailed(TimeoutError(ToolTimeout))
    else inner
  }

  /** What the wrapper answers to `Replay`, given what the inner executor would. */
  function WrappedReplay(inner: Config, parent: Ctx, expired: bool, answer: ToolAnswer): ToolAnswer {
    if !inner.canReplay then ToolFailed(Sentinel(ReplayUnsupported, "idempotent tool replay unsupported"))
    else TimedTool(parent, expired, answer)
  }

  /** What the wrapper answers to `ReconcileToolOutcome`. */
  function WrappedReconcile(inner: Config, answer: ReconcileAnswer): ReconcileAnswer {
    if !inner.canReconcile then Outcome(OutcomeUnknown, "") else answer
  }

  /** An answer in time is passed on as it is; a late one is a timeout of its own kind; and
      an execution that has ended is reported as cancelled first. */
  lemma TimedAnswersTable(parent: Ctx, expired: bool, model: ModelAnswer, tool: ToolAnswer)
    ensures parent.Live? && !expired ==>
              TimedModel(parent, expired, model) == model && TimedTool(parent, expired, tool) == tool
    ensures parent.Live? && expired ==>
              && TimedModel(parent, expired, model).ModelFailed?
              && TimedModel(parent, expired, model).modelErr.tags == {ModelTimeout, DeadlineExceeded}
              && TimedTool(parent, expired, tool).ToolFailed?
              && TimedTool(parent, expired, tool).toolErr.tags == {ToolTimeout, DeadlineExceeded}
    ensures parent.Ended? ==>
              && TimedModel(parent, expired, model).ModelFailed?
              && TimedModel(parent, expired, model).modelErr.tags == {CtxCanceled}
              && TimedTool(parent, expired, tool).ToolFailed?
              && TimedTool(parent, expired, tool).toolErr.tags == {CtxCanceled}
  {
  }

  /** What the wrapper answers to `Replay` and reconciliation, by the inner capability. */
  lemma WrappedAnswersTable(inner: Config, parent: Ctx, expired: bool, replay: ToolAnswer, outcome: ReconcileAnswer)
    ensures inner.canReplay ==> WrappedReplay(inner, parent, expired, replay) == TimedTool(parent, expired, replay)
    ensures !inner.canReplay ==>
              && WrappedReplay(inner, parent, expired, replay).ToolFailed?
              && WrappedReplay(inner, parent, expired, replay).toolErr.tags == {ReplayUnsupported}
    ensures WrappedReconcile(inner, outcome) == if inner.canReconcile then outcome else Outcome(OutcomeUnknown, "")
  {
  }

  /** The configuration the runtime sees once the executor is wrapped. */
  function Wrapped(inner: Config): Config {
    inner.(canReconcile := true, canReplay := true)
  }

  /** For every combination of inner capabilities and every answer, recovery of a
      pending call ends in the same process, hence the same checkpoint or the same
      error, wrapped or not, while neither deadline nor cancellation fires. */
  lemma WrappingPreservesRecovery(inner: Config, cp: Checkpoint, outcome: ReconcileAnswer, replay: ToolAnswer)
    ensures RecoverPending(Wrapped(inner), cp, Live, WrappedReconcile(inner, outcome),
                           WrappedReplay(inner, Live, false, replay))
            == RecoverPending(inner, cp, Live, outcome, replay)
  {
    var wrappedOutcome := WrappedReconcile(inner, outcome);
    hide Settles, Wrap, Proceed;
    var wrappedReplay := WrappedReplay(inner, Live, false, replay);
    ReconcileSettles(Wrapped(inner), cp, Live, wrappedOutcome, wrappedReplay);
    ReplaySettles(Wrapped(inner), cp, Live, wrappedOutcome, wrappedReplay);
    ReconcileSettles(inner, cp, Live, outcome, replay);
    ReplaySettles(inner, cp, Live, outcome, replay);
  }

  /** Once the deadline has passed, a wrapped replay restores nothing: only a proved
      outcome from reconciliation can still complete the call. */
  lemma LateReplayIsRejected(inner: Config, cp: Checkpoint, outcome: ReconcileAnswer, replay: ToolAnswer)
    ensures var end := RecoverPending(Wrapped(inner), cp, Live, WrappedReconcile(inner, outcome),
                                      WrappedReplay(inner, Live, true, replay));
            && (end.Restoring? <==>
                  inner.canReconcile && outcome.Outcome? && outcome.state == OutcomeCompleted)
            && (!end.Restoring? ==> end.Stopped? && end.result == Some(cp.result) && end.err.Some?)
  {
    hide Settles, Proceed, OnReplay, WrappedReplay, Sentinel, Wrap;
    var wrappedOutcome := WrappedReconcile(inner, outcome);
    var wrappedReplay := WrappedReplay(inner, Live, true, replay);
    ReconcileSettles(Wrapped(inner), cp, Live, wrappedOutcome, wrappedReplay);
    ReplaySettles(Wrapped(inner), cp, Live, wrappedOutcome, wrappedReplay);
    LateReplayStops(inner, cp, replay);
  }

  lemma LateReplayStops(inner: Config, cp: Checkpoint, replay: ToolAnswer)
    ensures var end := OnReplay(cp, WrappedReplay(inner, Live, true, replay));
            end.Stopped? && end.result == Some(cp.result) && end.err.Some?
  {
  }

  /** A model answer that arrives after the deadline is a transient failure, whatever it
      says: it is retried exactly while both budgets last, and never becomes a step, a
      tool call or a final output. */
  lemma LateDecisionIsRetried(run: Run, base: Base, answer: ModelAnswer)
    requires Sound(run, base) && run.pc == ModelDone(TimedModel(Live, true, answer))
    ensures var next := Advance(run, CtxRead(Live));
            && next.pc.AtWrite? && next.steps == run.steps
            && (next.pc.kind == Retry <==>
                  run.modelRetries < run.plan.maxModelRetries && run.iterations < run.plan.maxSteps)
            && (next.pc.kind != Retry ==> next.pc.kind == Finish && next.pc.result.status == Failed)
  {
    assert IsTransient(TimeoutError(ModelTimeout));
  }
}
