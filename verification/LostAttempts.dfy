/** Scripts with any number of lost attempts against the crash-free run on a budget
    smaller by their number. The two agree if and only if no retry was granted on
    iterations that were all to be lost. */
module LostAttempts {
  import opened Domain
  import opened Checkpoints
  import opened RunMachine
  import opened RunInvariant
  import opened Recovery
  import opened Crash
  import opened CrashScripts

  /******* Plain scripts on a run *******/

  predicate CanLose(run: Run) {
    run.pc.LoopHead? && run.iterations < run.plan.maxSteps
  }

  /** A plain script played on a run; None when some line cannot be played in its turn. */
  function Plays(run: Run, script: seq<Line>): Option<Run>
    decreases |script|
  {
    if script == [] then Some(run)
    else
      match script[0]
      case Reply(input) => if Fits(run.pc, input) then Plays(Advance(run, input), script[1..]) else None
      case LoseAttempt(_) => if CanLose(run) then Plays(Lost(run), script[1..]) else None
      case _ => None
  }

  function Losses(script: seq<Line>): nat {
    if script == [] then 0 else (if script[0].LoseAttempt? then 1 else 0) + Losses(script[1..])
  }

  /** The answers in a script. */
  function Replies(script: seq<Line>): seq<Input> {
    if script == [] then []
    else (if script[0].Reply? then [script[0].input] else []) + Replies(script[1..])
  }

  predicate AtRetry(run: Run) {
    run.pc.AtWrite? && run.pc.kind == Retry
  }

  /** Whenever a retry is granted, an iteration is left for it beside those that the rest
      of the script loses. */
  predicate Affordable(run: Run, script: seq<Line>)
    decreases |script|
  {
    if script == [] then true
    else
      var rest := script[1..];
      match script[0]
      case Reply(input) =>
        Fits(run.pc, input) ==>
          && (AtRetry(Advance(run, input)) ==> run.iterations + Losses(rest) < run.plan.maxSteps)
          && Affordable(Advance(run, input), rest)
      case _ => Affordable(Lost(run), rest)
  }

  /******* Two runs that differ in iterations and budget *******/

  /** `p` has used `a` iterations more than `q`, on a budget larger by `b`; all else is the
      same, a returned or last saved result up to the entry into running_model. */
  predicate Alike(p: Run, q: Run, a: int, b: int) {
    && p.iterations == q.iterations + a && p.plan == q.plan.(maxSteps := q.plan.maxSteps + b)
    && p.modelRetries == q.modelRetries && p.steps == q.steps && p.exec == q.exec && p.pendingTool == q.pendingTool
    && Entered(p.lastSaved) == Entered(q.lastSaved)
    && (if p.pc.Halted?
        then q.pc.Halted? && Entered(p.pc.final) == Entered(q.pc.final) && p.pc.err == q.pc.err
        else p.pc == q.pc)
  }

  /** At the loop head the last saved result is the current one, up to that entry. */
  predicate Tied(run: Run) {
    && (run.pc.LoopHead? || run.pc.Waiting? ==>
          run.exec.status == RunningModel && Entered(run.lastSaved) == Snapshot(run, ""))
    && (run.pc.Reserved? || run.pc.InModel? || run.pc.ModelDone? ==> run.exec.status == RunningModel)
    && (run.pc.AtWrite? && run.pc.kind != Finish ==>
          && run.pc.result == Snapshot(run, "")
          && match run.pc.kind
             case Create => run.exec.status == Created
             case Intent(_) => true
             case _ => run.exec.status == RunningModel)
  }

  lemma ConcludeIsTied(run: Run, to: Status, output: string, err: Option<Err>)
    ensures Tied(Conclude(run, to, output, err))
  {
  }

  lemma DecisionIsTied(run: Run, d: Decision)
    requires run.exec.status == RunningModel
    ensures Tied(OnDecision(run, d))
  {
    hide Tied, StepIds, ValidDecision;
    if OnDecision(run, d).pc == AtWrite(Intent(d.call), Snapshot(OnDecision(run, d), ""), None) {
      IntentIsTied(OnDecision(run, d));
    } else {
      ConcludeIsTied(run, Failed, "", Some(Sentinel(InvalidDecision, "invalid model decision")));
      ConcludeIsTied(run, Completed, d.output, None);
      ConcludeIsTied(run, Failed, "", Some(Sentinel(DuplicateToolCall, "tool call ID already completed")));
      ConcludeIsTied(run, Failed, "", Some(Sentinel(ToolExecutorMissing, "tool executor is required")));
    }
  }

  lemma IntentIsTied(run: Run)
    requires run.pc.AtWrite? && run.pc.kind.Intent? && run.pc.result == Snapshot(run, "")
    ensures Tied(run)
  {
  }

  lemma ToolAnswerIsTied(run: Run, call: ToolCall, answer: ToolAnswer)
    ensures Tied(OnToolAnswer(run, call, answer))
  {
  }

  lemma AdvanceKeepsTied(run: Run, input: Input)
    requires Tied(run) && Fits(run.pc, input)
    ensures Tied(Advance(run, input))
  {
    hide Conclude, OnDecision, OnToolAnswer;
    if input.CtxRead? && input.ctx.Ended? {
      ConcludeIsTied(run, Cancelled, "", Some(input.ctx.cause));
    } else if input.WaitInterrupted? {
      ConcludeIsTied(run, Cancelled, "", Some(input.waitCause));
    } else if run.pc.ModelDone? {
      if run.pc.model.Decided? { DecisionIsTied(run, run.pc.model.decision); }
      else { ConcludeIsTied(run, Failed, "", Some(Wrap("model step", {}, run.pc.model.modelErr))); }
    } else if run.pc.ToolDone? {
      ToolAnswerIsTied(run, run.pc.call, run.pc.tool);
    } else if run.pc.LoopHead? {
      ConcludeIsTied(run, Failed, "", Some(Sentinel(StepLimitExceeded, "harness step limit exceeded")));
    }
  }

  lemma SoundIsTied(run: Run, base: Base)
    requires Sound(run, base)
    ensures Tied(run)
  {
  }

  lemma LostStaysAlike(p: Run, q: Run, a: int, b: int)
    requires Alike(p, q, a, b) && Tied(p) && CanLose(p)
    ensures Alike(Lost(p), q, a + 1, b) && Tied(Lost(p))
  {
  }

  lemma ConcludeAlike(p: Run, q: Run, a: int, b: int, to: Status, output: string, err: Option<Err>)
    requires Alike(p, q, a, b)
    ensures Alike(Conclude(p, to, output, err), Conclude(q, to, output, err), a, b)
  {
  }

  lemma MoveAlike(p: Run, q: Run, a: int, b: int, to: Status, pending: Option<ToolCall>, kind: WriteKind)
    requires Alike(p, q, a, b)
    ensures Alike(MoveAndPersist(p, to, pending, kind), MoveAndPersist(q, to, pending, kind), a, b)
  {
    hide Entered;
    assert Snapshot(Move(p, to), "") == Snapshot(Move(q, to), "");
  }

  lemma DecisionAlike(p: Run, q: Run, a: int, b: int, d: Decision)
    requires Alike(p, q, a, b)
    ensures Alike(OnDecision(p, d), OnDecision(q, d), a, b)
  {
    hide StepIds, ValidDecision, Conclude, MoveAndPersist, Entered;
    MoveAlike(p, q, a, b, RunningTool, Some(d.call), Intent(d.call));
    if !ValidDecision(d) {
      ConcludeAlike(p, q, a, b, Failed, "", Some(Sentinel(InvalidDecision, "invalid model decision")));
    } else if d.kind == Final {
      ConcludeAlike(p, q, a, b, Completed, d.output, None);
    } else if d.call.id in StepIds(p.steps) {
      ConcludeAlike(p, q, a, b, Failed, "", Some(Sentinel(DuplicateToolCall, "tool call ID already completed")));
    } else if !p.plan.hasTools {
      ConcludeAlike(p, q, a, b, Failed, "", Some(Sentinel(ToolExecutorMissing, "tool executor is required")));
    }
  }

  lemma ToolAnswerAlike(p: Run, q: Run, a: int, b: int, call: ToolCall, answer: ToolAnswer)
    requires Alike(p, q, a, b)
    ensures Alike(OnToolAnswer(p, call, answer), OnToolAnswer(q, call, answer), a, b)
  {
    hide Conclude, MoveAndPersist, Entered;
    if answer.ToolFailed? {
      ConcludeAlike(p, q, a, b, Failed, "", Some(Wrap("execute tool", {}, answer.toolErr)));
    } else {
      var steps := p.steps + [NewStep(p.steps, call, answer.output)];
      MoveAlike(p.(steps := steps), q.(steps := steps), a, b, RunningModel, None, Complete);
    }
  }

  lemma WriteAlike(p: Run, q: Run, a: int, b: int, input: Input)
    requires Alike(p, q, a, b) && p.pc.AtWrite? && Fits(p.pc, input)
    ensures Alike(Advance(p, input), Advance(q, input), a, b)
  {
  }

  /** The same answer keeps two runs alike, provided that the smaller budget also allows
      what the larger one does. */
  lemma AnswerStaysAlike(p: Run, q: Run, a: int, b: int, input: Input)
    requires Alike(p, q, a, b) && a <= b && Fits(p.pc, input)
    requires Spends(Advance(p, input)) ==> q.iterations < q.plan.maxSteps
    ensures Fits(q.pc, input) && Alike(Advance(p, input), Advance(q, input), a, b)
  {
    hide Conclude, OnDecision, OnToolAnswer, Acknowledge, Abandon, IsTransient, Entered;
    if input.CtxRead? && input.ctx.Ended? {
      ConcludeAlike(p, q, a, b, Cancelled, "", Some(input.ctx.cause));
    } else if input.WaitInterrupted? {
      ConcludeAlike(p, q, a, b, Cancelled, "", Some(input.waitCause));
    } else if p.pc.AtWrite? {
      WriteAlike(p, q, a, b, input);
    } else if p.pc.ModelDone? && p.pc.model.Decided? {
      DecisionAlike(p, q, a, b, p.pc.model.decision);
    } else if p.pc.ModelDone? {
      ConcludeAlike(p, q, a, b, Failed, "", Some(Wrap("model step", {}, p.pc.model.modelErr)));
    } else if p.pc.ToolDone? {
      ToolAnswerAlike(p, q, a, b, p.pc.call, p.pc.tool);
    } else if p.pc.LoopHead? {
      ConcludeAlike(p, q, a, b, Failed, "", Some(Sentinel(StepLimitExceeded, "harness step limit exceeded")));
    }
  }

  predicate Spends(run: Run) {
    run.pc.AtWrite? && (run.pc.kind == Reserve || run.pc.kind == Retry)
  }

  /** Losses still to come have their iterations left. */
  lemma {:induction false} LossesFit(run: Run, script: seq<Line>)
    requires Plays(run, script).Some? && Losses(script) > 0
    ensures run.iterations + Losses(script) <= run.plan.maxSteps && !run.pc.Halted?
    decreases |script|
  {
    hide Advance, Fits;
    var rest := script[1..];
    if script[0].Reply? {
      Monotone(run, script[0].input);
      LossesFit(Advance(run, script[0].input), rest);
    } else if Losses(rest) > 0 {
      LossesFit(Lost(run), rest);
    }
  }

  /** Iterations never shrink; they are spent at the loop head and by retries alone. */
  lemma Monotone(run: Run, input: Input)
    requires Fits(run.pc, input)
    ensures Advance(run, input).iterations >= run.iterations && Advance(run, input).plan == run.plan
    ensures !run.pc.Halted?
    ensures Spends(Advance(run, input)) ==>
              if AtRetry(Advance(run, input))
              then run.pc.ModelDone? && run.pc.model.ModelFailed? && input == CtxRead(Live)
              else Advance(run, input).iterations == run.iterations + 1
  {
    hide IsTransient, Conclude, OnDecision, OnToolAnswer;
    ConstantsKept(run, input);
    if input.CtxRead? && input.ctx.Ended? {
      ConcludeSpendsNothing(run, Cancelled, "", Some(input.ctx.cause));
    } else if input.WaitInterrupted? {
      ConcludeSpendsNothing(run, Cancelled, "", Some(input.waitCause));
    } else if run.pc.ModelDone? && run.pc.model.Decided? {
      DecisionSpendsNothing(run, run.pc.model.decision);
    } else if run.pc.ModelDone? {
      ConcludeSpendsNothing(run, Failed, "", Some(Wrap("model step", {}, run.pc.model.modelErr)));
    } else if run.pc.ToolDone? {
      ToolAnswerSpendsNothing(run, run.pc.call, run.pc.tool);
    } else if run.pc.LoopHead? {
      ConcludeSpendsNothing(run, Failed, "", Some(Sentinel(StepLimitExceeded, "harness step limit exceeded")));
    }
  }

  predicate SpendsNothing(run: Run, next: Run) {
    !Spends(next) && next.iterations == run.iterations
  }

  lemma ConcludeSpendsNothing(run: Run, to: Status, output: string, err: Option<Err>)
    ensures SpendsNothing(run, Conclude(run, to, output, err))
  {
  }

  lemma DecisionSpendsNothing(run: Run, d: Decision)
    ensures SpendsNothing(run, OnDecision(run, d))
  {
    hide StepIds, ValidDecision;
  }

  lemma ToolAnswerSpendsNothing(run: Run, call: ToolCall, answer: ToolAnswer)
    ensures SpendsNothing(run, OnToolAnswer(run, call, answer))
  {
  }

  /******* The exact condition *******/

  /** With `b - a` losses still to come, a script on the larger budget and its answers alone
      on the smaller one stay alike to the end if the script is affordable; if it is not,
      its answers do not even fit the run on the smaller budget. */
  lemma {:induction false} LossesAreShifts(p: Run, q: Run, a: int, b: int, script: seq<Line>)
    requires Alike(p, q, a, b) && Tied(p) && Plays(p, script).Some? && b - a == Losses(script)
    ensures var end := AdvanceAll(q, Replies(script));
            if Affordable(p, script) then end.Some? && Alike(Plays(p, script).value, end.value, b, b) else end.None?
    decreases |script|
  {
    hide Advance, Fits, Alike, Tied;
    if script != [] {
      var rest := script[1..];
      if script[0].LoseAttempt? {
        LostStaysAlike(p, q, a, b);
        LossesAreShifts(Lost(p), q, a + 1, b, rest);
        assert Replies(script) == Replies(rest);
      } else {
        var input := script[0].input;
        assert Replies(script) == [input] + Replies(rest) && Replies(script)[1..] == Replies(rest);
        var next := Advance(p, input);
        if AtRetry(next) && p.iterations + Losses(rest) >= p.plan.maxSteps {
          UnaffordableRetry(p, q, a, b, input, rest);
        } else {
          AnswerIsAffordable(p, q, a, b, input, rest);
          AnswerStaysAlike(p, q, a, b, input);
          AdvanceKeepsTied(p, input);
          LossesAreShifts(next, Advance(q, input), a, b, rest);
        }
      }
    }
  }

  lemma AnswerIsAffordable(p: Run, q: Run, a: int, b: int, input: Input, rest: seq<Line>)
    requires Alike(p, q, a, b) && Fits(p.pc, input) && b - a == Losses(rest) && Plays(Advance(p, input), rest).Some?
    requires AtRetry(Advance(p, input)) ==> p.iterations + Losses(rest) < p.plan.maxSteps
    ensures Spends(Advance(p, input)) ==> q.iterations < q.plan.maxSteps
  {
    hide Advance, Fits, Plays;
    Monotone(p, input);
    if Losses(rest) > 0 {
      LossesFit(Advance(p, input), rest);
    } else if Spends(Advance(p, input)) && !AtRetry(Advance(p, input)) {
      ReservationIsWithinBudget(p, input);
    }
  }

  lemma ReservationIsWithinBudget(run: Run, input: Input)
    requires Fits(run.pc, input) && Spends(Advance(run, input))
    ensures run.iterations < run.plan.maxSteps
  {
    hide StepIds, ValidDecision;
  }

  /** Where the larger budget retries and the smaller one is used up, the smaller run fails
      and returns; the next line that the larger one needs finds it stopped. */
  lemma UnaffordableRetry(p: Run, q: Run, a: int, b: int, input: Input, rest: seq<Line>)
    requires Alike(p, q, a, b) && Tied(p) && Fits(p.pc, input)
    requires b - a == Losses(rest) && Plays(Advance(p, input), rest).Some?
    requires AtRetry(Advance(p, input)) && p.iterations + Losses(rest) >= p.plan.maxSteps
    ensures AdvanceAll(q, [input] + Replies(rest)).None?
  {
    hide Advance, Fits, Plays;
    Monotone(p, input);
    ReservationIsWithinBudget(p, input);
    FailsInstead(p, q, a, b, input);
    var failed := Advance(q, input);
    RetryGoesOn(Advance(p, input), rest);
    var acked, waited := rest[0].input, rest[1].input;
    assert Replies(rest) == [acked] + ([waited] + Replies(rest[2..])) by {
      assert rest[1..][1..] == rest[2..];
    }
    var inputs := [input] + Replies(rest);
    assert inputs[1..] == Replies(rest);
    assert AdvanceAll(q, inputs) == AdvanceAll(failed, Replies(rest));
    ReturnedTakesNothing(failed, Replies(rest));
  }

  predicate AtFailure(run: Run) {
    run.pc.AtWrite? && run.pc.kind == Finish
  }

  lemma FailsInstead(p: Run, q: Run, a: int, b: int, input: Input)
    requires Alike(p, q, a, b) && p.pc.ModelDone? && p.pc.model.ModelFailed? && input == CtxRead(Live)
    requires q.iterations >= q.plan.maxSteps && p.exec.status == RunningModel
    ensures Fits(q.pc, input) && AtFailure(Advance(q, input))
  {
  }

  /** A retry followed by a lost attempt is acknowledged and waited for. */
  lemma RetryGoesOn(run: Run, script: seq<Line>)
    requires AtRetry(run) && Plays(run, script).Some? && Losses(script) > 0
    ensures |script| > 1 && script[0] == Reply(WriteAcked) && script[1].Reply?
  {
    hide IsTransient;
    LossesFit(run, script);
    assert script[0].Reply?;
    var next, rest := Advance(run, script[0].input), script[1..];
    LossesFit(next, rest);
    assert next.pc.Waiting?;
  }

  lemma ReturnedTakesNothing(run: Run, inputs: seq<Input>)
    requires AtFailure(run) && |inputs| > 1 && (inputs[0].WriteAcked? || inputs[0].WriteFailed?)
    ensures AdvanceAll(run, inputs).None?
  {
    assert Advance(run, inputs[0]).pc.Halted?;
  }

  /******* Scripts with every kind of crash *******/

  lemma LossesAppend(a: seq<Line>, b: seq<Line>)
    ensures Losses(a + b) == Losses(a) + Losses(b)
  {
    if a == [] {
      assert a + b == b;
    } else {
      assert (a + b)[1..] == a[1..] + b;
      LossesAppend(a[1..], b);
    }
  }

  lemma RepliesLoseNothing(script: seq<Line>)
    requires forall i | 0 <= i < |script| :: script[i].Reply?
    ensures Losses(script) == 0
  {
    if script != [] { RepliesLoseNothing(script[1..]); }
  }

  lemma UninterruptedLosses(cfg: Config, play: Play, line: Line)
    requires CanPlay(cfg, play, line)
    ensures Losses(Uninterrupted(cfg, play, line)) == if line.LoseAttempt? then 1 else 0
  {
    hide Recovered, Valid;
    if line.LoseAttempt? {
      assert [line][1..] == [];
    } else {
      RepliesLoseNothing(Uninterrupted(cfg, play, line));
    }
  }

  /** Taking out the invisible crashes leaves the lost attempts. */
  lemma {:induction false} EraseKeepsLosses(cfg: Config, play: Play, script: seq<Line>)
    requires Perform(cfg, play, script).Some?
    ensures Losses(Erase(cfg, play, script)) == Losses(script)
    decreases |script|
  {
    hide CanPlay, PlayLine, Uninterrupted;
    if script != [] {
      var next := PlayLine(cfg, play, script[0]);
      EraseKeepsLosses(cfg, next, script[1..]);
      LossesAppend(Uninterrupted(cfg, play, script[0]), Erase(cfg, next, script[1..]));
      UninterruptedLosses(cfg, play, script[0]);
    }
  }

  /** A plain script acts on the run alone. */
  lemma {:induction false} PlainActsOnTheRun(cfg: Config, play: Play, script: seq<Line>)
    requires PlaySound(play) && play.p.Executing? && Plain(script) && Perform(cfg, play, script).Some?
    ensures Plays(play.p.run, script).Some?
    ensures Perform(cfg, play, script).value.p == Settle(Plays(play.p.run, script).value)
    decreases |script|
  {
    hide PlaySound, CanPlay, PlayLine;
    if script == [] {
      RunningIsSettled(play);
    } else {
      var next, rest := PlayLine(cfg, play, script[0]), script[1..];
      assert Plain(rest);
      LineIsErasable(cfg, play, script[0]);
      PlainLine(cfg, play, script[0]);
      if next.p.Executing? {
        PlainActsOnTheRun(cfg, next, rest);
      } else {
        StoppedPlaysNothing(cfg, next, rest);
      }
    }
  }

  lemma RunningIsSettled(play: Play)
    requires PlaySound(play) && play.p.Executing?
    ensures Settle(play.p.run) == play.p
  {
  }

  lemma PlainLine(cfg: Config, play: Play, line: Line)
    requires PlaySound(play) && play.p.Executing? && CanPlay(cfg, play, line)
    ensures line.Reply? ==> Fits(play.p.run.pc, line.input)
                            && PlayLine(cfg, play, line).p == Settle(Advance(play.p.run, line.input))
    ensures line.LoseAttempt? ==> CanLose(play.p.run) && PlayLine(cfg, play, line).p == Executing(Lost(play.p.run))
  {
    hide PlaySound, Valid, Advance;
    if line.LoseAttempt? {
      LostAttemptIsSound(cfg, play, line.called);
    }
  }

  lemma StoppedPlaysNothing(cfg: Config, play: Play, script: seq<Line>)
    requires play.p.Stopped? && Perform(cfg, play, script).Some?
    ensures script == []
  {
  }

  /** Any script of answers and crashes of every kind, with `k` attempts lost: taking out
      the invisible crashes changes nothing, and what it then comes to is, up to the shift
      by `k`, what its answers alone come to on a budget smaller by `k`, if it is
      affordable. If it is not, those answers do not fit that run. */
  lemma AllCrashesRefineTheRun(cfg: Config, play: Play, script: seq<Line>)
    requires PlaySound(play) && play.p.Executing? && Perform(cfg, play, script).Some?
    ensures var run, plain, k := play.p.run, Erase(cfg, play, script), Losses(script);
            var frugal := run.(plan := run.plan.(maxSteps := run.plan.maxSteps - k));
            && Perform(cfg, play, plain) == Perform(cfg, play, script)
            && Plays(run, plain).Some?
            && Perform(cfg, play, script).value.p == Settle(Plays(run, plain).value)
            && var end := AdvanceAll(frugal, Replies(plain));
            if Affordable(run, plain) then end.Some? && Alike(Plays(run, plain).value, end.value, k, k) else end.None?
  {
    hide PlaySound, Perform, Erase, Plays, Affordable, AdvanceAll;
    var run, plain, k := play.p.run, Erase(cfg, play, script), Losses(script);
    CrashesRefineTheRun(cfg, play, script);
    PlainActsOnTheRun(cfg, play, plain);
    EraseKeepsLosses(cfg, play, script);
    assert Tied(run) by { PlayIsTied(play); }
    var frugal := run.(plan := run.plan.(maxSteps := run.plan.maxSteps - k));
    LossesAreShifts(run, frugal, 0, k, plain);
  }

  lemma PlayIsTied(play: Play)
    requires PlaySound(play) && play.p.Executing?
    ensures Tied(play.p.run)
  {
    SoundIsTied(play.p.run, play.base);
  }

  /** Unaffordable scripts exist: with two iterations and one retry, the first attempt times
      out, the retry is granted, and its attempt is lost. */
  lemma RetriesCanBeUnaffordable()
    ensures var plan := Plan(Request("id", "prompt"), 2, 1, false);
            var saved := Result("id", RunningModel, "", [], [Transition(Created, RunningModel)]);
            var run := Run(plan, 1, 0, [], Execution(RunningModel, saved.transitions), None, saved,
                           ModelDone(ModelFailed(Sentinel(ModelTimeout, "model callback timeout"))));
            var script := [Reply(CtxRead(Live)), Reply(WriteAcked), Reply(WaitElapsed), LoseAttempt(true)];
            && Tied(run) && Plays(run, script).Some? && !Affordable(run, script)
            && AdvanceAll(run.(plan := plan.(maxSteps := 1)), Replies(script)).None?
  {
    var plan := Plan(Request("id", "prompt"), 2, 1, false);
    var saved := Result("id", RunningModel, "", [], [Transition(Created, RunningModel)]);
    var run := Run(plan, 1, 0, [], Execution(RunningModel, saved.transitions), None, saved,
                   ModelDone(ModelFailed(Sentinel(ModelTimeout, "model callback timeout"))));
    var script := [Reply(CtxRead(Live)), Reply(WriteAcked), Reply(WaitElapsed), LoseAttempt(true)];
    var retrying := Advance(run, CtxRead(Live));
    assert AtRetry(retrying);
    var waiting := Acknowledge(retrying);
    var head := waiting.(pc := LoopHead);
    assert script[1..] == [Reply(WriteAcked), Reply(WaitElapsed), LoseAttempt(true)];
    assert script[1..][1..] == [Reply(WaitElapsed), LoseAttempt(true)];
    assert script[1..][1..][1..] == [LoseAttempt(true)];
    assert script[1..][1..][1..][1..] == [];
    assert Losses([LoseAttempt(true)]) == 1 by { assert [LoseAttempt(true)][1..] == []; }
    assert Losses(script[1..][1..]) == 1;
    assert Losses(script[1..]) == 1;
    assert Plays(head, [LoseAttempt(true)]).Some?;
    assert Plays(waiting, script[1..][1..]).Some?;
    assert Plays(retrying, script[1..]).Some?;
    LossesAreShifts(run, run.(plan := plan.(maxSteps := 1)), 0, 1, script);
  }
}
