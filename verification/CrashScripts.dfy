/** Whole scripts of answers and crashes, played against the process and its last
    acknowledged checkpoint. */
module CrashScripts {
  import opened Domain
  import opened Checkpoints
  import opened RunMachine
  import opened RunInvariant
  import opened Recovery
  import opened Crash

  /** One line of a script: an answer from outside; a crash at a quiet point followed by
      `Resume`; a crash inside a tool, or between its answer and the completion save,
      followed by a `Resume` that gets these answers from the executor's reconciliation
      and replay; or a whole lost attempt, reserved at the loop head and crashed before the
      worker's next acknowledged write, followed by `Resume`. */
  datatype Line =
    | Reply(input: Input)
    | CrashAndResume
    | CrashInTool(outcome: ReconcileAnswer, replay: ToolAnswer)
    | LoseAttempt(called: bool)

  /** A process, its last acknowledged checkpoint, and the store writes and model and
      tool callbacks so far. */
  datatype Play = Play(p: Process, base: Base, effects: seq<Effect>)

  function Visible(effect: Effect): seq<Effect> {
    if effect.Save? || effect.CallModel? || effect.Execute? then [effect] else []
  }

  predicate PlaySound(play: Play) {
    && SoundProcess(play.p, play.base)
    && (play.base != NoBase ==> Resumable(play.base.cp))
    && (play.p.Executing? ==> Startable(play.p.run.plan))
  }

  /** What recovery of the pending call comes to, by reconciliation or by replay. */
  function Recovered(cfg: Config, base: Base, line: Line): Process
    requires base != NoBase && line.CrashInTool?
  {
    Settles(cfg, Resumed(cfg, base), Live, line.outcome, line.replay)
  }

  predicate InsideTool(p: Process) {
    p.Executing? && (p.run.pc.InTool? || (p.run.pc.ToolDone? && p.run.pc.tool.ToolOutput?))
  }

  /** At the loop head, the run that is about to reserve its next attempt. */
  predicate CanReserve(p: Process) {
    p.Executing? && p.run.pc.LoopHead? && p.run.iterations < p.run.plan.maxSteps
  }

  function Reserving(run: Run): (reserving: Run)
    requires CanReserve(Executing(run))
    ensures reserving.pc.AtWrite? && reserving.pc.kind == Reserve
  {
    AtLoopHead(run, Live)
  }

  /** Answers must fit, stores acknowledge only valid checkpoints, a crash inside a tool
      is recovered with some output, which an answered call must have had. */
  predicate CanPlay(cfg: Config, play: Play, line: Line) {
    match line
    case Reply(input) =>
      && Accepts(play.p, input) && !input.Loaded?
      && (AtWritePoint(play.p) && input.WriteAcked? ==> Valid(WriteOf(play.p)))
    case CrashAndResume => Quiet(play.p) && Matches(cfg, play.p.run) && play.base != NoBase
    case CrashInTool(_, _) =>
      && InsideTool(play.p) && Matches(cfg, play.p.run) && play.base != NoBase
      && var restoring := Recovered(cfg, play.base, line);
      && restoring.Restoring? && AtWritePoint(restoring)
      && (play.p.run.pc.ToolDone? ==> restoring.output == play.p.run.pc.tool.output)
    case LoseAttempt(_) =>
      && CanReserve(play.p) && Matches(cfg, play.p.run) && play.base != NoBase
      && Valid(Outgoing(Reserving(play.p.run)))
  }

  function PlayLine(cfg: Config, play: Play, line: Line): Play
    requires CanPlay(cfg, play, line)
  {
    match line
    case Reply(input) =>
      Play(Proceed(cfg, play.p, input), BaseAfter(cfg, play.p, play.base, input),
           play.effects + Visible(ResumeDemand(play.p)))
    case CrashAndResume => play.(p := Resumed(cfg, play.base))
    case CrashInTool(_, _) =>
      var restoring := Recovered(cfg, play.base, line);
      Play(Proceed(cfg, restoring, WriteAcked), AckedBase(Complete, WriteOf(restoring)),
           play.effects + Visible(ResumeDemand(play.p)) + Visible(ResumeDemand(restoring)))
    case LoseAttempt(called) =>
      var reserving := Reserving(play.p.run);
      var base := AckedBase(Reserve, Outgoing(reserving));
      Play(Resumed(cfg, base), base,
           play.effects + Visible(Demand(reserving))
           + (if called then [CallModel(reserving.plan.request.prompt, reserving.steps)] else []))
  }

  /** The answers that complete a call, one more when the tool is still to answer. */
  function Answers(answered: bool, output: string): seq<Line> {
    (if answered then [] else [Reply(ToolReply(ToolOutput(output)))]) + [Reply(CtxRead(Live)), Reply(WriteAcked)]
  }

  /** The same line without the crash: the wait ends, or the tool answers with the
      output that recovery found. A lost attempt remains what it is. */
  function Uninterrupted(cfg: Config, play: Play, line: Line): seq<Line>
    requires CanPlay(cfg, play, line)
  {
    match line
    case Reply(_) => [line]
    case CrashAndResume => if play.p.run.pc.Waiting? then [Reply(WaitElapsed)] else []
    case CrashInTool(_, _) => Answers(play.p.run.pc.ToolDone?, Recovered(cfg, play.base, line).output)
    case LoseAttempt(_) => [line]
  }

  lemma ReplyKeepsSound(cfg: Config, play: Play, input: Input)
    requires PlaySound(play) && CanPlay(cfg, play, Reply(input))
    ensures PlaySound(PlayLine(cfg, play, Reply(input)))
  {
    hide Sound, Valid, Proceed, AfterLoad, Tidy, HasErrorText, Visible;
    if AtWritePoint(play.p) && input.WriteAcked? {
      EveryWriteIsValid(play.p, play.base);
      WriteIsResumable(play.p, play.base);
    }
    ProceedKeepsSound(cfg, play.p, play.base, input);
    StartableKept(cfg, play.p, play.base, input);
  }

  lemma WriteIsResumable(p: Process, base: Base)
    requires SoundProcess(p, base) && AtWritePoint(p) && Valid(WriteOf(p))
    requires base != NoBase ==> Resumable(base.cp)
    ensures Resumable(WriteOf(p)) && Tidy(WriteOf(p))
  {
    WritePointIsWritable(p, base);
    assert WriteOf(p).schemaVersion >= 2;
    ResumableIsTidy(WriteOf(p));
  }

  lemma StartableKept(cfg: Config, p: Process, base: Base, input: Input)
    requires SoundProcess(p, base) && Accepts(p, input) && !input.Loaded?
    requires base != NoBase ==> Resumable(base.cp)
    requires p.Executing? ==> Startable(p.run.plan)
    ensures Proceed(cfg, p, input).Executing? ==> Startable(Proceed(cfg, p, input).run.plan)
  {
    hide Sound, FinalStatus, Recoverable, Advance;
    if p.Executing? {
      ConstantsKept(p.run, input);
    }
  }

  /** A whole script; None when some line cannot be played in its turn. */
  function Perform(cfg: Config, play: Play, script: seq<Line>): Option<Play>
    decreases |script|
  {
    if script == [] then Some(play)
    else if !CanPlay(cfg, play, script[0]) then None
    else Perform(cfg, PlayLine(cfg, play, script[0]), script[1..])
  }

  /** The script with every invisible crash taken out. */
  function Erase(cfg: Config, play: Play, script: seq<Line>): seq<Line>
    decreases |script|
  {
    if script == [] || !CanPlay(cfg, play, script[0]) then script
    else Uninterrupted(cfg, play, script[0]) + Erase(cfg, PlayLine(cfg, play, script[0]), script[1..])
  }

  lemma PerformOne(cfg: Config, play: Play, line: Line)
    requires CanPlay(cfg, play, line)
    ensures Perform(cfg, play, [line]) == Some(PlayLine(cfg, play, line))
  {
    assert [line][1..] == [];
  }

  lemma {:induction false} PerformAppend(cfg: Config, play: Play, a: seq<Line>, b: seq<Line>)
    requires Perform(cfg, play, a).Some?
    ensures Perform(cfg, play, a + b) == Perform(cfg, Perform(cfg, play, a).value, b)
    decreases |a|
  {
    hide CanPlay, PlayLine;
    if a == [] {
      assert a + b == b;
    } else {
      assert (a + b)[1..] == a[1..] + b;
      PerformAppend(cfg, PlayLine(cfg, play, a[0]), a[1..], b);
    }
  }

  lemma QuietLineIsErasable(cfg: Config, play: Play)
    requires PlaySound(play) && CanPlay(cfg, play, CrashAndResume)
    ensures PlaySound(PlayLine(cfg, play, CrashAndResume))
    ensures Perform(cfg, play, Uninterrupted(cfg, play, CrashAndResume)) == Some(PlayLine(cfg, play, CrashAndResume))
  {
    hide Sound, Valid, Proceed, AfterLoad, Startable;
    QuietCrashIsInvisible(cfg, play.p, play.base);
    if play.p.run.pc.Waiting? {
      ReplyKeepsSound(cfg, play, WaitElapsed);
      PerformOne(cfg, play, Reply(WaitElapsed));
      assert play.effects + [] == play.effects;
    }
  }

  lemma PerformTwo(cfg: Config, play: Play, a: Line, b: Line)
    requires CanPlay(cfg, play, a) && CanPlay(cfg, PlayLine(cfg, play, a), b)
    ensures Perform(cfg, play, [a, b]) == Some(PlayLine(cfg, PlayLine(cfg, play, a), b))
  {
    hide CanPlay, PlayLine;
    assert [a, b][1..] == [b];
    PerformOne(cfg, PlayLine(cfg, play, a), b);
  }

  /******* Crashes inside a tool *******/

  lemma CompletionPlays(cfg: Config, play: Play, call: ToolCall, output: string)
    requires play.p.Executing? && play.p.run.pc == ToolDone(call, ToolOutput(output))
    requires var completing := Completing(play.p.run, call, output);
             completing.pc.AtWrite? && Valid(Outgoing(completing))
    ensures var completing := Completing(play.p.run, call, output);
            Perform(cfg, play, [Reply(CtxRead(Live)), Reply(WriteAcked)]) ==
            Some(Play(Settle(Acknowledge(completing)), AckedBase(completing.pc.kind, Outgoing(completing)),
                      play.effects + [Demand(completing)]))
  {
    hide Valid, Outgoing, OnToolAnswer, Acknowledge;
    var completing := Completing(play.p.run, call, output);
    assert play.p.run == Answered(play.p.run, call, output);
    var next := play.(p := Executing(completing));
    assert PlayLine(cfg, play, Reply(CtxRead(Live))) == next by { assert play.effects + [] == play.effects; }
    PerformTwo(cfg, play, Reply(CtxRead(Live)), Reply(WriteAcked));
  }

  lemma AnswersPlay(cfg: Config, play: Play, call: ToolCall, output: string)
    requires play.p.Executing? && play.p.run.pc in {InTool(call), ToolDone(call, ToolOutput(output))}
    requires var completing := Completing(play.p.run, call, output);
             completing.pc.AtWrite? && Valid(Outgoing(completing))
    ensures var completing := Completing(play.p.run, call, output);
            Perform(cfg, play, Answers(play.p.run.pc.ToolDone?, output)) ==
            Some(Play(Settle(Acknowledge(completing)), AckedBase(completing.pc.kind, Outgoing(completing)),
                      play.effects + Visible(ResumeDemand(play.p)) + [Demand(completing)]))
  {
    hide Valid, Outgoing, OnToolAnswer, Acknowledge;
    var run, rest := play.p.run, [Reply(CtxRead(Live)), Reply(WriteAcked)];
    if run.pc.InTool? {
      var first := Reply(ToolReply(ToolOutput(output)));
      var next := Play(Executing(Answered(run, call, output)), play.base, play.effects + [Execute(call)]);
      assert PlayLine(cfg, play, first) == next;
      CompletionPlays(cfg, next, call, output);
      assert Answers(false, output)[1..] == rest;
    } else {
      CompletionPlays(cfg, play, call, output);
      assert Answers(true, output) == rest;
      assert play.effects + [] == play.effects;
    }
  }

  lemma RestoredIsSound(cfg: Config, cp: Checkpoint, output: string, effects: seq<Effect>)
    requires Resumable(cp) && cp.result.status == RunningTool && cp.pendingTool.Some?
    ensures var restoring := Restoring(cp, output);
            && Valid(WriteOf(restoring))
            && PlaySound(Play(Proceed(cfg, restoring, WriteAcked), AckedBase(Complete, WriteOf(restoring)), effects))
  {
    hide Restored, FinalStatus, Recoverable, Sound, Tidy, Stamp, Revision;
    RestoredIsValid(cp, output);
    ResumableIsTidy(Stamp(Restored(cp, output)));
    RestoredLaunches(cfg, cp, output);
  }

  lemma ToolLineIsErasable(cfg: Config, play: Play, line: Line)
    requires PlaySound(play) && line.CrashInTool? && CanPlay(cfg, play, line)
    ensures PlaySound(PlayLine(cfg, play, line))
    ensures Perform(cfg, play, Uninterrupted(cfg, play, line)) == Some(PlayLine(cfg, play, line))
  {
    hide Sound, Resumable, Settles, AfterLoad, Outgoing, Advance, Proceed, Startable, Valid, WriteOf, Perform, Demand,
         Answers;
    var run, base, output := play.p.run, play.base, Recovered(cfg, play.base, line).output;
    ToolCrashIsInvisible(cfg, run, base, run.pc.call, output, line.outcome, line.replay);
    RestoredIsSound(cfg, base.cp, output, PlayLine(cfg, play, line).effects);
    AnswersPlay(cfg, play, run.pc.call, output);
  }

  /******* Lost attempts *******/

  /** The loop head after a lost attempt: one iteration more, and the last saved result is
      that of the reservation. */
  function Lost(run: Run): Run {
    run.(iterations := run.iterations + 1, lastSaved := Snapshot(run, ""))
  }

  const RESERVATION := [Reply(CtxRead(Live)), Reply(WriteAcked)]

  /** The two answers of a reservation, up to the context check before the model call. */
  lemma ReservationPlays(cfg: Config, play: Play, called: bool)
    requires PlaySound(play) && CanPlay(cfg, play, LoseAttempt(called))
    ensures var reserved := Lost(play.p.run).(pc := Reserved);
            var end := Play(Executing(reserved), PlayLine(cfg, play, LoseAttempt(called)).base,
                            play.effects + [Demand(Reserving(play.p.run))]);
            Perform(cfg, play, RESERVATION) == Some(end) && PlaySound(end)
  {
    hide Sound, Valid, AfterLoad, Outgoing, Resumable, Startable;
    var reserving := Reserving(play.p.run);
    var second := play.(p := Executing(reserving));
    assert PlayLine(cfg, play, RESERVATION[0]) == second by { assert play.effects + [] == play.effects; }
    ReplyKeepsSound(cfg, play, CtxRead(Live));
    ReplyKeepsSound(cfg, second, WriteAcked);
    PerformTwo(cfg, play, RESERVATION[0], RESERVATION[1]);
  }

  lemma LostAttemptIsSound(cfg: Config, play: Play, called: bool)
    requires PlaySound(play) && CanPlay(cfg, play, LoseAttempt(called))
    ensures PlaySound(PlayLine(cfg, play, LoseAttempt(called)))
    ensures PlayLine(cfg, play, LoseAttempt(called)).p == Executing(Lost(play.p.run))
  {
    hide Sound, Valid, AfterLoad, Outgoing, Resumable, Perform;
    ReservationPlays(cfg, play, called);
    var reserved := Lost(play.p.run).(pc := Reserved);
    ReservationResumes(cfg, reserved, PlayLine(cfg, play, LoseAttempt(called)).base);
    assert reserved.(pc := LoopHead) == Lost(play.p.run);
  }

  /** A lost attempt stands for every crash after its reservation: whatever answers follow,
      as long as none acknowledges a further write, resuming comes to the same. */
  lemma LostAttemptIsACrash(cfg: Config, play: Play, called: bool, more: seq<Line>)
    requires PlaySound(play) && CanPlay(cfg, play, LoseAttempt(called))
    requires forall i | 0 <= i < |more| :: more[i].Reply? && !more[i].input.WriteAcked?
    requires Perform(cfg, play, RESERVATION + more).Some?
    ensures var end := Perform(cfg, play, RESERVATION + more).value;
            && end.base == PlayLine(cfg, play, LoseAttempt(called)).base
            && Resumed(cfg, end.base) == PlayLine(cfg, play, LoseAttempt(called)).p
  {
    hide PlaySound, CanPlay;
    ReservationPlays(cfg, play, called);
    PerformAppend(cfg, play, RESERVATION, more);
    UnacknowledgedKeepsBase(cfg, Perform(cfg, play, RESERVATION).value, more);
  }

  lemma {:induction false} UnacknowledgedKeepsBase(cfg: Config, play: Play, lines: seq<Line>)
    requires forall i | 0 <= i < |lines| :: lines[i].Reply? && !lines[i].input.WriteAcked?
    requires Perform(cfg, play, lines).Some?
    ensures Perform(cfg, play, lines).value.base == play.base
    decreases |lines|
  {
    hide Accepts, Proceed, Valid;
    if lines != [] {
      UnacknowledgedKeepsBase(cfg, PlayLine(cfg, play, lines[0]), lines[1..]);
    }
  }

  /******* Whole scripts *******/

  /** A crash line, with the checkpoints it writes and the callbacks it makes, comes to
      exactly its uninterrupted form. */
  lemma LineIsErasable(cfg: Config, play: Play, line: Line)
    requires PlaySound(play) && CanPlay(cfg, play, line)
    ensures PlaySound(PlayLine(cfg, play, line))
    ensures Perform(cfg, play, Uninterrupted(cfg, play, line)) == Some(PlayLine(cfg, play, line))
  {
    hide PlaySound, CanPlay, PlayLine;
    match line
    case Reply(input) =>
      ReplyKeepsSound(cfg, play, input);
      PerformOne(cfg, play, line);
    case CrashAndResume => QuietLineIsErasable(cfg, play);
    case CrashInTool(_, _) => ToolLineIsErasable(cfg, play, line);
    case LoseAttempt(called) =>
      LostAttemptIsSound(cfg, play, called);
      PerformOne(cfg, play, line);
  }

  /** A script in which only lost attempts are left of all crashes. */
  predicate Plain(script: seq<Line>) {
    forall i | 0 <= i < |script| :: script[i].Reply? || script[i].LoseAttempt?
  }

  /** For every script with any number of crashes, the script without those at quiet points
      and inside tools reaches the same process and the same stored checkpoint through the
      same writes and callbacks in the same order. */
  lemma {:induction false} CrashesRefineTheRun(cfg: Config, play: Play, script: seq<Line>)
    requires PlaySound(play) && Perform(cfg, play, script).Some?
    ensures Plain(Erase(cfg, play, script))
    ensures Perform(cfg, play, Erase(cfg, play, script)) == Perform(cfg, play, script)
    decreases |script|
  {
    hide PlaySound, CanPlay, PlayLine;
    if script != [] {
      LineIsErasable(cfg, play, script[0]);
      var next := PlayLine(cfg, play, script[0]);
      CrashesRefineTheRun(cfg, next, script[1..]);
      PerformAppend(cfg, play, Uninterrupted(cfg, play, script[0]), Erase(cfg, next, script[1..]));
    }
  }
}
