/** The invariant of `Fleet` holds in every reachable state. */
module FleetProof {
  import opened Domain
  import opened Checkpoints
  import opened RunMachine
  import opened RunInvariant
  import opened Recovery
  import opened LeaseStore
  import opened Fleet

  /** A worker that does nothing itself keeps its invariant, provided nobody writes or
      acquires while it holds the newest token and nobody uses its writes. */
  lemma BystanderKeeps(s: System, s': System, u: nat)
    requires u in s.workers && u in s'.workers && s'.workers[u] == s.workers[u]
    requires WorkerInvariant(s, u) && s'.id == s.id
    requires s.history <= s'.history && s.calls <= s'.calls
    requires s.slot.lastToken <= s'.slot.lastToken
    requires u == s'.slot.lastToken ==>
               s'.slot.record == s.slot.record && s'.history == s.history && s'.slot.lastToken == s.slot.lastToken
    requires forall k | |s.calls| <= k < |s'.calls| ::
               s'.calls[k].at < |s.history| && s.history[s'.calls[k].at].token != u
    ensures WorkerInvariant(s', u)
  {
    hide Resumable, SoundAtWrite, Tidy, Writable, WriteOf, ValidIffText;
    var w := s.workers[u];
    assert Recorded(s', u, w);
    if w.outbox.Landed? {
      assert Unused(s', w.outbox.at);
    }
    if w.p.Executing? && (w.p.run.pc.Reserved? || w.p.run.pc.Intended?) {
      assert w.base.AckedBase?;
      assert Unused(s', w.at);
    }
  }

  /** A longer history that leaves the old entries alone keeps their links. */
  lemma LinksKept(s: System, s': System, i: nat)
    requires i < |s.history| && Linked(s, i)
    requires s'.id == s.id && s'.seed == s.seed && s.history <= s'.history
    ensures Linked(s', i)
  {
    hide Resumable, Successor, IsFirst;
    assert s'.history[i] == s.history[i];
    if i > 0 { assert s'.history[i - 1] == s.history[i - 1]; }
  }

  /** Actions that leave history and record alone. */
  lemma QuietHistoryKeeps(s: System, s': System)
    requires HistoryInvariant(s)
    requires s'.id == s.id && s'.seed == s.seed && s'.history == s.history
    requires s'.slot.record == s.slot.record && SlotInvariant(s'.slot) && s.slot.lastToken <= s'.slot.lastToken
    ensures HistoryInvariant(s')
  {
    hide Linked, Resumable;
    forall i | 0 <= i < |s'.history| ensures Linked(s', i) { LinksKept(s, s', i); }
  }

  /******* One lemma per action *******/

  lemma HireKeeps(s: System, now: int, cfg: Config, p: Process)
    requires Invariant(s) && Acquire(s.slot, now, s.duration).1.Granted?
    requires p == Loading(s.id)
             || (p.Executing? && p == Executing(Begin(p.run.plan)) && Startable(p.run.plan)
                 && p.run.plan.request.executionId == s.id)
    ensures Invariant(Hire(s, now, cfg, p))
  {
    hide Linked, Resumable;
    var s' := Hire(s, now, cfg, p);
    TokensGrow(s.slot, now, s.duration);
    QuietHistoryKeeps(s, s');
    forall u | u in s'.workers ensures WorkerInvariant(s', u) {
      if u != s'.slot.lastToken { BystanderKeeps(s, s', u); }
    }
  }

  /** An action of one worker on itself alone. */
  lemma OwnWorkerKeeps(s: System, s': System, token: nat)
    requires Invariant(s) && token in s.workers && token in s'.workers
    requires s' == WithWorker(s, token, s'.workers[token]).(slot := s'.slot)
    requires s'.slot.record == s.slot.record && s'.slot.lastToken == s.slot.lastToken && SlotInvariant(s'.slot)
    requires WorkerInvariant(s', token)
    ensures Invariant(s')
  {
    hide WorkerInvariant, Linked, Resumable, SoundProcess;
    QuietHistoryKeeps(s, s');
    forall u | u in s'.workers ensures WorkerInvariant(s', u) {
      if u != token { BystanderKeeps(s, s', u); }
    }
  }

  lemma LeaseActionKeeps(s: System, a: Action)
    requires Invariant(s) && (a.RenewLease? || a.ReleaseLease?)
    ensures Invariant(Act(s, a))
  {
    hide WorkerInvariant, Linked, Resumable, SoundProcess;
    var s' := Act(s, a);
    QuietHistoryKeeps(s, s');
    forall u | u in s'.workers ensures WorkerInvariant(s', u) { BystanderKeeps(s, s', u); }
  }

  lemma SubmitKeeps(s: System, token: nat)
    requires Invariant(s) && Enabled(s, Submit(token))
    ensures Invariant(Act(s, Submit(token)))
  {
    hide Linked, Resumable, SoundProcess, Writable, WriteOf, KindOf, ValidIffText, Startable;
    var s', w := Act(s, Submit(token)), s.workers[token];
    WritePointIsOurs(s, w);
    assert WorkerInvariant(s, token);
    assert WorkerInvariant(s', token);
    OwnWorkerKeeps(s, s', token);
  }

  /** The context and whether it lives are not part of what a worker must keep. */
  lemma ChangedContextKeeps(s: System, token: nat, ctx: Ctx, alive: bool)
    requires Invariant(s) && token in s.workers
    ensures Invariant(WithWorker(s, token, s.workers[token].(ctx := ctx, alive := alive)))
  {
    hide Linked, Resumable, SoundProcess, Writable, WriteOf, KindOf, ValidIffText, Startable;
    var s' := WithWorker(s, token, s.workers[token].(ctx := ctx, alive := alive));
    assert WorkerInvariant(s, token);
    assert WorkerInvariant(s', token);
    OwnWorkerKeeps(s, s', token);
  }

  lemma WritePointIsOurs(s: System, w: Worker)
    requires Grounded(s, w) && AtWritePoint(w.p)
    ensures Writable(KindOf(w.p), w.base, WriteOf(w.p)) && WriteOf(w.p).executionId == s.id
    ensures ValidIffText(WriteOf(w.p))
  {
    hide FinalStatus, Recoverable;
    WritePointIsWritable(w.p, w.base);
    EveryWriteIsValid(w.p, w.base);
  }

  lemma WriteErrorKeeps(s: System, token: nat, err: Err)
    requires Invariant(s) && Enabled(s, WriteError(token, err))
    ensures Invariant(Act(s, WriteError(token, err)))
  {
    hide Linked, Resumable, Sound, Writable, ValidIffText, Proceed, WriteOf, Startable;
    var s' := Act(s, WriteError(token, err));
    var w := s.workers[token];
    assert WorkerInvariant(s, token);
    ProceedKeepsSound(w.cfg, w.p, w.base, WriteFailed(err));
    WriteErrorStops(w.cfg, w.p, err);
    assert WorkerInvariant(s', token);
    OwnWorkerKeeps(s, s', token);
  }

  lemma WriteErrorStops(cfg: Config, p: Process, err: Err)
    requires AtWritePoint(p)
    ensures Proceed(cfg, p, WriteFailed(err)).Stopped?
  {
  }

  lemma AcknowledgedKeeps(s: System, token: nat)
    requires Invariant(s) && Enabled(s, Acknowledged(token))
    ensures Invariant(Act(s, Acknowledged(token)))
  {
    hide Resumable, Sound, Successor, Proceed, Tidy, Writable, WriteOf, HoldsLoaded, Startable;
    var s' := Act(s, Acknowledged(token));
    var w, w' := s.workers[token], s'.workers[token];
    assert WorkerInvariant(s, token);
    assert Linked(s, w.outbox.at);
    ResumableIsTidy(w.outbox.cp);
    ProceedKeepsSound(w.cfg, w.p, w.base, WriteAcked);
    AcknowledgedPlan(w.cfg, w.p, s.id);
    assert Grounded(s', w');
    assert WorkerInvariant(s', token);
    OwnWorkerKeeps(s, s', token);
  }

  lemma AcknowledgedPlan(cfg: Config, p: Process, id: string)
    requires AtWritePoint(p) && Resumable(WriteOf(p)) && WriteOf(p).executionId == id
    requires p.Executing? ==> Startable(p.run.plan) && p.run.plan.request.executionId == id
    ensures var p' := Proceed(cfg, p, WriteAcked);
            && !p'.Loading? && !Recovering(p')
            && (p'.Executing? ==> Startable(p'.run.plan) && p'.run.plan.request.executionId == id)
  {
    if p.Executing? { ConstantsKept(p.run, WriteAcked); }
  }

  /******* A write lands *******/

  /** Only the holder of the newest token can get a write into the store. */
  lemma OnlyTheNewestLands(s: System, token: nat, now: int)
    requires SlotInvariant(s.slot) && Enabled(s, Land(token, now))
    ensures token == s.slot.lastToken
    ensures var w, s' := s.workers[token], Act(s, Land(token, now));
            && Valid(w.outbox.cp)
            && s'.slot == s.slot.(record := Some(w.outbox.cp))
            && (w.outbox.kind == Create ==> s.slot.record.None?)
  {
  }

  lemma LandedIsLinked(s: System, token: nat, now: int)
    requires Invariant(s) && Enabled(s, Land(token, now))
    ensures Linked(Act(s, Land(token, now)), |s.history|)
  {
    hide Resumable, SoundProcess, Successor, IsFirst;
    var s' := Act(s, Land(token, now));
    var w, n := s.workers[token], |s.history|;
    assert WorkerInvariant(s, token);
    OnlyTheNewestLands(s, token, now);
    assert Before(s', n) == Before(s, n) by {
      if n > 0 { assert s'.history[n - 1] == s.history[n - 1]; }
    }
    if w.outbox.kind != Create {
      assert IsReserved(w.base) ==> AfterReservation(s', n);
      ReservationWeakens(w.outbox.kind, IsReserved(w.base), AfterReservation(s', n), w.base.cp, w.outbox.cp);
    }
    WritableIsResumable(w.outbox.kind, w.base, w.outbox.cp);
  }

  /** What lands is a record that recovery understands. */
  lemma WritableIsResumable(kind: WriteKind, base: Base, cp: Checkpoint)
    requires Writable(kind, base, cp) && Valid(cp) && (base != NoBase ==> Resumable(base.cp))
    ensures Resumable(cp)
  {
    hide Valid;
  }

  lemma ReservationWeakens(kind: WriteKind, strong: bool, weak: bool, prev: Checkpoint, next: Checkpoint)
    requires Successor(kind, strong, prev, next) && (strong ==> weak)
    ensures Successor(kind, weak, prev, next)
  {
  }

  lemma LandingKeepsHistory(s: System, token: nat, now: int)
    requires Invariant(s) && Enabled(s, Land(token, now))
    ensures HistoryInvariant(Act(s, Land(token, now))) && CallInvariant(Act(s, Land(token, now)))
  {
    hide Resumable, Successor, Grounded, OutboxInvariant, Writable;
    var s' := Act(s, Land(token, now));
    OnlyTheNewestLands(s, token, now);
    LandedIsLinked(s, token, now);
    forall i | 0 <= i < |s'.history| ensures Linked(s', i) {
      if i < |s.history| { LinksKept(s, s', i); }
    }
    assert TokensOrdered(s'.history, s'.slot.lastToken);
  }

  lemma LandKeeps(s: System, token: nat, now: int)
    requires Invariant(s) && Enabled(s, Land(token, now))
    ensures Invariant(Act(s, Land(token, now)))
  {
    hide WorkerInvariant, Linked, Resumable, SoundProcess;
    var s' := Act(s, Land(token, now));
    OnlyTheNewestLands(s, token, now);
    LandingKeepsHistory(s, token, now);
    forall u | u in s'.workers ensures WorkerInvariant(s', u) {
      if u != token { BystanderKeeps(s, s', u); } else { LandKeepsWriter(s, token, now); }
    }
  }

  lemma LandKeepsWriter(s: System, token: nat, now: int)
    requires Invariant(s) && Enabled(s, Land(token, now))
    ensures WorkerInvariant(Act(s, Land(token, now)), token)
  {
    hide Linked, Resumable, SoundProcess, Writable, ValidIffText;
    var s' := Act(s, Land(token, now));
    OnlyTheNewestLands(s, token, now);
    assert WorkerInvariant(s, token);
    assert Unused(s', |s.history|);
    assert s'.history[|s.history|] == Entry(token, s.workers[token].outbox.kind, s.workers[token].outbox.cp);
  }

  /******* A process step *******/

  /** A callback starts exactly from the context check that follows its write. */
  lemma CallbacksFollowChecks(run: Run, input: Input)
    requires Fits(run.pc, input) && !run.pc.AtWrite?
    ensures var pc := Advance(run, input).pc;
            && !pc.Reserved? && !pc.Intended?
            && (pc.InModel? ==>
                  run.pc.Reserved? && input == CtxRead(Live) && Advance(run, input) == run.(pc := InModel))
            && (pc.InTool? ==>
                  run.pc == Intended(pc.call) && input == CtxRead(Live) && Advance(run, input) == run.(pc := pc))
  {
    hide Conclude, OnDecision, OnModelError, OnToolAnswer, AtLoopHead;
    if input.CtxRead? && input.ctx.Ended? {
      ConcludeParks(run, Cancelled, "", Some(input.ctx.cause));
    } else if input.WaitInterrupted? {
      ConcludeParks(run, Cancelled, "", Some(input.waitCause));
    } else if run.pc.ModelDone? {
      if run.pc.model.Decided? { DecisionParks(run, run.pc.model.decision); }
      else { ModelErrorParks(run, run.pc.model.modelErr); }
    } else if run.pc.ToolDone? {
      ToolAnswerParks(run, run.pc.call, run.pc.tool);
    }
    if run.pc.LoopHead? { LoopHeadParks(run, input.ctx); }
  }

  lemma StepKeepsPlan(cfg: Config, p: Process, input: Input, id: string)
    requires Accepts(p, input) && !AtWritePoint(p)
    requires p.Executing? ==> Startable(p.run.plan) && p.run.plan.request.executionId == id
    requires p.Loading? ==> p.id == id
    requires input.Loaded? ==> Resumable(input.record) && input.record.executionId == id
    ensures var p' := Proceed(cfg, p, input);
            && !p'.Loading?
            && (p'.Executing? ==> Startable(p'.run.plan) && p'.run.plan.request.executionId == id)
  {
    hide FinalStatus, Recoverable, Advance, OnOutcome, OnReplay;
    if p.Executing? { ConstantsKept(p.run, input); } else if Recovering(p) { RecoveryHoldsRecord(cfg, p, input); }
  }

  lemma StepKeepsGrounded(s: System, token: nat, input: Input)
    requires Invariant(s) && Enabled(s, StepProcess(token, input))
    ensures Grounded(s, Act(s, StepProcess(token, input)).workers[token])
  {
    hide Linked, Resumable, Sound, Tidy, Proceed, AfterLoad, HoldsLoaded, Fresh, OutboxInvariant, Recorded;
    var w := s.workers[token];
    assert WorkerInvariant(s, token);
    RecordIsOurs(s);
    ProceedKeepsSound(w.cfg, w.p, w.base, input);
    StepKeepsPlan(w.cfg, w.p, input, s.id);
  }

  lemma RecordIsOurs(s: System)
    requires HistoryInvariant(s)
    ensures s.slot.record.Some? ==> Resumable(s.slot.record.value) && s.slot.record.value.executionId == s.id
  {
    hide Resumable;
    if |s.history| > 0 { assert Linked(s, |s.history| - 1); }
  }

  /** A callback starts only from an acknowledged write that announced exactly it. */
  lemma CallFollowsWrite(cfg: Config, p: Process, base: Base, token: nat, at: nat, input: Input)
    requires SoundProcess(p, base) && Accepts(p, input) && !AtWritePoint(p)
    requires StartsCallback(Proceed(cfg, p, input))
    ensures p.Executing? && (p.run.pc.Reserved? || p.run.pc.Intended?)
    ensures base.AckedBase?
    ensures CallMatches(Call(token, at, ResumeDemand(Proceed(cfg, p, input))), Entry(token, base.kind, base.cp))
  {
    hide Resumable, Tidy, Outgoing, Valid, Advance, SoundAtWrite, SoundHalted, AfterLoad, OnOutcome, OnReplay;
    if p.Executing? {
      CallbacksFollowChecks(p.run, input);
    } else {
      OnlyRunsCallOut(cfg, p, input);
    }
  }

  /** Loading and recovery call neither the model nor `Execute`: they lead to the loop head. */
  lemma OnlyRunsCallOut(cfg: Config, p: Process, input: Input)
    requires Accepts(p, input) && !p.Executing?
    ensures Proceed(cfg, p, input).Executing? ==> Proceed(cfg, p, input).run.pc.LoopHead?
    ensures !StartsCallback(Proceed(cfg, p, input))
  {
    hide Valid, OnOutcome, OnReplay, Stamp, Restored;
    if Recovering(p) && !(p.Restoring? && input.WriteAcked?) { RecoveryHoldsRecord(cfg, p, input); }
  }

  lemma CallIsAnnounced(s: System, token: nat, input: Input)
    requires Invariant(s) && Enabled(s, StepProcess(token, input))
    ensures var w := s.workers[token];
            var p' := Proceed(w.cfg, w.p, input);
            StartsCallback(p') ==>
              && w.base.AckedBase? && w.at < |s.history| && Unused(s, w.at)
              && CallMatches(Call(token, w.at, ResumeDemand(p')), s.history[w.at])
  {
    hide Linked, Resumable, SoundProcess, OutboxInvariant, Proceed, StartsCallback, CallMatches, ResumeDemand,
         CallInvariant;
    var w := s.workers[token];
    assert WorkerInvariant(s, token);
    if StartsCallback(Proceed(w.cfg, w.p, input)) {
      CallFollowsWrite(w.cfg, w.p, w.base, token, w.at, input);
    }
  }

  lemma StepKeepsCalls(s: System, token: nat, input: Input)
    requires Invariant(s) && Enabled(s, StepProcess(token, input))
    ensures CallInvariant(Act(s, StepProcess(token, input)))
  {
    hide Linked, Resumable, Proceed, BaseAfter, CallMatches, WorkerInvariant;
    CallIsAnnounced(s, token, input);
  }

  /** A step leaves no new write behind and starts no second callback. */
  lemma StepShape(cfg: Config, p: Process, input: Input)
    requires Accepts(p, input) && !AtWritePoint(p)
    ensures var p' := Proceed(cfg, p, input);
            p'.Executing? ==> !p'.run.pc.Reserved? && !p'.run.pc.Intended?
  {
    hide Advance, AfterLoad, OnOutcome, OnReplay, Launch;
    if p.Executing? { CallbacksFollowChecks(p.run, input); } else { OnlyRunsCallOut(cfg, p, input); }
  }

  /** The base moves by a step only from nothing to the record loaded. */
  lemma StepBase(cfg: Config, p: Process, base: Base, input: Input)
    requires Accepts(p, input) && !AtWritePoint(p) && SoundProcess(p, base)
    ensures BaseAfter(cfg, p, base, input) == base
            || (input.Loaded? && BaseAfter(cfg, p, base, input) == LoadedBase(input.record))
  {
    hide Proceed, Sound;
  }

  lemma StepKeepsWorker(s: System, token: nat, input: Input)
    requires Invariant(s) && Enabled(s, StepProcess(token, input))
    ensures WorkerInvariant(Act(s, StepProcess(token, input)), token)
  {
    hide Linked, Resumable, SoundProcess, Proceed, Writable, BaseAfter, Startable;
    var s' := Act(s, StepProcess(token, input));
    var w := s.workers[token];
    assert WorkerInvariant(s, token);
    StepKeepsGrounded(s, token, input);
    StepShape(w.cfg, w.p, input);
    StepBase(w.cfg, w.p, w.base, input);
    assert w.outbox.Idle?;
    assert Grounded(s', s'.workers[token]);
  }

  lemma StepKeeps(s: System, token: nat, input: Input)
    requires Invariant(s) && Enabled(s, StepProcess(token, input))
    ensures Invariant(Act(s, StepProcess(token, input)))
  {
    hide Linked, Resumable, SoundProcess, Proceed, BaseAfter, CallMatches, WorkerInvariant;
    var s' := Act(s, StepProcess(token, input));
    QuietHistoryKeeps(s, s');
    StepKeepsCalls(s, token, input);
    StepKeepsWorker(s, token, input);
    CallIsAnnounced(s, token, input);
    forall u | u in s'.workers ensures WorkerInvariant(s', u) {
      if u != token { StepKeepsOther(s, token, input, u); }
    }
  }

  lemma StepKeepsOther(s: System, token: nat, input: Input, u: nat)
    requires Invariant(s) && Enabled(s, StepProcess(token, input)) && u in s.workers && u != token
    ensures WorkerInvariant(Act(s, StepProcess(token, input)), u)
  {
    hide Linked, Resumable, SoundProcess, Proceed, BaseAfter, WorkerInvariant;
    CallIsAnnounced(s, token, input);
    BystanderKeeps(s, Act(s, StepProcess(token, input)), u);
  }

  /******* Every reachable state *******/

  lemma ActKeeps(s: System, a: Action)
    requires Invariant(s) && Enabled(s, a)
    ensures Invariant(Act(s, a))
  {
    hide Invariant, Act;
    match a
    case StartRun(plan, cfg, now) => StartKeeps(s, a);
    case StartResume(cfg, now) => StartKeeps(s, a);
    case StepProcess(token, input) => StepKeeps(s, token, input);
    case Land(token, now) => LandKeeps(s, token, now);
    case Acknowledged(token) => AcknowledgedKeeps(s, token);
    case WriteError(token, err) => WriteErrorKeeps(s, token, err);
    case RenewLease(_, _) => LeaseActionKeeps(s, a);
    case ReleaseLease(_) => LeaseActionKeeps(s, a);
    case Submit(token) => SubmitKeeps(s, token);
    case EndContext(_, _) => ContextActionKeeps(s, a);
    case CrashWorker(_) => ContextActionKeeps(s, a);
  }

  lemma ContextActionKeeps(s: System, a: Action)
    requires Invariant(s) && Enabled(s, a) && (a.EndContext? || a.CrashWorker?)
    ensures Invariant(Act(s, a))
  {
    hide Invariant;
    var w := s.workers[a.token];
    ChangedContextKeeps(s, a.token, if a.EndContext? then Ended(a.cause) else w.ctx, w.alive && a.EndContext?);
  }

  lemma StartKeeps(s: System, a: Action)
    requires Invariant(s) && Enabled(s, a) && (a.StartRun? || a.StartResume?)
    ensures Invariant(Act(s, a))
  {
    hide Invariant;
    if a.StartRun? { HireKeeps(s, a.now, a.cfg, Executing(Begin(a.plan))); }
    else { HireKeeps(s, a.now, a.cfg, Loading(s.id)); }
  }

  lemma {:induction false} RunKeeps(s: System, actions: seq<Action>)
    requires Invariant(s) && ActAll(s, actions).Some?
    ensures Invariant(ActAll(s, actions).value)
    decreases |actions|
  {
    hide Invariant, Act;
    if actions != [] {
      ActKeeps(s, actions[0]);
      RunKeeps(Act(s, actions[0]), actions[1..]);
    }
  }

  /** Every state that any run of any fleet reaches satisfies the invariant. */
  lemma ReachableIsInvariant(s: System, actions: seq<Action>)
    requires Initial(s) && ActAll(s, actions).Some?
    ensures Invariant(ActAll(s, actions).value)
  {
    hide ActAll;
    assert Invariant(s);
    RunKeeps(s, actions);
  }
}
