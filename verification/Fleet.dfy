/** Any number of workers on one execution: they acquire leases, run, crash, lose
    leases, are taken over and resume, in any interleaving and at any clock values.
    A write is sent, may land in the store at any later moment (even after its
    worker saw an error or died), and may be acknowledged once it has landed. */
module Fleet {
  import opened Domain
  import opened Checkpoints
  import opened RunMachine
  import opened RunInvariant
  import opened Recovery
  import opened LeaseStore

  /** The one checkpoint write a worker can have under way. */
  datatype Outbox = Idle | Sent(kind: WriteKind, cp: Checkpoint) | Landed(kind: WriteKind, cp: Checkpoint, at: nat)

  /** `base` is the last checkpoint the worker loaded or had acknowledged; `at` is
      the place of an acknowledged one in the history. */
  datatype Worker = Worker(cfg: Config, ctx: Ctx, p: Process, base: Base, at: nat, outbox: Outbox, alive: bool)

  /** One write that reached the store. */
  datatype Entry = Entry(token: nat, kind: WriteKind, cp: Checkpoint)

  /** One start of a model callback or of `Execute`, with the acknowledged write
      that the worker relied on. */
  datatype Call = Call(token: nat, at: nat, effect: Effect)

  /** Workers are known by their tokens. `seed` is the record the execution already
      had, None when it begins with `Run`. */
  datatype System = System(
    id: string,
    duration: int,
    seed: Option<Checkpoint>,
    slot: Slot,
    workers: map<nat, Worker>,
    history: seq<Entry>,
    calls: seq<Call>)

  datatype Action =
    | StartRun(plan: Plan, cfg: Config, now: int)
    | StartResume(cfg: Config, now: int)
    | StepProcess(token: nat, input: Input)
    | Submit(token: nat)
    | Land(token: nat, now: int)
    | Acknowledged(token: nat)
    | WriteError(token: nat, err: Err)
    | EndContext(token: nat, cause: Err)
    | RenewLease(token: nat, now: int)
    | ReleaseLease(token: nat)
    | CrashWorker(token: nat)

  /** A fresh execution, or one with a stored record, before any worker comes. */
  predicate Initial(s: System) {
    && s.id != "" && s.workers == map[] && s.history == [] && s.calls == []
    && s.slot.record == s.seed && SlotInvariant(s.slot)
    && (s.seed.Some? ==> Resumable(s.seed.value) && s.seed.value.executionId == s.id)
  }

  predicate Active(s: System, token: nat) {
    token in s.workers && s.workers[token].alive
  }

  /** A worker reads its own context and the store as they are. */
  predicate Observes(s: System, w: Worker, input: Input) {
    && (input.CtxRead? ==> input.ctx == w.ctx)
    && (input.WaitInterrupted? ==> w.ctx == Ended(input.waitCause))
    && (input.Loaded? ==> s.slot.record == Some(input.record))
  }

  predicate Enabled(s: System, a: Action) {
    match a
    case StartRun(plan, cfg, now) =>
      && Startable(plan) && plan.request.executionId == s.id && plan.hasTools == cfg.hasTools
      && Acquire(s.slot, now, s.duration).1.Granted?
    case StartResume(cfg, now) => Acquire(s.slot, now, s.duration).1.Granted?
    case StepProcess(token, input) =>
      && Active(s, token)
      && var w := s.workers[token];
      && Accepts(w.p, input) && !AtWritePoint(w.p) && Observes(s, w, input)
    case Submit(token) =>
      && Active(s, token)
      && var w := s.workers[token];
      && AtWritePoint(w.p) && w.outbox.Idle? && !LostLease(w.ctx)
    case Land(token, now) =>
      && token in s.workers && s.workers[token].outbox.Sent?
      && var outbox := s.workers[token].outbox;
      && Write(s.slot, outbox.cp, token, outbox.kind == Create, now).1 == Done
    case Acknowledged(token) =>
      Active(s, token) && AtWritePoint(s.workers[token].p) && s.workers[token].outbox.Landed?
    case WriteError(token, err) => Active(s, token) && AtWritePoint(s.workers[token].p)
    case EndContext(token, cause) => token in s.workers && s.workers[token].ctx == Live
    case CrashWorker(token) => token in s.workers
    case _ => true
  }

  function StartsCallback(p: Process): bool {
    p.Executing? && (p.run.pc.InModel? || p.run.pc.InTool?)
  }

  function WithWorker(s: System, token: nat, w: Worker): System {
    s.(workers := s.workers[token := w])
  }

  function Hire(s: System, now: int, cfg: Config, p: Process): System {
    var (slot', reply) := Acquire(s.slot, now, s.duration);
    if reply.Granted?
    then WithWorker(s.(slot := slot'), reply.token, Worker(cfg, Live, p, NoBase, 0, Idle, true))
    else s
  }

  function Act(s: System, a: Action): System
    requires Enabled(s, a)
  {
    match a
    case StartRun(plan, cfg, now) => Hire(s, now, cfg, Executing(Begin(plan)))
    case StartResume(cfg, now) => Hire(s, now, cfg, Loading(s.id))
    case StepProcess(token, input) =>
      var w := s.workers[token];
      var p' := Proceed(w.cfg, w.p, input);
      var stepped := WithWorker(s, token, w.(p := p', base := BaseAfter(w.cfg, w.p, w.base, input)));
      if StartsCallback(p') then stepped.(calls := s.calls + [Call(token, w.at, ResumeDemand(p'))]) else stepped
    case Submit(token) =>
      var w := s.workers[token];
      WithWorker(s, token, w.(outbox := Sent(KindOf(w.p), WriteOf(w.p))))
    case Land(token, now) =>
      var w := s.workers[token];
      var slot' := Write(s.slot, w.outbox.cp, token, w.outbox.kind == Create, now).0;
      WithWorker(s.(slot := slot', history := s.history + [Entry(token, w.outbox.kind, w.outbox.cp)]),
                 token, w.(outbox := Landed(w.outbox.kind, w.outbox.cp, |s.history|)))
    case Acknowledged(token) =>
      var w := s.workers[token];
      WithWorker(s, token, w.(p := Proceed(w.cfg, w.p, WriteAcked), base := AckedBase(w.outbox.kind, w.outbox.cp),
                              at := w.outbox.at, outbox := Idle))
    case WriteError(token, err) =>
      var w := s.workers[token];
      WithWorker(s, token, w.(p := Proceed(w.cfg, w.p, WriteFailed(err))))
    case EndContext(token, cause) => WithWorker(s, token, s.workers[token].(ctx := Ended(cause)))
    case RenewLease(token, now) => s.(slot := Renew(s.slot, token, now, s.duration).0)
    case ReleaseLease(token) => s.(slot := Release(s.slot, token))
    case CrashWorker(token) => WithWorker(s, token, s.workers[token].(alive := false))
  }

  /** A run of the fleet: None when some action is not enabled in its turn. */
  function ActAll(s: System, actions: seq<Action>): Option<System>
    decreases |actions|
  {
    if actions == [] then Some(s)
    else if !Enabled(s, actions[0]) then None
    else ActAll(Act(s, actions[0]), actions[1..])
  }

  /******* The inductive invariant *******/

  /** The record before the i-th write. */
  function Before(s: System, i: nat): Option<Checkpoint>
    requires i <= |s.history|
  {
    if i == 0 then s.seed else Some(s.history[i - 1].cp)
  }

  predicate AfterReservation(s: System, i: nat)
    requires i <= |s.history|
  {
    i > 0 && s.history[i - 1].kind == Reserve
  }

  predicate Linked(s: System, i: nat)
    requires i < |s.history|
  {
    && Resumable(s.history[i].cp) && s.history[i].cp.executionId == s.id
    && if Before(s, i).None? then s.history[i].kind == Create && IsFirst(s.history[i].cp)
       else Successor(s.history[i].kind, AfterReservation(s, i), Before(s, i).value, s.history[i].cp)
  }

  /** The writes that reached the store form one chain, ending in the stored record. */
  ghost predicate HistoryInvariant(s: System) {
    && SlotInvariant(s.slot) && s.id != ""
    && (s.seed.Some? ==> Resumable(s.seed.value) && s.seed.value.executionId == s.id)
    && s.slot.record == Before(s, |s.history|)
    && (forall i | 0 <= i < |s.history| :: Linked(s, i))
    && TokensOrdered(s.history, s.slot.lastToken)
  }

  predicate TokensOrdered(history: seq<Entry>, newest: nat) {
    && (forall i | 0 <= i < |history| :: history[i].token <= newest)
    && (forall i, j | 0 <= i < j < |history| :: history[i].token <= history[j].token)
  }

  /** A callback relies on a write of its own worker that announced exactly it. */
  predicate CallMatches(call: Call, e: Entry) {
    && call.token == e.token
    && match call.effect
       case CallModel(prompt, steps) =>
         && e.kind == Reserve && prompt == e.cp.request.prompt && steps == e.cp.result.steps
         && e.cp.result.status == RunningModel
       case Execute(toolCall) =>
         && e.kind == Intent(toolCall) && e.cp.pendingTool == Some(toolCall)
         && e.cp.result.status == RunningTool
       case _ => false
  }

  ghost predicate CallInvariant(s: System) {
    && (forall k | 0 <= k < |s.calls| ::
          s.calls[k].at < |s.history| && CallMatches(s.calls[k], s.history[s.calls[k].at]))
    && (forall k, m | 0 <= k < m < |s.calls| :: s.calls[k].at != s.calls[m].at)
  }

  ghost predicate Unused(s: System, at: nat) {
    forall k | 0 <= k < |s.calls| :: s.calls[k].at != at
  }

  /** Every checkpoint on its way passes the validator unless its error text is missing. */
  predicate ValidIffText(cp: Checkpoint) {
    Valid(cp) <==> HasErrorText(cp)
  }

  /** A write under way is the one the process waits for, or that of a stopped process. */
  predicate OutboxInvariant(s: System, w: Worker) {
    !w.outbox.Idle? ==>
      && w.outbox.cp.executionId == s.id && ValidIffText(w.outbox.cp)
      && Writable(w.outbox.kind, w.base, w.outbox.cp)
      && (w.p.Stopped? || (AtWritePoint(w.p) && w.outbox.kind == KindOf(w.p) && w.outbox.cp == WriteOf(w.p)))
  }

  /** Acknowledged and landed writes are in the history, under this token. */
  predicate Recorded(s: System, token: nat, w: Worker) {
    && (w.base.AckedBase? ==> w.at < |s.history| && s.history[w.at] == Entry(token, w.base.kind, w.base.cp))
    && (w.outbox.Landed? ==>
          w.outbox.at < |s.history| && s.history[w.outbox.at] == Entry(token, w.outbox.kind, w.outbox.cp))
  }

  /** The holder of the newest token agrees with the store: its landed write is the
      newest one, or else its base is the stored record. */
  predicate Agrees(s: System, token: nat, w: Worker) {
    token == s.slot.lastToken ==>
      if w.outbox.Landed? then w.outbox.at == |s.history| - 1
      else
        && (w.base != NoBase ==> s.slot.record == Some(w.base.cp))
        && (w.base.AckedBase? ==> w.at == |s.history| - 1)
  }

  /** A write is used for at most one callback. */
  ghost predicate Fresh(s: System, w: Worker) {
    && (w.outbox.Landed? ==> Unused(s, w.outbox.at))
    && (w.p.Executing? && (w.p.run.pc.Reserved? || w.p.run.pc.Intended?) ==> Unused(s, w.at))
  }

  predicate Grounded(s: System, w: Worker) {
    && SoundProcess(w.p, w.base)
    && (w.base != NoBase ==> Resumable(w.base.cp) && w.base.cp.executionId == s.id)
    && (w.p.Executing? ==> Startable(w.p.run.plan) && w.p.run.plan.request.executionId == s.id)
    && (w.p.Loading? ==> w.p.id == s.id)
  }

  ghost predicate WorkerInvariant(s: System, token: nat)
    requires token in s.workers
  {
    var w := s.workers[token];
    && 0 < token <= s.slot.lastToken
    && Grounded(s, w) && OutboxInvariant(s, w) && Recorded(s, token, w) && Agrees(s, token, w) && Fresh(s, w)
  }

  ghost predicate Invariant(s: System) {
    && HistoryInvariant(s) && CallInvariant(s)
    && (forall token | token in s.workers :: WorkerInvariant(s, token))
  }
}
