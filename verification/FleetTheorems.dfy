/** What the invariant of `Fleet` means for a whole execution, whatever the workers,
    crashes, takeovers, uncertain writes and clocks. */
module FleetTheorems {
  import opened Domain
  import opened Checkpoints
  import opened RunMachine
  import opened RunInvariant
  import opened Recovery
  import opened LeaseStore
  import opened Fleet
  import opened FleetProof

  /** `s` is reached by some run of a fleet. */
  ghost predicate Reachable(s: System) {
    exists s0, actions :: Initial(s0) && ActAll(s0, actions) == Some(s)
  }

  lemma ReachableInvariant(s: System)
    requires Reachable(s)
    ensures Invariant(s)
  {
    hide Initial, Invariant, ActAll;
    var s0, actions :| Initial(s0) && ActAll(s0, actions) == Some(s);
    ReachableIsInvariant(s0, actions);
  }

  /******* One linear history *******/

  lemma ExtendsIsTransitive(a: Checkpoint, b: Checkpoint, c: Checkpoint)
    requires Extends(a, b) && Extends(b, c)
    ensures Extends(a, c)
  {
  }

  lemma StepExtends(s: System, i: nat)
    requires HistoryInvariant(s) && i < |s.history| && Before(s, i).Some?
    ensures Extends(Before(s, i).value, s.history[i].cp)
    ensures Revision(s.history[i].cp) == Revision(Before(s, i).value) + 1 == s.history[i].cp.revision
    ensures Resumable(Before(s, i).value)
  {
    hide Successor, Extends, Resumable, Revision, TokensOrdered;
    assert Linked(s, i);
    if i > 0 { assert Linked(s, i - 1); }
    SuccessorExtends(s.history[i].kind, AfterReservation(s, i), Before(s, i).value, s.history[i].cp);
    SuccessorIsValid(s.history[i].kind, AfterReservation(s, i), Before(s, i).value, s.history[i].cp);
  }

  lemma {:induction false} HistoryExtends(s: System, i: nat, j: nat)
    requires HistoryInvariant(s) && i <= j < |s.history|
    ensures Extends(s.history[i].cp, s.history[j].cp)
    decreases j
  {
    hide HistoryInvariant, Resumable;
    if i < j {
      hide Extends;
      HistoryExtends(s, i, j - 1);
      StepExtends(s, j);
      ExtendsIsTransitive(s.history[i].cp, s.history[j - 1].cp, s.history[j].cp);
    }
  }

  /** The writes that reached the store form one linear history: tokens never
      decrease, and every later checkpoint extends every earlier one. */
  lemma HistoryIsLinear(s: System, i: nat, j: nat)
    requires Reachable(s) && i < j < |s.history|
    ensures s.history[i].token <= s.history[j].token <= s.slot.lastToken
    ensures Extends(s.history[i].cp, s.history[j].cp)
    ensures Revision(s.history[i].cp) < Revision(s.history[j].cp)
  {
    hide Reachable, Extends, Linked, Resumable, Revision;
    ReachableInvariant(s);
    HistoryExtends(s, i, j);
    RevisionCountsWrites(s, i);
    RevisionCountsWrites(s, j);
  }

  function Newest(s: System): nat {
    s.slot.lastToken
  }

  lemma ActOnlyAppends(s: System, a: Action)
    requires SlotInvariant(s.slot) && Enabled(s, a)
    ensures var s' := Act(s, a);
            && SlotInvariant(s'.slot) && Newest(s) <= Newest(s') && s.history <= s'.history
            && |s'.history| <= |s.history| + 1
            && (|s'.history| > |s.history| ==> s'.history[|s.history|].token == Newest(s) == Newest(s'))
  {
    hide Proceed, Valid, BaseAfter, Accepts, WriteOf;
    if a.StartRun? || a.StartResume? {
      TokensGrow(s.slot, a.now, s.duration);
    } else if a.Land? {
      OnlyTheNewestLands(s, a.token, a.now);
    }
  }

  /** Once a token has been issued, no write by a smaller token ever lands again. */
  lemma {:induction false} LateWritesAreFenced(s: System, actions: seq<Action>)
    requires SlotInvariant(s.slot) && ActAll(s, actions).Some?
    ensures var s' := ActAll(s, actions).value;
            && s.history <= s'.history && Newest(s) <= Newest(s')
            && forall i | |s.history| <= i < |s'.history| :: s'.history[i].token >= Newest(s)
    decreases |actions|
  {
    hide Act, Enabled;
    if actions != [] {
      ActOnlyAppends(s, actions[0]);
      LateWritesAreFenced(Act(s, actions[0]), actions[1..]);
    }
  }

  /******* Revisions *******/

  function SeedRevision(s: System): int {
    if s.seed.Some? then Revision(s.seed.value) else 0
  }

  lemma {:induction false} RevisionCountsWrites(s: System, i: nat)
    requires HistoryInvariant(s) && i < |s.history|
    ensures Revision(s.history[i].cp) == SeedRevision(s) + i + 1 == s.history[i].cp.revision
  {
    hide Resumable, Revision, Extends, Successor, TokensOrdered;
    if Before(s, i).Some? {
      StepExtends(s, i);
      if i > 0 { RevisionCountsWrites(s, i - 1); }
    } else {
      assert Linked(s, i);
      FirstHasRevisionOne(s.history[i].cp);
    }
  }

  lemma FirstHasRevisionOne(cp: Checkpoint)
    requires IsFirst(cp)
    ensures Revision(cp) == 1 == cp.revision
    ensures cp.modelIterations == 0 && cp.modelRetries == 0 && cp.result.steps == [] && cp.pendingTool.None?
    ensures cp.result.status == Created
  {
  }

  /** For an execution begun by `Run`, the stored revision is the number of writes
      that reached the store. */
  lemma StoredRevisionIsWriteCount(s: System)
    requires Reachable(s) && s.seed.None?
    ensures s.slot.record.Some? <==> |s.history| > 0
    ensures s.slot.record.Some? ==>
              s.slot.record.value.revision == |s.history| && |s.history| <= 3 * s.slot.record.value.maxSteps + 2
  {
    hide Reachable, Resumable, Revision;
    ReachableInvariant(s);
    if |s.history| > 0 {
      RevisionCountsWrites(s, |s.history| - 1);
      ReservationsPay(s, |s.history| - 1);
    }
  }

  /** No write of any worker, stale ones included, ever meets the stores' conflict
      check: it is accepted, or refused for its lease, or (only a first write) for an
      execution that exists; an invalid one is a terminal one without error text. */
  lemma NoWriteConflicts(s: System, token: nat, now: int)
    requires Reachable(s) && token in s.workers && s.workers[token].outbox.Sent?
    ensures var outbox := s.workers[token].outbox;
            var reply := Write(s.slot, outbox.cp, token, outbox.kind == Create, now).1;
            || reply == Done
            || reply == Refused(ExecutionFenced)
            || (reply == Refused(ExecutionExists) && outbox.kind == Create && s.slot.record.Some?)
            || (reply == Refused(InvalidCheckpoint) && !HasErrorText(outbox.cp))
  {
    hide Reachable, Sound, Linked;
    ReachableInvariant(s);
    assert WorkerInvariant(s, token);
    var w := s.workers[token];
    if w.outbox.kind != Create {
      NextIsNoConflict(w.outbox.kind, IsReserved(w.base), w.base.cp, w.outbox.cp);
    }
  }

  lemma NextIsNoConflict(kind: WriteKind, reserved: bool, prev: Checkpoint, next: Checkpoint)
    requires Resumable(prev) && Successor(kind, reserved, prev, next)
    ensures !Conflicts(prev, next)
  {
    hide Successor;
    SuccessorIsValid(kind, reserved, prev, next);
  }

  /******* Budgets *******/

  function Spent(cp: Checkpoint): int {
    cp.modelRetries + |cp.result.steps| + PendingCount(cp.pendingTool)
    + (if cp.result.status == Completed then 1 else 0)
  }

  /** Over the whole life of an execution begun by `Run`: retries, steps, pending call
      and completion are all paid for by reserved iterations, reservations stay within
      the budget, and an outstanding reservation leaves one to spend. */
  lemma BudgetIsConserved(s: System, i: nat)
    requires Reachable(s) && s.seed.None? && i < |s.history|
    ensures var cp := s.history[i].cp;
            && Spent(cp) + (if s.history[i].kind == Reserve then 1 else 0) <= cp.modelIterations <= cp.maxSteps
            && 0 <= cp.modelRetries <= cp.maxModelRetries
  {
    hide Reachable, HistoryInvariant, Revision;
    ReachableInvariant(s);
    ReservationsPay(s, i);
  }

  lemma {:induction false} ReservationsPay(s: System, i: nat)
    requires HistoryInvariant(s) && s.seed.None? && i < |s.history|
    ensures var cp := s.history[i].cp;
            && Spent(cp) + (if s.history[i].kind == Reserve then 1 else 0) <= cp.modelIterations <= cp.maxSteps
            && 0 <= cp.modelRetries <= cp.maxModelRetries
            && Revision(cp) <= 3 * cp.maxSteps + 2
  {
    hide Successor, IsFirst, Revision, TokensOrdered, Recoverable, FinalStatus;
    var cp := s.history[i].cp;
    assert Linked(s, i);
    if i == 0 {
      FirstHasRevisionOne(cp);
    } else {
      ReservationsPay(s, i - 1);
      assert Linked(s, i - 1);
      ResumableIsTidy(s.history[i - 1].cp);
      SuccessorSpends(s.history[i].kind, AfterReservation(s, i), s.history[i - 1].cp, cp);
    }
    ClosedForm(cp);
  }

  lemma SuccessorSpends(kind: WriteKind, reserved: bool, prev: Checkpoint, next: Checkpoint)
    requires Tidy(prev) && Successor(kind, reserved, prev, next)
    ensures kind == Reserve ==> next.modelIterations == prev.modelIterations + 1 && Spent(next) == Spent(prev)
    ensures kind != Reserve ==> next.modelIterations == prev.modelIterations && Spent(next) <= Spent(prev) + 1
    ensures Spent(next) == Spent(prev) + 1 ==> reserved
    ensures next.maxSteps == prev.maxSteps && next.maxModelRetries == prev.maxModelRetries
  {
  }

  /** How many writes of each kind a history holds. */
  datatype Tally = Tally(creates: nat, reserves: nat, retries: nat, intents: nat, completes: nat, finishes: nat)

  function Add(t: Tally, kind: WriteKind): Tally {
    match kind
    case Create => t.(creates := t.creates + 1)
    case Reserve => t.(reserves := t.reserves + 1)
    case Retry => t.(retries := t.retries + 1)
    case Intent(_) => t.(intents := t.intents + 1)
    case Complete => t.(completes := t.completes + 1)
    case Finish => t.(finishes := t.finishes + 1)
  }

  function TallyOf(history: seq<Entry>): Tally {
    if history == [] then Tally(0, 0, 0, 0, 0, 0)
    else Add(TallyOf(history[..|history| - 1]), history[|history| - 1].kind)
  }

  /** The tally that a record claims by its counters. */
  predicate Claims(cp: Checkpoint, t: Tally) {
    && t.creates == 1 && t.reserves == cp.modelIterations && t.retries == cp.modelRetries
    && t.intents == |cp.result.steps| + PendingCount(cp.pendingTool) && t.completes == |cp.result.steps|
    && t.finishes == if IsTerminal(cp.result.status) then 1 else 0
  }

  lemma SuccessorClaims(kind: WriteKind, reserved: bool, prev: Checkpoint, next: Checkpoint, t: Tally)
    requires Tidy(prev) && Successor(kind, reserved, prev, next) && Claims(prev, t)
    ensures Claims(next, Add(t, kind))
  {
  }

  lemma {:induction false} HistoryClaims(s: System, i: nat)
    requires HistoryInvariant(s) && s.seed.None? && i < |s.history|
    ensures Claims(s.history[i].cp, TallyOf(s.history[..i + 1]))
  {
    hide Successor, IsFirst, Resumable, TokensOrdered, Claims, Add, Tidy;
    assert Linked(s, i);
    assert s.history[..i + 1][..i] == s.history[..i];
    if i == 0 {
      FirstClaims(s.history[0]);
    } else {
      HistoryClaims(s, i - 1);
      assert Linked(s, i - 1);
      ResumableIsTidy(s.history[i - 1].cp);
      SuccessorClaims(s.history[i].kind, AfterReservation(s, i), s.history[i - 1].cp, s.history[i].cp,
                      TallyOf(s.history[..i]));
    }
  }

  lemma FirstClaims(e: Entry)
    requires e.kind == Create && IsFirst(e.cp)
    ensures Claims(e.cp, Add(TallyOf([]), e.kind))
  {
    FirstHasRevisionOne(e.cp);
  }

  /** The counters of the stored record are the true numbers of writes of each kind that
      ever reached the store, from whichever workers: none is lost and none counted twice. */
  lemma CountersTellTheHistory(s: System)
    requires Reachable(s) && s.seed.None? && s.slot.record.Some?
    ensures Claims(s.slot.record.value, TallyOf(s.history))
    ensures TallyOf(s.history).retries <= s.slot.record.value.maxModelRetries
  {
    hide Reachable, Claims, Linked, Revision;
    ReachableInvariant(s);
    var n := |s.history|;
    HistoryClaims(s, n - 1);
    assert s.history[..n] == s.history;
    ReservationsPay(s, n - 1);
    ClaimedRetries(s.slot.record.value, TallyOf(s.history));
  }

  lemma ClaimedRetries(cp: Checkpoint, t: Tally)
    requires Claims(cp, t)
    ensures t.retries == cp.modelRetries
  {
  }

  /** An execution stored without retry budget, such as every version 2 record, never retries. */
  lemma NoBudgetNoRetry(s: System, i: nat)
    requires Reachable(s) && s.seed.Some? && s.seed.value.maxModelRetries == 0 && i < |s.history|
    ensures s.history[i].kind != Retry
  {
    hide Reachable, FinalStatus, Recoverable, RecordedIds;
    ReachableInvariant(s);
    assert Linked(s, i);
    SeedExtends(s, i);
  }

  lemma {:induction false} SeedExtends(s: System, i: nat)
    requires HistoryInvariant(s) && s.seed.Some? && i <= |s.history|
    ensures Before(s, i).Some? && Extends(s.seed.value, Before(s, i).value)
    ensures Resumable(Before(s, i).value)
  {
    hide Linked, Resumable, TokensOrdered;
    if i > 0 {
      hide Extends;
      SeedExtends(s, i - 1);
      StepExtends(s, i - 1);
      ExtendsIsTransitive(s.seed.value, Before(s, i - 1).value, s.history[i - 1].cp);
      assert Linked(s, i - 1);
      LinkedIsResumable(s, i - 1);
    }
  }

  lemma LinkedIsResumable(s: System, i: nat)
    requires i < |s.history| && Linked(s, i)
    ensures Resumable(s.history[i].cp)
  {
  }

  /******* Callbacks *******/

  /** Every call has its own announcing write; no write announces two. */
  lemma CallsAreAnnouncedOnce(s: System, k: nat, m: nat)
    requires Reachable(s) && k < m < |s.calls|
    ensures s.calls[k].at < |s.history| && s.calls[m].at < |s.history| && s.calls[k].at != s.calls[m].at
    ensures CallMatches(s.calls[k], s.history[s.calls[k].at]) && CallMatches(s.calls[m], s.history[s.calls[m].at])
  {
    hide Reachable, CallMatches;
    ReachableInvariant(s);
  }

  /** An identifier once announced to the store is never announced again. */
  lemma IntentsAreFresh(s: System, i: nat, j: nat, c: ToolCall, d: ToolCall)
    requires HistoryInvariant(s) && i < j < |s.history|
    requires s.history[i].kind == Intent(c) && s.history[j].kind == Intent(d)
    ensures c.id != d.id
  {
    hide HistoryInvariant, Extends, Linked, Resumable;
    IntentIsNew(s, i, c);
    IntentIsNew(s, j, d);
    HistoryExtends(s, i, j - 1);
    ExtendsKeepsIds(s.history[i].cp, s.history[j - 1].cp);
  }

  lemma IntentIsNew(s: System, i: nat, c: ToolCall)
    requires HistoryInvariant(s) && i < |s.history| && s.history[i].kind == Intent(c)
    ensures c.id in RecordedIds(s.history[i].cp)
    ensures Before(s, i).Some? && c.id !in RecordedIds(Before(s, i).value)
  {
    hide Resumable, TokensOrdered, IsFirst;
    assert Linked(s, i);
    if i > 0 { assert Linked(s, i - 1); }
    ResumableIsTidy(Before(s, i).value);
  }

  lemma ExtendsKeepsIds(a: Checkpoint, b: Checkpoint)
    requires Extends(a, b)
    ensures RecordedIds(a) <= RecordedIds(b)
  {
  }

  /** An identifier that the execution's first record already holds, completed or
      pending, is never passed to `Execute`: recovery only reconciles or replays it. */
  lemma RecordedCallsAreNotExecuted(s: System, k: nat)
    requires Reachable(s) && s.seed.Some? && k < |s.calls| && s.calls[k].effect.Execute?
    ensures s.calls[k].effect.call.id !in RecordedIds(s.seed.value)
  {
    hide Reachable, HistoryInvariant, Extends, RecordedIds, Resumable;
    ReachableInvariant(s);
    var i := s.calls[k].at;
    IntentIsNew(s, i, s.calls[k].effect.call);
    SeedExtends(s, i);
    ExtendsKeepsIds(s.seed.value, Before(s, i).value);
  }

  /** In an execution's whole life, each tool call identifier is passed to `Execute`
      at most once, and only by the worker whose own acknowledged write announced it. */
  lemma ExecuteAtMostOnce(s: System, k: nat, m: nat)
    requires Reachable(s) && k < m < |s.calls|
    requires s.calls[k].effect.Execute? && s.calls[m].effect.Execute?
    ensures s.calls[k].effect.call.id != s.calls[m].effect.call.id
    ensures s.calls[k].at < |s.history| && s.history[s.calls[k].at].token == s.calls[k].token
    ensures s.history[s.calls[k].at].kind == Intent(s.calls[k].effect.call)
    ensures s.seed.Some? ==> s.calls[k].effect.call.id !in RecordedIds(s.seed.value)
    ensures s.seed.Some? ==> s.calls[m].effect.call.id !in RecordedIds(s.seed.value)
  {
    hide Reachable, HistoryInvariant, CallInvariant, RecordedIds;
    if s.seed.Some? {
      RecordedCallsAreNotExecuted(s, k);
      RecordedCallsAreNotExecuted(s, m);
    }
    CallsAreAnnouncedOnce(s, k, m);
    ReachableInvariant(s);
    var i, j := s.calls[k].at, s.calls[m].at;
    if i < j { IntentsAreFresh(s, i, j, s.calls[k].effect.call, s.calls[m].effect.call); }
    else { IntentsAreFresh(s, j, i, s.calls[m].effect.call, s.calls[k].effect.call); }
  }

  /** Write-ahead: when a callback starts, the worker's last acknowledged checkpoint
      announces exactly it, with the attempt counted and the steps it is given. */
  lemma WriteAhead(s: System, token: nat, input: Input)
    requires Reachable(s) && Enabled(s, StepProcess(token, input))
    requires StartsCallback(Proceed(s.workers[token].cfg, s.workers[token].p, input))
    ensures var w := s.workers[token];
            var call := Call(token, w.at, ResumeDemand(Proceed(w.cfg, w.p, input)));
            && w.base.AckedBase? && w.at < |s.history|
            && s.history[w.at] == Entry(token, w.base.kind, w.base.cp)
            && CallMatches(call, s.history[w.at]) && Unused(s, w.at)
            && Act(s, StepProcess(token, input)).calls == s.calls + [call]
            && (call.effect.CallModel? ==>
                  && Before(s, w.at).Some?
                  && s.history[w.at].cp.modelIterations == Before(s, w.at).value.modelIterations + 1)
  {
    hide Reachable, HistoryInvariant, CallMatches, Proceed, ResumeDemand;
    ReachableInvariant(s);
    CallIsAnnounced(s, token, input);
    assert WorkerInvariant(s, token);
    var w := s.workers[token];
    var call := Call(token, w.at, ResumeDemand(Proceed(w.cfg, w.p, input)));
    if call.effect.CallModel? {
      ModelCallsMatchReservations(call, s.history[w.at]);
      ReservationCounts(s, w.at);
    }
  }

  lemma ModelCallsMatchReservations(call: Call, e: Entry)
    requires CallMatches(call, e) && call.effect.CallModel?
    ensures e.kind == Reserve
  {
  }

  /******* Model callbacks are paid for *******/

  function ModelCalls(calls: seq<Call>): nat {
    if calls == [] then 0
    else ModelCalls(calls[..|calls| - 1]) + if calls[|calls| - 1].effect.CallModel? then 1 else 0
  }

  /** The attempt numbers of the first `n` calls. */
  function Attempts(s: System, n: nat): set<int>
    requires n <= |s.calls| && CallInvariant(s)
  {
    set k | 0 <= k < n && s.calls[k].effect.CallModel? :: s.history[s.calls[k].at].cp.modelIterations
  }

  function SeedIterations(s: System): int {
    if s.seed.Some? then s.seed.value.modelIterations else 0
  }

  /** Two reservations never carry the same attempt number. */
  lemma ReservationsDiffer(s: System, i: nat, j: nat)
    requires HistoryInvariant(s) && i < j < |s.history| && s.history[j].kind == Reserve
    ensures s.history[i].cp.modelIterations < s.history[j].cp.modelIterations
  {
    hide Linked, Resumable, RecordedIds, TokensOrdered;
    HistoryExtends(s, i, j - 1);
    ReservationCounts(s, j);
  }

  lemma ReservationCounts(s: System, j: nat)
    requires HistoryInvariant(s) && j < |s.history| && s.history[j].kind == Reserve
    ensures Before(s, j).Some?
    ensures s.history[j].cp.modelIterations == Before(s, j).value.modelIterations + 1
  {
    hide Resumable, TokensOrdered, IsFirst;
    assert Linked(s, j);
  }

  lemma {:induction false} AttemptsAreDistinct(s: System, n: nat)
    requires HistoryInvariant(s) && CallInvariant(s) && n <= |s.calls|
    ensures ModelCalls(s.calls[..n]) == |Attempts(s, n)|
  {
    hide HistoryInvariant, CallInvariant, Attempts;
    if n == 0 {
      NoAttemptsYet(s);
    } else {
      AttemptsAreDistinct(s, n - 1);
      assert s.calls[..n][..n - 1] == s.calls[..n - 1];
      AttemptsGrow(s, n - 1);
    }
  }

  lemma NoAttemptsYet(s: System)
    requires CallInvariant(s)
    ensures Attempts(s, 0) == {}
  {
    hide CallMatches;
  }

  /** One more model call is one more attempt number. */
  lemma AttemptsGrow(s: System, n: nat)
    requires HistoryInvariant(s) && CallInvariant(s) && n < |s.calls|
    ensures |Attempts(s, n + 1)| == |Attempts(s, n)| + if s.calls[n].effect.CallModel? then 1 else 0
  {
    hide HistoryInvariant, CallMatches;
    if s.calls[n].effect.CallModel? {
      AttemptIsNew(s, n);
      assert Attempts(s, n + 1) == Attempts(s, n) + {s.history[s.calls[n].at].cp.modelIterations};
    } else {
      assert Attempts(s, n + 1) == Attempts(s, n);
    }
  }

  lemma AttemptIsNew(s: System, n: nat)
    requires HistoryInvariant(s) && CallInvariant(s) && n < |s.calls| && s.calls[n].effect.CallModel?
    ensures s.history[s.calls[n].at].cp.modelIterations !in Attempts(s, n)
  {
    hide HistoryInvariant, CallMatches;
    forall k | 0 <= k < n && s.calls[k].effect.CallModel?
      ensures s.history[s.calls[k].at].cp.modelIterations != s.history[s.calls[n].at].cp.modelIterations
    {
      AttemptsDiffer(s, k, n);
    }
  }

  lemma AttemptsDiffer(s: System, k: nat, m: nat)
    requires HistoryInvariant(s) && CallInvariant(s) && k < m < |s.calls|
    requires s.calls[k].effect.CallModel? && s.calls[m].effect.CallModel?
    ensures s.history[s.calls[k].at].cp.modelIterations != s.history[s.calls[m].at].cp.modelIterations
  {
    hide HistoryInvariant;
    var i, j := s.calls[k].at, s.calls[m].at;
    if i < j { ReservationsDiffer(s, i, j); } else { ReservationsDiffer(s, j, i); }
  }

  lemma AttemptInRange(s: System, k: nat)
    requires HistoryInvariant(s) && CallInvariant(s) && k < |s.calls| && s.calls[k].effect.CallModel?
    ensures |s.history| > 0
    ensures SeedIterations(s) < s.history[s.calls[k].at].cp.modelIterations
                              <= s.history[|s.history| - 1].cp.modelIterations
  {
    hide Linked, Resumable, RecordedIds, TokensOrdered;
    var i := s.calls[k].at;
    HistoryExtends(s, i, |s.history| - 1);
    ReservationCounts(s, i);
    if s.seed.Some? { SeedExtends(s, i); } else { CountsNonNegative(s, i); }
  }

  lemma CountsNonNegative(s: System, i: nat)
    requires HistoryInvariant(s) && i <= |s.history| && Before(s, i).Some?
    ensures Before(s, i).value.modelIterations >= 0
  {
    hide FinalStatus, Recoverable, Successor, TokensOrdered, IsFirst;
    if i > 0 { assert Linked(s, i - 1); }
  }

  lemma {:induction false} RangeSize(a: set<int>, lo: int, hi: int)
    requires lo <= hi && forall x | x in a :: lo < x <= hi
    ensures |a| <= hi - lo
    decreases hi - lo
  {
    if lo < hi {
      RangeSize(a - {hi}, lo, hi - 1);
      if hi in a { assert |a| == |a - {hi}| + 1; } else { assert a - {hi} == a; }
    } else {
      assert forall x :: x !in a;
    }
  }

  /** Over the whole life, stale workers included, the model is called no more often
      than durable iterations were reserved, and those stay within MaxSteps. */
  lemma ModelCallsArePaidFor(s: System)
    requires Reachable(s)
    ensures s.slot.record.None? ==> ModelCalls(s.calls) == 0
    ensures s.slot.record.Some? ==>
              ModelCalls(s.calls) <= s.slot.record.value.modelIterations - SeedIterations(s)
              && s.slot.record.value.modelIterations <= s.slot.record.value.maxSteps
  {
    hide Reachable, CallMatches, FinalStatus, Recoverable, Successor, TokensOrdered, IsFirst;
    ReachableInvariant(s);
    var n := |s.calls|;
    AttemptsAreDistinct(s, n);
    assert s.calls[..n] == s.calls;
    var lo := SeedIterations(s);
    var hi := if s.slot.record.Some? then s.slot.record.value.modelIterations else lo;
    forall x | x in Attempts(s, n) ensures lo < x <= hi {
      var k :| 0 <= k < n && s.calls[k].effect.CallModel? && s.history[s.calls[k].at].cp.modelIterations == x;
      AttemptInRange(s, k);
    }
    if s.slot.record.Some? {
      RecordIsOurs(s);
      RecordCountsFromSeed(s);
    }
    RangeSize(Attempts(s, n), lo, hi);
  }

  lemma RecordCountsFromSeed(s: System)
    requires HistoryInvariant(s) && s.slot.record.Some?
    ensures SeedIterations(s) <= s.slot.record.value.modelIterations
  {
    hide Linked, Resumable, RecordedIds, TokensOrdered;
    if s.seed.Some? { SeedExtends(s, |s.history|); } else { CountsNonNegative(s, |s.history|); }
  }

  /******* Stored records and lost leases *******/

  /** `Resume` never rejects as invalid what the fleet has stored. */
  lemma StoredRecordIsAccepted(s: System, cfg: Config)
    requires Reachable(s) && s.slot.record.Some?
    ensures Resumable(s.slot.record.value)
    ensures AfterLoad(cfg, s.id, s.slot.record.value) != InvalidRecord()
  {
    hide Reachable, FinalStatus, Recoverable, HistoryInvariant;
    ReachableInvariant(s);
    RecordIsOurs(s);
  }

  /** Every worker that has returned, on whatever path, returned the result of the last
      checkpoint it loaded or had acknowledged, and an acknowledged one is its own entry in
      the history; it starts no callback and no write any more. */
  lemma ReturnsAreDurable(s: System, token: nat)
    requires Reachable(s) && token in s.workers && s.workers[token].p.Stopped?
    ensures var w := s.workers[token];
            && (w.base != NoBase ==> w.p.result == Some(w.base.cp.result) && Resumable(w.base.cp))
            && (w.base.AckedBase? ==> w.at < |s.history| && s.history[w.at] == Entry(token, w.base.kind, w.base.cp))
            && !AtWritePoint(w.p) && forall input :: !Accepts(w.p, input)
  {
    hide Reachable, HistoryInvariant, Resumable, CallInvariant;
    ReachableInvariant(s);
    assert WorkerInvariant(s, token);
  }

  /** Every checkpoint any worker ever sent passes the validator, except exactly a
      terminal one whose error text is empty. */
  lemma EverySentWriteIsValid(s: System, token: nat)
    requires Reachable(s) && token in s.workers && !s.workers[token].outbox.Idle?
    ensures Valid(s.workers[token].outbox.cp) <==> HasErrorText(s.workers[token].outbox.cp)
  {
    hide Reachable, HistoryInvariant, Valid;
    ReachableInvariant(s);
    assert WorkerInvariant(s, token);
  }

  /** One action: a worker that lost its lease does not submit; its write under way stays
      as it is until it lands, and nothing else of its own lands. */
  lemma ActKeepsSilence(s: System, a: Action, token: nat)
    requires SlotInvariant(s.slot) && Enabled(s, a)
    requires token in s.workers && token <= Newest(s) && LostLease(s.workers[token].ctx)
    ensures a != Submit(token)
    ensures var s', outbox := Act(s, a), s.workers[token].outbox;
            && token in s'.workers && LostLease(s'.workers[token].ctx)
            && (s'.workers[token].outbox.Sent? ==> s'.workers[token].outbox == outbox)
            && (|s'.history| > |s.history| && s'.history[|s.history|].token == token ==>
                  && outbox.Sent? && s'.history[|s.history|] == Entry(token, outbox.kind, outbox.cp)
                  && !s'.workers[token].outbox.Sent?)
  {
    hide Proceed, Valid, BaseAfter, Accepts, WriteOf;
    if a.StartRun? || a.StartResume? { TokensGrow(s.slot, a.now, s.duration); }
  }

  /** What may still land of a worker that has lost its lease: at most once, and only
      what it had sent before. */
  predicate OnlyTheSentWriteLands(before: seq<Entry>, after: seq<Entry>, token: nat, outbox: Outbox) {
    && (forall i | |before| <= i < |after| && after[i].token == token ::
          outbox.Sent? && after[i] == Entry(token, outbox.kind, outbox.cp))
    && (forall i, j | |before| <= i < j < |after| :: !(after[i].token == after[j].token == token))
  }

  /** Once a worker's context ends with a lost lease, it starts no further write for the
      rest of the run. Of its own only the write that was already under way at that moment
      may still land, unchanged and at most once. */
  lemma {:induction false} LostLeaseIsSilent(s: System, actions: seq<Action>, token: nat)
    requires SlotInvariant(s.slot) && ActAll(s, actions).Some?
    requires token in s.workers && token <= Newest(s) && LostLease(s.workers[token].ctx)
    ensures Submit(token) !in actions
    ensures var s' := ActAll(s, actions).value;
            s.history <= s'.history && OnlyTheSentWriteLands(s.history, s'.history, token, s.workers[token].outbox)
    decreases |actions|
  {
    hide Act, Enabled, OnlyTheSentWriteLands;
    if actions == [] {
      NothingLands(s.history, token, s.workers[token].outbox);
    } else {
      var next := Act(s, actions[0]);
      ActOnlyAppends(s, actions[0]);
      ActKeepsSilence(s, actions[0], token);
      LostLeaseIsSilent(next, actions[1..], token);
      LandingsChain(s.history, next.history, ActAll(s, actions).value.history, token,
                    s.workers[token].outbox, next.workers[token].outbox);
    }
  }

  lemma NothingLands(history: seq<Entry>, token: nat, outbox: Outbox)
    ensures OnlyTheSentWriteLands(history, history, token, outbox)
  {
  }

  lemma LandingsChain(before: seq<Entry>, next: seq<Entry>, after: seq<Entry>, token: nat,
                      outbox: Outbox, outbox': Outbox)
    requires before <= next <= after && |next| <= |before| + 1
    requires OnlyTheSentWriteLands(next, after, token, outbox')
    requires outbox'.Sent? ==> outbox' == outbox
    requires |next| > |before| && next[|before|].token == token ==>
               outbox.Sent? && next[|before|] == Entry(token, outbox.kind, outbox.cp) && !outbox'.Sent?
    ensures OnlyTheSentWriteLands(before, after, token, outbox)
  {
    if |next| > |before| {
      assert after[|before|] == next[|before|];
    }
  }
}
