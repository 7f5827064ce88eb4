/** The checkpoint validator, the logical revision, and the closed form that the
    validator forces on every recoverable transition history. */
module Checkpoints {
  import opened Domain

  /******* Histories, read from the last transition backwards *******/

  /** The status a legal history ends in; None when some transition is illegal. */
  function FinalStatus(ts: seq<Transition>): Option<Status> {
    if ts == [] then Some(Created)
    else
      var last := ts[|ts| - 1];
      if FinalStatus(ts[..|ts| - 1]) == Some(last.from) && ValidTransition(last.from, last.to)
      then Some(last.to) else None
  }

  predicate StartsTool(t: Transition) { t.to == RunningTool }
  predicate FinishesTool(t: Transition) { t.from == RunningTool && t.to == RunningModel }

  function Started(ts: seq<Transition>): nat {
    if ts == [] then 0
    else Started(ts[..|ts| - 1]) + if StartsTool(ts[|ts| - 1]) then 1 else 0
  }

  function Finished(ts: seq<Transition>): nat {
    if ts == [] then 0
    else Finished(ts[..|ts| - 1]) + if FinishesTool(ts[|ts| - 1]) then 1 else 0
  }

  lemma Append(ts: seq<Transition>, t: Transition)
    ensures FinalStatus(ts + [t]) ==
            if FinalStatus(ts) == Some(t.from) && ValidTransition(t.from, t.to) then Some(t.to) else None
    ensures Started(ts + [t]) == Started(ts) + if StartsTool(t) then 1 else 0
    ensures Finished(ts + [t]) == Finished(ts) + if FinishesTool(t) then 1 else 0
  {
    assert (ts + [t])[..|ts|] == ts;
  }

  /******* The logical revision *******/

  function Revision(cp: Checkpoint): int {
    1 + cp.modelIterations + cp.modelRetries
    + Started(cp.result.transitions) + Finished(cp.result.transitions)
    + if IsTerminal(cp.result.status) then 1 else 0
  }

  method CheckpointRevision(cp: Checkpoint) returns (revision: int)
    ensures revision == Revision(cp)
  {
    revision := 1 + cp.modelIterations + cp.modelRetries;
    var ts := cp.result.transitions;
    for i := 0 to |ts|
      invariant revision == 1 + cp.modelIterations + cp.modelRetries + Started(ts[..i]) + Finished(ts[..i])
    {
      Append(ts[..i], ts[i]);
      assert ts[..i] + [ts[i]] == ts[..i + 1];
      if ts[i].to == RunningTool || (ts[i].from == RunningTool && ts[i].to == RunningModel) {
        revision := revision + 1;
      }
    }
    assert ts[..|ts|] == ts;
    if IsTerminal(cp.result.status) {
      revision := revision + 1;
    }
  }

  /******* What the validator accepts *******/

  predicate ValidSteps(steps: seq<Step>) {
    && (forall i | 0 <= i < |steps| ::
          steps[i].index == i + 1 && steps[i].result.callId == steps[i].call.id && ValidCall(steps[i].call))
    && (forall i, j | 0 <= i < j < |steps| :: steps[i].call.id != steps[j].call.id)
  }

  predicate ValidPending(cp: Checkpoint) {
    cp.pendingTool.Some? ==>
      && ValidCall(cp.pendingTool.value)
      && cp.pendingTool.value.id !in StepIds(cp.result.steps)
      && cp.modelIterations > |cp.result.steps|
  }

  predicate ValidForStatus(cp: Checkpoint)
    requires FinalStatus(cp.result.transitions) == Some(cp.result.status)
  {
    var ts := cp.result.transitions;
    match cp.result.status
    case Created => cp.modelIterations == 0 && cp.modelRetries == 0 && cp.pendingTool.None?
    case RunningModel => cp.pendingTool.None?
    case RunningTool => cp.pendingTool.Some?
    case Completed => cp.pendingTool.None? && cp.modelIterations > |cp.result.steps|
    case _ => cp.error != "" && (ts[|ts| - 1].from == RunningTool <==> cp.pendingTool.Some?)
  }

  /** `validateRecoveryState`: the history is evidence for the completed tools. */
  predicate Recoverable(cp: Checkpoint)
    requires FinalStatus(cp.result.transitions) == Some(cp.result.status)
  {
    && cp.modelIterations >= |cp.result.steps|
    && ValidSteps(cp.result.steps)
    && ValidPending(cp)
    && Finished(cp.result.transitions) == |cp.result.steps|
    && Started(cp.result.transitions) == Finished(cp.result.transitions) + PendingCount(cp.pendingTool)
    && ValidForStatus(cp)
    && (cp.result.status != Completed ==> cp.result.output == "")
    && (cp.result.status != Failed && cp.result.status != Cancelled ==> cp.error == "")
  }

  /** The identity and budget checks, which do not look at the history. */
  predicate ValidHeader(cp: Checkpoint) {
    && 1 <= cp.schemaVersion <= SCHEMA_VERSION
    && cp.executionId != ""
    && cp.executionId == cp.request.executionId == cp.result.executionId
    && cp.request.prompt != ""
    && cp.maxSteps > 0
    && 0 <= cp.modelIterations <= cp.maxSteps
    && 0 <= cp.modelRetries <= cp.maxModelRetries
    && cp.modelRetries <= cp.modelIterations
    && (cp.schemaVersion < 3 ==> cp.maxModelRetries == 0)
  }

  /** `validateCheckpoint`. */
  predicate Valid(cp: Checkpoint) {
    && ValidHeader(cp)
    && FinalStatus(cp.result.transitions) == Some(cp.result.status)
    && (cp.schemaVersion >= 2 ==> Recoverable(cp))
    && (cp.revision != 0 ==> cp.revision == Revision(cp))
  }

  /** A checkpoint that `Resume` may build on. */
  predicate Resumable(cp: Checkpoint) {
    Valid(cp) && cp.schemaVersion >= 2
  }

  /******* The validators, as the source runs them *******/

  method ValidateSteps(steps: seq<Step>) returns (ok: bool, seen: set<string>)
    ensures ok == ValidSteps(steps)
    ensures ok ==> seen == StepIds(steps)
  {
    seen := {};
    for i := 0 to |steps|
      invariant ValidSteps(steps[..i])
      invariant seen == StepIds(steps[..i])
    {
      var step := steps[i];
      if step.index != i + 1 || step.result.callId != step.call.id || step.call.id in seen || !ValidCall(step.call) {
        return false, seen;
      }
      seen := seen + {step.call.id};
      assert steps[..i + 1] == steps[..i] + [step];
    }
    assert steps[..|steps|] == steps;
    return true, seen;
  }

  method ValidateRecoveryState(cp: Checkpoint) returns (ok: bool)
    requires FinalStatus(cp.result.transitions) == Some(cp.result.status)
    ensures ok == Recoverable(cp)
  {
    if cp.modelIterations < |cp.result.steps| { return false; }
    var stepsOk, seen := ValidateSteps(cp.result.steps);
    if !stepsOk { return false; }
    var pending := 0;
    if cp.pendingTool.Some? {
      pending := 1;
      if !ValidCall(cp.pendingTool.value) { return false; }
      if cp.pendingTool.value.id in seen || cp.modelIterations <= |cp.result.steps| { return false; }
    }
    var ts := cp.result.transitions;
    var started, finished := 0, 0;
    for i := 0 to |ts|
      invariant started == Started(ts[..i]) && finished == Finished(ts[..i])
    {
      Append(ts[..i], ts[i]);
      assert ts[..i] + [ts[i]] == ts[..i + 1];
      if StartsTool(ts[i]) { started := started + 1; }
      if FinishesTool(ts[i]) { finished := finished + 1; }
    }
    assert ts[..|ts|] == ts;
    if finished != |cp.result.steps| || started != finished + pending { return false; }
    match cp.result.status {
      case Created =>
        if cp.modelIterations != 0 || cp.modelRetries != 0 || pending != 0 { return false; }
      case RunningModel =>
        if pending != 0 { return false; }
      case RunningTool =>
        if pending != 1 { return false; }
      case Completed =>
        if pending != 0 || cp.modelIterations <= |cp.result.steps| { return false; }
      case _ =>
        if cp.error == "" { return false; }
        var fromTool := ts[|ts| - 1].from == RunningTool;
        if fromTool != (pending == 1) { return false; }
    }
    if cp.result.status != Completed && cp.result.output != "" { return false; }
    if cp.result.status != Failed && cp.result.status != Cancelled && cp.error != "" { return false; }
    return true;
  }

  /** The replay of the transition history, which is part of `validateCheckpoint`. */
  method ReplayTransitions(ts: seq<Transition>) returns (final: Option<Status>)
    ensures final == FinalStatus(ts)
  {
    var status := Created;
    for i := 0 to |ts|
      invariant FinalStatus(ts[..i]) == Some(status)
    {
      Append(ts[..i], ts[i]);
      assert ts[..i] + [ts[i]] == ts[..i + 1];
      if ts[i].from != status || !ValidTransition(status, ts[i].to) {
        IllegalPrefix(ts, i + 1);
        return None;
      }
      status := ts[i].to;
    }
    assert ts[..|ts|] == ts;
    return Some(status);
  }

  method ValidateCheckpoint(cp: Checkpoint) returns (ok: bool)
    ensures ok == Valid(cp)
  {
    hide FinalStatus, Recoverable, Revision;
    if cp.schemaVersion < 1 || cp.schemaVersion > SCHEMA_VERSION { return false; }
    if cp.executionId == "" || cp.executionId != cp.request.executionId || cp.executionId != cp.result.executionId {
      return false;
    }
    if cp.request.prompt == "" || cp.maxSteps <= 0 || cp.modelIterations < 0 || cp.modelIterations > cp.maxSteps {
      return false;
    }
    if cp.maxModelRetries < 0 || cp.modelRetries < 0 || cp.modelRetries > cp.maxModelRetries
       || cp.modelRetries > cp.modelIterations {
      return false;
    }
    if cp.schemaVersion < 3 && (cp.maxModelRetries != 0 || cp.modelRetries != 0) { return false; }
    var final := ReplayTransitions(cp.result.transitions);
    if final != Some(cp.result.status) { return false; }
    if cp.schemaVersion >= 2 {
      var recoverable := ValidateRecoveryState(cp);
      if !recoverable { return false; }
    }
    var revision := CheckpointRevision(cp);
    return cp.revision == 0 || cp.revision == revision;
  }

  lemma {:induction false} IllegalPrefix(ts: seq<Transition>, i: nat)
    requires i <= |ts| && FinalStatus(ts[..i]).None?
    ensures FinalStatus(ts).None?
    decreases |ts| - i
  {
    if i < |ts| {
      Append(ts[..i], ts[i]);
      assert ts[..i] + [ts[i]] == ts[..i + 1];
      IllegalPrefix(ts, i + 1);
    } else {
      assert ts[..i] == ts;
    }
  }

  /******* The closed form of a recoverable history *******/

  /** `n` completed tool rounds, entered from running_model. */
  function Rounds(n: nat): seq<Transition> {
    if n == 0 then [Transition(Created, RunningModel)]
    else Rounds(n - 1) + [Transition(RunningModel, RunningTool)] + [Transition(RunningTool, RunningModel)]
  }

  function WithPending(n: nat, pending: bool): seq<Transition> {
    if pending then Rounds(n) + [Transition(RunningModel, RunningTool)] else Rounds(n)
  }

  /** The only history a recoverable checkpoint can have. */
  function Canonical(status: Status, n: nat, pending: bool): seq<Transition> {
    if status == Created then []
    else if IsTerminal(status) then
      WithPending(n, pending) + [Transition(if pending then RunningTool else RunningModel, status)]
    else WithPending(n, pending)
  }

  lemma {:induction false} RoundsReplay(n: nat)
    ensures FinalStatus(Rounds(n)) == Some(RunningModel)
    ensures Started(Rounds(n)) == n && Finished(Rounds(n)) == n
  {
    if n == 0 {
      assert Rounds(0) == [] + [Transition(Created, RunningModel)];
      Append([], Transition(Created, RunningModel));
    } else {
      RoundsReplay(n - 1);
      Append(Rounds(n - 1), Transition(RunningModel, RunningTool));
      Append(Rounds(n - 1) + [Transition(RunningModel, RunningTool)], Transition(RunningTool, RunningModel));
    }
  }

  lemma CanonicalReplay(status: Status, n: nat, pending: bool)
    requires status == Created ==> n == 0
    requires status == Created || status == RunningModel || status == Completed ==> !pending
    requires status == RunningTool ==> pending
    ensures var ts := Canonical(status, n, pending);
            && FinalStatus(ts) == Some(status)
            && Finished(ts) == n && Started(ts) == n + (if pending then 1 else 0)
            && (IsTerminal(status) ==> ts[|ts| - 1].from == if pending then RunningTool else RunningModel)
  {
    RoundsReplay(n);
    Append(Rounds(n), Transition(RunningModel, RunningTool));
    Append(WithPending(n, pending), Transition(if pending then RunningTool else RunningModel, status));
  }

  /** Any legal history is determined by its end, its counts and how it entered the end. */
  lemma {:induction false} LegalHistoryShape(ts: seq<Transition>)
    requires FinalStatus(ts).Some?
    ensures match FinalStatus(ts).value
            case Created => ts == [] && Started(ts) == Finished(ts) == 0
            case RunningModel => ts == Rounds(Finished(ts)) && Started(ts) == Finished(ts)
            case RunningTool => ts == WithPending(Finished(ts), true) && Started(ts) == Finished(ts) + 1
            case status =>
              var fromTool := ts[|ts| - 1].from == RunningTool;
              && ts == Canonical(status, Finished(ts), fromTool)
              && Started(ts) == Finished(ts) + (if fromTool then 1 else 0)
  {
    if ts != [] {
      var front, last := ts[..|ts| - 1], ts[|ts| - 1];
      assert ts == front + [last];
      Append(front, last);
      LegalHistoryShape(front);
    }
  }

  /** The checks that look at no history, written out. */
  predicate ConsistentRecord(cp: Checkpoint) {
    && (cp.schemaVersion == 1 || cp.schemaVersion == 2 || cp.schemaVersion == 3)
    && cp.executionId != "" && cp.request.executionId == cp.executionId && cp.result.executionId == cp.executionId
    && cp.request.prompt != "" && cp.maxSteps > 0
    && cp.modelIterations >= 0 && cp.modelIterations <= cp.maxSteps
    && cp.modelRetries >= 0 && cp.modelRetries <= cp.maxModelRetries && cp.modelRetries <= cp.modelIterations
    && (cp.schemaVersion != 3 ==> cp.maxModelRetries == 0 && cp.modelRetries == 0)
    && (cp.revision != 0 ==> cp.revision == Revision(cp))
  }

  predicate NamedCall(call: ToolCall) {
    call.id != "" && call.name != ""
  }

  /** The checks from schema 2 on, written out, with the history given in closed form. */
  predicate ValidInClosedForm(cp: Checkpoint) {
    var steps, pending, status := cp.result.steps, cp.pendingTool, cp.result.status;
    && ConsistentRecord(cp)
    && (forall i | 0 <= i < |steps| ::
          steps[i].index == i + 1 && steps[i].result.callId == steps[i].call.id && NamedCall(steps[i].call))
    && (forall i, j | 0 <= i < j < |steps| :: steps[i].call.id != steps[j].call.id)
    && (pending.Some? ==> NamedCall(pending.value))
    && (forall i | 0 <= i < |steps| && pending.Some? :: steps[i].call.id != pending.value.id)
    && cp.modelIterations >= |steps| + (if pending.Some? || status == Completed then 1 else 0)
    && (status == Created ==> cp.modelIterations == 0 && cp.modelRetries == 0)
    && (status == RunningTool ==> pending.Some?)
    && (status == Created || status == RunningModel || status == Completed ==> pending.None?)
    && (status != Completed ==> cp.result.output == "")
    && (cp.error != "" <==> status == Failed || status == Cancelled)
    && cp.result.transitions == Canonical(status, |steps|, pending.Some?)
  }

  /** For schema 2 and later, validity is exactly: sound header and steps, and the
      one history that status, step count and pending flag determine. */
  lemma ValidIffCanonical(cp: Checkpoint)
    requires cp.schemaVersion >= 2
    ensures Valid(cp) <==> ValidInClosedForm(cp)
  {
    if Valid(cp) { ValidIsCanonical(cp); }
    if ValidInClosedForm(cp) { CanonicalIsValid(cp); }
  }

  lemma ValidIsCanonical(cp: Checkpoint)
    requires Resumable(cp)
    ensures ValidInClosedForm(cp)
  {
    hide FinalStatus, Started, Finished, Rounds, Revision;
    LegalHistoryShape(cp.result.transitions);
  }

  lemma CanonicalIsValid(cp: Checkpoint)
    requires cp.schemaVersion >= 2 && ValidInClosedForm(cp)
    ensures Valid(cp)
  {
    hide FinalStatus, Started, Finished, Rounds, Revision;
    CanonicalReplay(cp.result.status, |cp.result.steps|, cp.pendingTool.Some?);
    assert ValidPending(cp);
  }

  /** For schema 1 it is a consistent record with a legal history up to its status. */
  lemma ValidVersionOne(cp: Checkpoint)
    requires cp.schemaVersion < 2
    ensures Valid(cp) <==> ConsistentRecord(cp) && FinalStatus(cp.result.transitions) == Some(cp.result.status)
  {
    hide FinalStatus, Recoverable;
  }

  /** Two valid records with equal status, step count and pending flag have the same
      history, and the revision has a closed form in the durable counters. */
  lemma ClosedForm(cp: Checkpoint)
    requires Resumable(cp)
    ensures cp.result.transitions == Canonical(cp.result.status, |cp.result.steps|, cp.pendingTool.Some?)
    ensures Revision(cp) == 1 + cp.modelIterations + cp.modelRetries + 2 * |cp.result.steps|
                            + PendingCount(cp.pendingTool) + (if IsTerminal(cp.result.status) then 1 else 0)
    ensures IsTerminal(cp.result.status) ==> |cp.result.transitions| > 0
    ensures Revision(cp) >= 1
  {
    hide ValidSteps, StepIds, FinalStatus, Started, Finished, Rounds;
    LegalHistoryShape(cp.result.transitions);
  }
}
