/** The trace recorder and the trace inspector. */
module Trace {
  import opened Domain
  import opened Events

  const TRACE_SCHEMA_VERSION := 1

  /** `recordedAt` is zero for the zero time. */
  datatype TraceRecord = TraceRecord(
    schemaVersion: int,
    sequence: int,
    recordedAt: int,
    kind: EventType,
    executionId: string,
    status: Status,
    modelAttempt: int,
    toolCallId: string,
    toolName: string,
    durationNanos: int,
    errorCode: string,
    httpStatus: int)

  /******* Recording *******/

  const HTTP_ERROR_CODE := "model_provider_http_error"

  /** `classifyTraceError`: the first matching classification, in the source's order. */
  function ClassifyTraceError(event: Event): (string, int) {
    if event.error.None? then ("", 0)
    else
      var e := event.error.value;
      if e.http.Some? then (HTTP_ERROR_CODE, e.http.value)
      else if ModelTimeout in e.tags then ("model_timeout", 0)
      else if ToolTimeout in e.tags then ("tool_timeout", 0)
      else if CtxCanceled in e.tags then ("context_canceled", 0)
      else if DeadlineExceeded in e.tags then ("context_deadline_exceeded", 0)
      else if StepLimitExceeded in e.tags then ("step_limit_exceeded", 0)
      else if DuplicateToolCall in e.tags then ("duplicate_tool_call", 0)
      else if InvalidDecision in e.tags then ("invalid_model_decision", 0)
      else if InvalidTransition in e.tags then ("invalid_execution_transition", 0)
      else if InvalidRequest in e.tags then ("invalid_request", 0)
      else if ToolExecutorMissing in e.tags then ("tool_executor_missing", 0)
      else if CheckpointStore in e.tags then ("checkpoint_store_error", 0)
      else if ExecutionBusy in e.tags then ("execution_busy", 0)
      else if RecoveryUnsupported in e.tags then ("recovery_unsupported", 0)
      else if ExecutionTerminal in e.tags then ("execution_terminal", 0)
      else if ToolOutcomeUnknown in e.tags then ("tool_outcome_unknown", 0)
      else if McpInputRequired in e.tags then ("mcp_input_required", 0)
      else if ModelAdapterConfig in e.tags then ("model_adapter_config_error", 0)
      else if ModelProvider in e.tags then ("model_provider_error", 0)
      else if ModelResponse in e.tags then ("model_response_error", 0)
      else if event.kind == ModelCompleted then ("model_callback_error", 0)
      else if event.kind == ToolCompleted then ("tool_callback_error", 0)
      else ("execution_error", 0)
  }

  /** The sentinels with a code of their own, in the order in which they are looked for. */
  const TRACE_CODES: seq<(Tag, string)> := [
    (ModelTimeout, "model_timeout"), (ToolTimeout, "tool_timeout"),
    (CtxCanceled, "context_canceled"), (DeadlineExceeded, "context_deadline_exceeded"),
    (StepLimitExceeded, "step_limit_exceeded"), (DuplicateToolCall, "duplicate_tool_call"),
    (InvalidDecision, "invalid_model_decision"), (InvalidTransition, "invalid_execution_transition"),
    (InvalidRequest, "invalid_request"), (ToolExecutorMissing, "tool_executor_missing"),
    (CheckpointStore, "checkpoint_store_error"), (ExecutionBusy, "execution_busy"),
    (RecoveryUnsupported, "recovery_unsupported"), (ExecutionTerminal, "execution_terminal"),
    (ToolOutcomeUnknown, "tool_outcome_unknown"), (McpInputRequired, "mcp_input_required"),
    (ModelAdapterConfig, "model_adapter_config_error"), (ModelProvider, "model_provider_error"),
    (ModelResponse, "model_response_error")
  ]

  /** The i-th sentinel is the first one that these tags contain. */
  predicate FirstTag(tags: set<Tag>, i: nat) {
    i < |TRACE_CODES| && TRACE_CODES[i].0 in tags && forall j | 0 <= j < i :: TRACE_CODES[j].0 !in tags
  }

  /** No error, no code; a provider's HTTP status comes first and alone keeps its number; then
      the first sentinel found decides, and only an error without any falls back to the
      kind of event. */
  lemma ClassifyTable(event: Event)
    ensures var (code, http) := ClassifyTraceError(event);
            match event.error
            case None => code == "" && http == 0
            case Some(e) =>
              if e.http.Some? then code == "model_provider_http_error" && http == e.http.value
              else
                && http == 0
                && (forall i | 0 <= i < |TRACE_CODES| :: FirstTag(e.tags, i) ==> code == TRACE_CODES[i].1)
                && ((forall i | 0 <= i < |TRACE_CODES| :: TRACE_CODES[i].0 !in e.tags) ==>
                      code == if event.kind == ModelCompleted then "model_callback_error"
                              else if event.kind == ToolCompleted then "tool_callback_error"
                              else "execution_error")
  {
    if event.error.Some? && event.error.value.http.None? {
      FirstCodeDecides(event, event.error.value.tags);
    }
  }

  /** The code of the first sentinel from the i-th on, if there is one. */
  function CodeFrom(tags: set<Tag>, i: nat): Option<string>
    decreases |TRACE_CODES| - i
  {
    if i >= |TRACE_CODES| then None
    else if TRACE_CODES[i].0 in tags then Some(TRACE_CODES[i].1)
    else CodeFrom(tags, i + 1)
  }

  lemma FirstCodeDecides(event: Event, tags: set<Tag>)
    requires event.error.Some? && event.error.value.http.None? && tags == event.error.value.tags
    ensures ClassifyTraceError(event).1 == 0
    ensures forall i | 0 <= i < |TRACE_CODES| :: FirstTag(tags, i) ==> ClassifyTraceError(event).0 == TRACE_CODES[i].1
    ensures (forall i | 0 <= i < |TRACE_CODES| :: TRACE_CODES[i].0 !in tags) ==>
              ClassifyTraceError(event).0 == FallbackCode(event)
  {
    ClassifiedByCodes(event, tags);
    hide ClassifyTraceError;
    forall i | 0 <= i < |TRACE_CODES| && FirstTag(tags, i) ensures CodeFrom(tags, 0) == Some(TRACE_CODES[i].1) {
      CodeFromFirst(tags, 0, i);
    }
    if forall i | 0 <= i < |TRACE_CODES| :: TRACE_CODES[i].0 !in tags {
      CodeFromNone(tags, 0);
    }
  }

  function FallbackCode(event: Event): string {
    if event.kind == ModelCompleted then "model_callback_error"
    else if event.kind == ToolCompleted then "tool_callback_error"
    else "execution_error"
  }

  lemma {:induction false} CodeFromFirst(tags: set<Tag>, from: nat, i: nat)
    requires from <= i && FirstTag(tags, i)
    ensures CodeFrom(tags, from) == Some(TRACE_CODES[i].1)
    decreases i - from
  {
    hide TRACE_CODES;
    if from < i { CodeFromFirst(tags, from + 1, i); }
  }

  lemma {:induction false} CodeFromNone(tags: set<Tag>, from: nat)
    requires forall i | 0 <= i < |TRACE_CODES| :: TRACE_CODES[i].0 !in tags
    ensures CodeFrom(tags, from).None?
    decreases |TRACE_CODES| - from
  {
    hide TRACE_CODES;
    if from < |TRACE_CODES| { CodeFromNone(tags, from + 1); }
  }

  lemma ClassifiedByCodes(event: Event, tags: set<Tag>)
    requires event.error.Some? && event.error.value.http.None? && tags == event.error.value.tags
    ensures ClassifyTraceError(event) ==
            (if CodeFrom(tags, 0).Some? then CodeFrom(tags, 0).value else FallbackCode(event), 0)
  {
    hide TRACE_CODES, CodeFrom;
    FirstCodes(tags);
    LastCodes(tags);
  }

  lemma CodeStep(tags: set<Tag>, i: nat)
    requires i < |TRACE_CODES|
    ensures CodeFrom(tags, i) == if TRACE_CODES[i].0 in tags then Some(TRACE_CODES[i].1) else CodeFrom(tags, i + 1)
  {
    hide TRACE_CODES;
  }

  lemma FirstCodes(tags: set<Tag>)
    ensures CodeFrom(tags, 0) ==
            if ModelTimeout in tags then Some("model_timeout")
            else if ToolTimeout in tags then Some("tool_timeout")
            else if CtxCanceled in tags then Some("context_canceled")
            else if DeadlineExceeded in tags then Some("context_deadline_exceeded")
            else if StepLimitExceeded in tags then Some("step_limit_exceeded")
            else if DuplicateToolCall in tags then Some("duplicate_tool_call")
            else if InvalidDecision in tags then Some("invalid_model_decision")
            else if InvalidTransition in tags then Some("invalid_execution_transition")
            else if InvalidRequest in tags then Some("invalid_request")
            else if ToolExecutorMissing in tags then Some("tool_executor_missing")
            else CodeFrom(tags, 10)
  {
    hide CodeFrom;
    CodeStep(tags, 0); CodeStep(tags, 1); CodeStep(tags, 2); CodeStep(tags, 3); CodeStep(tags, 4);
    CodeStep(tags, 5); CodeStep(tags, 6); CodeStep(tags, 7); CodeStep(tags, 8); CodeStep(tags, 9);
  }

  lemma LastCodes(tags: set<Tag>)
    ensures CodeFrom(tags, 10) ==
            if CheckpointStore in tags then Some("checkpoint_store_error")
            else if ExecutionBusy in tags then Some("execution_busy")
            else if RecoveryUnsupported in tags then Some("recovery_unsupported")
            else if ExecutionTerminal in tags then Some("execution_terminal")
            else if ToolOutcomeUnknown in tags then Some("tool_outcome_unknown")
            else if McpInputRequired in tags then Some("mcp_input_required")
            else if ModelAdapterConfig in tags then Some("model_adapter_config_error")
            else if ModelProvider in tags then Some("model_provider_error")
            else if ModelResponse in tags then Some("model_response_error")
            else None
  {
    CodeStep(tags, 10); CodeStep(tags, 11); CodeStep(tags, 12); CodeStep(tags, 13); CodeStep(tags, 14);
    CodeStep(tags, 15); CodeStep(tags, 16); CodeStep(tags, 17); CodeStep(tags, 18);
    assert CodeFrom(tags, 19).None?;
  }

  function RecordOf(event: Event, sequence: int, now: int, duration: int): TraceRecord {
    var (code, http) := ClassifyTraceError(event);
    TraceRecord(TRACE_SCHEMA_VERSION, sequence, now, event.kind, event.executionId, event.status, event.modelAttempt,
                event.toolCallId, event.toolName, duration, code, http)
  }

  /** What the file system did with one record. */
  datatype Io = Durable | NotWritten | NotSynced

  class FileTraceRecorder {
    var file: seq<TraceRecord>
    var sequence: nat
    var failed: bool
    var closed: bool

    constructor ()
      ensures file == [] && sequence == 0 && !failed && !closed && Numbered()
    {
      file, sequence, failed, closed := [], 0, false, false;
    }

    /** The file is numbered from one without gaps, also after a failure. */
    ghost predicate Numbered()
      reads this
    {
      && (forall i | 0 <= i < |file| :: file[i].sequence == i + 1)
      && (if failed then |file| == sequence || |file| == sequence + 1 else |file| == sequence)
    }

    method OnEvent(event: Event, now: int, duration: int, io: Io)
      requires Numbered()
      modifies this
      ensures Numbered() && closed == old(closed)
      ensures old(closed || failed) ==> file == old(file) && failed == old(failed)
      ensures !old(closed || failed) ==>
                && failed == (io != Durable)
                && file == if io == NotWritten then old(file)
                           else old(file) + [RecordOf(event, |old(file)| + 1, now, duration)]
    {
      if closed || failed { return; }
      var record := RecordOf(event, sequence + 1, now, duration);
      match io {
        case NotWritten => failed := true;
        case NotSynced => file, failed := file + [record], true;
        case Durable => file, sequence := file + [record], sequence + 1;
      }
    }

    /** Recording a list of events durably writes exactly their numbered records. */
    method RecordAll(events: seq<Event>, times: seq<int>, durations: seq<int>)
      requires Numbered() && file == [] && !failed && !closed
      requires |times| == |durations| == |events|
      modifies this
      ensures file == Recorded(events, times, durations) && !failed
    {
      for i := 0 to |events|
        invariant Numbered() && !failed && !closed
        invariant file == Recorded(events[..i], times[..i], durations[..i])
      {
        OnEvent(events[i], times[i], durations[i], Durable);
        assert file == Recorded(events[..i + 1], times[..i + 1], durations[..i + 1]);
      }
      assert events[..|events|] == events && times[..|events|] == times && durations[..|events|] == durations;
    }
  }

  function Recorded(events: seq<Event>, times: seq<int>, durations: seq<int>): seq<TraceRecord>
    requires |times| == |durations| == |events|
  {
    seq(|events|, i requires 0 <= i < |events| => RecordOf(events[i], i + 1, times[i], durations[i]))
  }

  /******* Inspecting *******/

  predicate IsTerminalEvent(kind: EventType) {
    kind == ExecutionCompleted || kind == ExecutionFailed || kind == ExecutionCancelled
  }

  predicate ValidEventStatus(kind: EventType, status: Status) {
    match kind
    case ExecutionStarted => status == Created
    case ModelStarted => status == RunningModel
    case ModelCompleted => status == RunningModel
    case ToolStarted => status == RunningTool
    case ToolCompleted => status == RunningTool
    case ExecutionCompleted => status == Completed
    case ExecutionFailed => status == Failed
    case ExecutionCancelled => status == Cancelled
    case UnknownEvent(_) => false
  }

  predicate ValidRecord(r: TraceRecord, sequence: int) {
    && r.schemaVersion == TRACE_SCHEMA_VERSION && r.sequence == sequence && r.recordedAt != 0
    && ValidEventStatus(r.kind, r.status)
    && r.modelAttempt >= 0 && r.durationNanos >= 0 && r.httpStatus >= 0
    && (r.httpStatus != 0 ==> r.errorCode == HTTP_ERROR_CODE)
  }

  /** What `InspectTrace` accepts. */
  predicate ValidTrace(records: seq<TraceRecord>) {
    && records != []
    && forall i | 0 <= i < |records| :: ValidAt(records, i)
  }

  predicate ValidAt(records: seq<TraceRecord>, i: nat)
    requires i < |records|
  {
    && ValidRecord(records[i], i + 1) && records[i].executionId == records[0].executionId
    && (IsTerminalEvent(records[i].kind) ==> i == |records| - 1)
  }

  datatype TraceInspection = TraceInspection(
    recordCount: nat,
    executionId: string,
    startedAt: int,
    lastRecordedAt: int,
    modelAttempts: int,
    toolCalls: nat,
    lastStatus: Status,
    terminal: Option<TerminalSummary>)

  /** Present exactly when the trace is complete. */
  datatype TerminalSummary = TerminalSummary(status: Status, errorCode: string, httpStatus: int)

  function MaxAttempt(records: seq<TraceRecord>): int {
    if records == [] then 0
    else
      var rest, last := MaxAttempt(records[..|records| - 1]), records[|records| - 1].modelAttempt;
      if last > rest then last else rest
  }

  function CountToolStarts(records: seq<TraceRecord>): nat {
    if records == [] then 0
    else CountToolStarts(records[..|records| - 1]) + if records[|records| - 1].kind == ToolStarted then 1 else 0
  }

  function Summary(records: seq<TraceRecord>): TraceInspection
    requires records != []
  {
    var last := records[|records| - 1];
    TraceInspection(|records|, records[0].executionId, records[0].recordedAt, last.recordedAt, MaxAttempt(records),
                    CountToolStarts(records), last.status,
                    if IsTerminalEvent(last.kind)
                    then Some(TerminalSummary(last.status, last.errorCode, last.httpStatus)) else None)
  }

  method InspectTrace(records: seq<TraceRecord>) returns (r: Option<TraceInspection>)
    ensures r == if ValidTrace(records) then Some(Summary(records)) else None
  {
    if records == [] { return None; }
    var attempts, tools, terminal := 0, 0, None;
    var lastAt, lastStatus := records[0].recordedAt, records[0].status;
    for i := 0 to |records|
      invariant forall k | 0 <= k < i :: ValidAt(records, k)
      invariant attempts == MaxAttempt(records[..i]) && tools == CountToolStarts(records[..i])
      invariant i > 0 ==> lastAt == records[i - 1].recordedAt && lastStatus == records[i - 1].status
      invariant i < |records| ==> terminal.None?
      invariant i == |records| ==>
                  terminal == if IsTerminalEvent(records[i - 1].kind)
                              then Some(TerminalSummary(records[i - 1].status, records[i - 1].errorCode,
                                                        records[i - 1].httpStatus))
                              else None
    {
      var record := records[i];
      assert records[..i + 1][..i] == records[..i] && records[..i + 1][i] == record;
      if !ValidRecord(record, i + 1) || record.executionId != records[0].executionId {
        assert !ValidAt(records, i);
        return None;
      }
      lastAt, lastStatus := record.recordedAt, record.status;
      if record.modelAttempt > attempts { attempts := record.modelAttempt; }
      if record.kind == ToolStarted { tools := tools + 1; }
      if IsTerminalEvent(record.kind) {
        if i != |records| - 1 {
          assert !ValidAt(records, i);
          return None;
        }
        terminal := Some(TerminalSummary(record.status, record.errorCode, record.httpStatus));
      }
    }
    assert records[..|records|] == records;
    return Some(TraceInspection(|records|, records[0].executionId, records[0].recordedAt, lastAt, attempts, tools,
                                lastStatus, terminal));
  }

  /******* What is accepted and what is summarised, written out *******/

  /** The statuses that go with each kind of event. */
  const EVENT_STATUSES: set<(EventType, Status)> := {
    (ExecutionStarted, Created),
    (ModelStarted, RunningModel), (ModelCompleted, RunningModel),
    (ToolStarted, RunningTool), (ToolCompleted, RunningTool),
    (ExecutionCompleted, Completed), (ExecutionFailed, Failed), (ExecutionCancelled, Cancelled)
  }

  predicate Acceptable(records: seq<TraceRecord>, i: nat)
    requires i < |records|
  {
    var r := records[i];
    && r.schemaVersion == 1 && r.sequence == i + 1 && r.recordedAt != 0
    && r.executionId == records[0].executionId
    && (r.kind, r.status) in EVENT_STATUSES
    && r.modelAttempt >= 0 && r.durationNanos >= 0 && r.httpStatus >= 0
    && (r.httpStatus > 0 ==> r.errorCode == "model_provider_http_error")
    && (r.kind == ExecutionCompleted || r.kind == ExecutionFailed || r.kind == ExecutionCancelled ==>
          i + 1 == |records|)
  }

  /** The inspector accepts exactly non-empty traces of one execution, numbered from one,
      with known events in their statuses, non-negative counts, HTTP statuses only under
      their code, and nothing after a terminal event. */
  lemma AcceptedTable(records: seq<TraceRecord>)
    ensures ValidTrace(records) <==> records != [] && forall i | 0 <= i < |records| :: Acceptable(records, i)
  {
    forall i | 0 <= i < |records| ensures ValidAt(records, i) <==> Acceptable(records, i) {
      AcceptedAt(records, i);
    }
  }

  lemma AcceptedAt(records: seq<TraceRecord>, i: nat)
    requires i < |records|
    ensures ValidAt(records, i) <==> Acceptable(records, i)
  {
  }

  lemma {:induction false} MaxAttemptIsMax(records: seq<TraceRecord>)
    ensures MaxAttempt(records) >= 0
    ensures forall i | 0 <= i < |records| :: records[i].modelAttempt <= MaxAttempt(records)
    ensures MaxAttempt(records) == 0 || exists i | 0 <= i < |records| :: records[i].modelAttempt == MaxAttempt(records)
  {
    if records != [] {
      var front := records[..|records| - 1];
      MaxAttemptIsMax(front);
      assert forall i | 0 <= i < |front| :: records[i] == front[i];
      if MaxAttempt(front) != 0 {
        var k :| 0 <= k < |front| && front[k].modelAttempt == MaxAttempt(front);
        assert records[k].modelAttempt == MaxAttempt(front);
      }
    }
  }

  function ToolStartsBefore(records: seq<TraceRecord>, n: nat): set<int>
    requires n <= |records|
  {
    set i | 0 <= i < n && records[i].kind == ToolStarted
  }

  lemma {:induction false} ToolStartsAreCounted(records: seq<TraceRecord>, n: nat)
    requires n <= |records|
    ensures CountToolStarts(records[..n]) == |ToolStartsBefore(records, n)|
  {
    if n > 0 {
      ToolStartsAreCounted(records, n - 1);
      assert records[..n][..n - 1] == records[..n - 1];
      if records[n - 1].kind == ToolStarted {
        assert ToolStartsBefore(records, n) == ToolStartsBefore(records, n - 1) + {n - 1};
      } else {
        assert ToolStartsBefore(records, n) == ToolStartsBefore(records, n - 1);
      }
    }
  }

  /** What the summary of an accepted trace says: its first and last record, the largest
      model attempt, the number of tool starts, and how it ended, if it did. */
  lemma SummaryTable(records: seq<TraceRecord>)
    requires ValidTrace(records)
    ensures var s, first, last := Summary(records), records[0], records[|records| - 1];
            && s.recordCount == |records| && s.executionId == first.executionId
            && s.startedAt == first.recordedAt && s.lastRecordedAt == last.recordedAt && s.lastStatus == last.status
            && (forall i | 0 <= i < |records| :: records[i].modelAttempt <= s.modelAttempts)
            && (s.modelAttempts == 0 || exists i | 0 <= i < |records| :: records[i].modelAttempt == s.modelAttempts)
            && s.toolCalls == |ToolStartsBefore(records, |records|)|
            && (s.terminal.Some? <==> last.status == Completed || last.status == Failed || last.status == Cancelled)
            && (s.terminal.Some? ==>
                  && s.terminal.value.status == last.status
                  && s.terminal.value.errorCode == last.errorCode && s.terminal.value.httpStatus == last.httpStatus)
  {
    MaxAttemptIsMax(records);
    ToolStartsAreCounted(records, |records|);
    assert records[..|records|] == records;
    assert ValidAt(records, |records| - 1);
  }

  /** What is recorded of an event. */
  lemma RecordedTable(events: seq<Event>, times: seq<int>, durations: seq<int>, i: nat)
    requires |times| == |durations| == |events| && i < |events|
    ensures var r, e := Recorded(events, times, durations)[i], events[i];
            && r.schemaVersion == 1 && r.sequence == i + 1 && r.recordedAt == times[i]
            && r.durationNanos == durations[i]
            && r.kind == e.kind && r.executionId == e.executionId && r.status == e.status
            && r.modelAttempt == e.modelAttempt && r.toolCallId == e.toolCallId && r.toolName == e.toolName
            && (r.errorCode, r.httpStatus) == ClassifyTraceError(e)
  {
    hide ClassifyTraceError;
  }
}
