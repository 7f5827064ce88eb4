/** The SQLite store: one row per execution, changed by guarded single-statement
    updates. Each operation on a row refines the operation on the slot that the row
    stands for, so whole sequences of operations answer alike. */
module SqliteStore {
  import opened Domain
  import opened Checkpoints
  import opened LeaseStore

  const MAX_INT64: int := 0x7FFF_FFFF_FFFF_FFFF

  datatype Row = Row(checkpoint: Option<Checkpoint>, revision: int, token: int, expires: int)

  /** `sqliteInt64`: a uint64 that SQLite cannot hold is refused. */
  function SqliteInt64(value: nat): Option<int> {
    if value > MAX_INT64 then None else Some(value)
  }

  /** `sqliteLeaseExpiry`. */
  function SqliteLeaseExpiry(now: int, duration: int): Option<int> {
    if duration <= 0 || now > MAX_INT64 - duration then None else Some(now + duration)
  }

  /******* The statements, on the row they address *******/

  /** INSERT ... ON CONFLICT DO UPDATE ... RETURNING, then `classifyLeaseAcquisition`. */
  function RowAcquire(row: Option<Row>, now: int, duration: int): (Option<Row>, Reply) {
    var expires := SqliteLeaseExpiry(now, duration);
    if expires.None? then (row, Refused(InvalidRequest))
    else if row.None? then (Some(Row(None, 0, 1, expires.value)), Granted(1))
    else if row.value.expires <= now && 0 <= row.value.token < MAX_INT64 then
      (Some(row.value.(token := row.value.token + 1, expires := expires.value)), Granted(row.value.token + 1))
    else if row.value.expires > now then (row, Refused(ExecutionBusy))
    else if row.value.token == MAX_INT64 then (row, Refused(ExecutionFenced))
    else (row, Refused(ExecutionBusy))
  }

  predicate RowInForce(row: Option<Row>, token: int, now: int) {
    row.Some? && row.value.token == token && row.value.expires > now
  }

  function RowRenew(row: Option<Row>, token: nat, now: int, duration: int): (Option<Row>, Reply) {
    if token == 0 then (row, Refused(LeaseRequired))
    else if SqliteInt64(token).None? then (row, Refused(InvalidCheckpoint))
    else
      var expires := SqliteLeaseExpiry(now, duration);
      if expires.None? then (row, Refused(InvalidRequest))
      else if RowInForce(row, token, now) then (Some(row.value.(expires := expires.value)), Done)
      else (row, Refused(ExecutionFenced))
  }

  function RowRelease(row: Option<Row>, token: nat): Option<Row> {
    if row.Some? && row.value.token == token then Some(row.value.(expires := 0)) else row
  }

  /** The WHERE clause of the two checkpoint updates. */
  predicate RowWritable(row: Option<Row>, revision: int, token: int, create: bool, now: int) {
    && RowInForce(row, token, now)
    && (create <==> row.value.checkpoint.None?)
    && (!create ==> row.value.revision == 0 || revision > row.value.revision)
  }

  /** `classifyFencedWrite`, run when no row was updated. */
  function ClassifyWrite(row: Option<Row>, token: int, create: bool, now: int): Tag {
    if !RowInForce(row, token, now) then ExecutionFenced
    else if create then (if row.value.checkpoint.Some? then ExecutionExists else CheckpointConflict)
    else if row.value.checkpoint.None? then ExecutionNotFound
    else CheckpointConflict
  }

  function RowWrite(row: Option<Row>, cp: Checkpoint, token: nat, create: bool, now: int): (Option<Row>, Reply) {
    if !Valid(cp) then (row, Refused(InvalidCheckpoint))
    else if token == 0 then (row, Refused(LeaseRequired))
    else if SqliteInt64(token).None? || SqliteInt64(cp.revision).None? then (row, Refused(InvalidCheckpoint))
    else if RowWritable(row, cp.revision, token, create, now) then
      (Some(row.value.(checkpoint := Some(cp), revision := cp.revision)), Done)
    else (row, Refused(ClassifyWrite(row, token, create, now)))
  }

  function RowLoad(row: Option<Row>, id: string): Reply {
    if row.None? || row.value.checkpoint.None? then Refused(ExecutionNotFound)
    else if !Valid(row.value.checkpoint.value) || row.value.checkpoint.value.executionId != id
    then Refused(InvalidCheckpoint)
    else Record(row.value.checkpoint.value)
  }

  /******* The abstraction *******/

  predicate RowInvariant(row: Option<Row>, id: string) {
    row.Some? ==>
      && 1 <= row.value.token <= MAX_INT64 && 0 <= row.value.expires <= MAX_INT64
      && (row.value.checkpoint.None? ==> row.value.revision == 0)
      && (row.value.checkpoint.Some? ==>
            && Valid(row.value.checkpoint.value) && row.value.checkpoint.value.executionId == id
            && row.value.revision == row.value.checkpoint.value.revision)
  }

  /** The slots that rows stand for. */
  predicate Representable(slot: Slot, id: string) {
    && slot.lastToken <= MAX_INT64
    && (slot.lastToken == 0 ==> slot == EMPTY_SLOT)
    && (slot.lease.Some? ==>
          slot.lease.value.token == slot.lastToken && 0 < slot.lease.value.expiresAt <= MAX_INT64)
    && (slot.record.Some? ==> Valid(slot.record.value) && slot.record.value.executionId == id)
  }

  /** A lease is present exactly when the expiry is positive. */
  function Abs(row: Option<Row>): Slot {
    if row.None? then EMPTY_SLOT
    else
      var token: nat := if row.value.token >= 0 then row.value.token else 0;
      Slot(row.value.checkpoint, if row.value.expires > 0 then Some(Lease(token, row.value.expires)) else None, token)
  }

  function Conc(slot: Slot): Option<Row> {
    if slot.lastToken == 0 then None
    else Some(Row(slot.record, if slot.record.Some? then slot.record.value.revision else 0, slot.lastToken,
                  if slot.lease.Some? then slot.lease.value.expiresAt else 0))
  }

  /** Rows and representable slots correspond one to one. */
  lemma AbsIsBijective(row: Option<Row>, slot: Slot, id: string)
    ensures RowInvariant(row, id) ==> Representable(Abs(row), id) && Conc(Abs(row)) == row
    ensures Representable(slot, id) ==> RowInvariant(Conc(slot), id) && Abs(Conc(slot)) == slot
  {
  }

  /******* Refinement of every operation and every sequence *******/

  datatype Op =
    | OpAcquire(now: int)
    | OpRenew(token: nat, now: int)
    | OpRelease(token: nat)
    | OpWrite(cp: Checkpoint, token: nat, create: bool, now: int)
    | OpLoad

  function SlotStep(slot: Slot, op: Op, duration: int): (Slot, Reply) {
    match op
    case OpAcquire(now) => Acquire(slot, now, duration)
    case OpRenew(token, now) => Renew(slot, token, now, duration)
    case OpRelease(token) => (Release(slot, token), Done)
    case OpWrite(cp, token, create, now) => Write(slot, cp, token, create, now)
    case OpLoad => (slot, Load(slot))
  }

  function RowStep(row: Option<Row>, id: string, op: Op, duration: int): (Option<Row>, Reply) {
    match op
    case OpAcquire(now) => RowAcquire(row, now, duration)
    case OpRenew(token, now) => RowRenew(row, token, now, duration)
    case OpRelease(token) => (RowRelease(row, token), Done)
    case OpWrite(cp, token, create, now) => RowWrite(row, cp, token, create, now)
    case OpLoad => (row, RowLoad(row, id))
  }

  predicate ClockInRange(now: int, duration: int) {
    duration > 0 && 0 <= now <= MAX_INT64 - duration
  }

  /** Arguments inside SQLite's integer range, for the execution the row belongs to. */
  predicate InRange(op: Op, id: string, duration: int) {
    match op
    case OpAcquire(now) => ClockInRange(now, duration)
    case OpRenew(token, now) => token <= MAX_INT64 && ClockInRange(now, duration)
    case OpRelease(token) => true
    case OpWrite(cp, token, _, now) =>
      cp.executionId == id && token <= MAX_INT64 && cp.revision <= MAX_INT64 && ClockInRange(now, duration)
    case OpLoad => true
  }

  /** Same reply, corresponding state, at most one token more. */
  predicate Corresponds(row: Option<Row>, id: string, after: (Option<Row>, Reply), slotAfter: (Slot, Reply)) {
    && RowInvariant(after.0, id) && Abs(after.0) == slotAfter.0 && after.1 == slotAfter.1
    && slotAfter.0.lastToken <= Abs(row).lastToken + 1
  }

  lemma AcquireRefines(row: Option<Row>, id: string, now: int, duration: int)
    requires RowInvariant(row, id) && ClockInRange(now, duration) && Abs(row).lastToken < MAX_INT64
    ensures Corresponds(row, id, RowAcquire(row, now, duration), Acquire(Abs(row), now, duration))
  {
    hide Valid;
  }

  lemma RenewRefines(row: Option<Row>, id: string, token: nat, now: int, duration: int)
    requires RowInvariant(row, id) && token <= MAX_INT64 && ClockInRange(now, duration)
    ensures Corresponds(row, id, RowRenew(row, token, now, duration), Renew(Abs(row), token, now, duration))
  {
    hide Valid;
  }

  lemma ReleaseRefines(row: Option<Row>, id: string, token: nat)
    requires RowInvariant(row, id)
    ensures Corresponds(row, id, (RowRelease(row, token), Done), (Release(Abs(row), token), Done))
  {
    hide Valid;
  }

  lemma WriteRefines(row: Option<Row>, id: string, cp: Checkpoint, token: nat, create: bool, now: int)
    requires RowInvariant(row, id) && cp.executionId == id && token <= MAX_INT64 && cp.revision <= MAX_INT64 && 0 <= now
    ensures Corresponds(row, id, RowWrite(row, cp, token, create, now), Write(Abs(row), cp, token, create, now))
  {
    hide Valid;
  }

  lemma LoadRefines(row: Option<Row>, id: string)
    requires RowInvariant(row, id)
    ensures Corresponds(row, id, (row, RowLoad(row, id)), (Abs(row), Load(Abs(row))))
  {
    hide Valid;
  }

  /** Every operation on a row answers and acts as the one on the slot it stands for. */
  lemma StepRefines(row: Option<Row>, id: string, op: Op, duration: int)
    requires RowInvariant(row, id) && InRange(op, id, duration) && Abs(row).lastToken < MAX_INT64
    ensures Corresponds(row, id, RowStep(row, id, op, duration), SlotStep(Abs(row), op, duration))
  {
    hide Corresponds, RowInvariant, RowAcquire, RowRenew, RowRelease, RowWrite, RowLoad,
         Acquire, Renew, Release, Write, Load, Abs;
    match op
    case OpAcquire(now) => AcquireRefines(row, id, now, duration);
    case OpRenew(token, now) => RenewRefines(row, id, token, now, duration);
    case OpRelease(token) => ReleaseRefines(row, id, token);
    case OpWrite(cp, token, create, now) => WriteRefines(row, id, cp, token, create, now);
    case OpLoad => LoadRefines(row, id);
  }

  function SlotRun(slot: Slot, ops: seq<Op>, duration: int): (Slot, seq<Reply>)
    decreases |ops|
  {
    if ops == [] then (slot, [])
    else
      var (slot', reply) := SlotStep(slot, ops[0], duration);
      var (last, replies) := SlotRun(slot', ops[1..], duration);
      (last, [reply] + replies)
  }

  function RowRun(row: Option<Row>, id: string, ops: seq<Op>, duration: int): (Option<Row>, seq<Reply>)
    decreases |ops|
  {
    if ops == [] then (row, [])
    else
      var (row', reply) := RowStep(row, id, ops[0], duration);
      var (last, replies) := RowRun(row', id, ops[1..], duration);
      (last, [reply] + replies)
  }

  /** The same sequence of calls at the same clock readings gives the same tokens,
      records and errors on both stores, and leaves corresponding states. */
  lemma {:induction false} SqliteRefinesMemory(row: Option<Row>, id: string, ops: seq<Op>, duration: int)
    requires RowInvariant(row, id)
    requires forall i | 0 <= i < |ops| :: InRange(ops[i], id, duration)
    requires Abs(row).lastToken + |ops| <= MAX_INT64
    ensures RowRun(row, id, ops, duration).1 == SlotRun(Abs(row), ops, duration).1
    ensures Abs(RowRun(row, id, ops, duration).0) == SlotRun(Abs(row), ops, duration).0
    ensures RowInvariant(RowRun(row, id, ops, duration).0, id)
    decreases |ops|
  {
    hide RowInvariant, Abs, RowStep, SlotStep, InRange;
    if ops != [] {
      StepRefines(row, id, ops[0], duration);
      SqliteRefinesMemory(RowStep(row, id, ops[0], duration).0, id, ops[1..], duration);
    }
  }

  /** Outside that range the stores part: on a released lease the memory store grants
      at any clock, the SQLite store exactly from the epoch on. */
  lemma ReleasedLeaseNeedsEpoch(row: Option<Row>, now: int, duration: int)
    requires row.Some? && 1 <= row.value.token < MAX_INT64 && row.value.expires == 0
    requires duration > 0 && now <= MAX_INT64 - duration
    ensures Acquire(Abs(row), now, duration).1 == Granted(row.value.token + 1)
    ensures RowAcquire(row, now, duration).1 == Granted(row.value.token + 1) <==> 0 <= now
  {
  }

  /** What SQLite's integers cannot hold is refused before the row is touched. */
  lemma OutOfRangeIsRefused(row: Option<Row>, cp: Checkpoint, token: nat, create: bool, now: int, duration: int)
    requires duration > 0 && token != 0
    ensures now + duration > MAX_INT64 ==> RowAcquire(row, now, duration) == (row, Refused(InvalidRequest))
    ensures token > MAX_INT64 ==> RowRenew(row, token, now, duration) == (row, Refused(InvalidCheckpoint))
    ensures token <= MAX_INT64 && now + duration > MAX_INT64 ==>
              RowRenew(row, token, now, duration) == (row, Refused(InvalidRequest))
    ensures token > MAX_INT64 || cp.revision > MAX_INT64 ==>
              RowWrite(row, cp, token, create, now) == (row, Refused(InvalidCheckpoint))
  {
    hide Valid;
  }

  /******* The store object *******/

  class SQLiteCheckpointStore {
    const leaseDuration: int
    var rows: map<string, Row>

    constructor (duration: int)
      requires duration > 0
      ensures leaseDuration == duration && rows == map[] && Consistent()
    {
      leaseDuration := duration;
      rows := map[];
    }

    function RowOf(id: string): Option<Row>
      reads this
    {
      if id in rows then Some(rows[id]) else None
    }

    ghost predicate Consistent()
      reads this
    {
      forall id :: RowInvariant(RowOf(id), id)
    }

    twostate predicate OthersUnchanged(id: string)
      reads this
    {
      forall other :: other != id ==> RowOf(other) == old(RowOf(other))
    }

    method AcquireExecutionLease(id: string, now: int) returns (reply: Reply)
      modifies this
      ensures id == "" ==> reply == Refused(InvalidRequest) && rows == old(rows)
      ensures id != "" ==> (RowOf(id), reply) == RowAcquire(old(RowOf(id)), now, leaseDuration)
      ensures OthersUnchanged(id) && (old(Consistent()) && 0 <= now ==> Consistent())
    {
      if id == "" { return Refused(InvalidRequest); }
      var expires := SqliteLeaseExpiry(now, leaseDuration);
      if expires.None? { return Refused(InvalidRequest); }
      if !(id in rows) {
        rows := rows[id := Row(None, 0, 1, expires.value)];
        return Granted(1);
      }
      var row := rows[id];
      if row.expires <= now && 0 <= row.token < MAX_INT64 {
        rows := rows[id := row.(token := row.token + 1, expires := expires.value)];
        return Granted(row.token + 1);
      }
      if row.expires > now { return Refused(ExecutionBusy); }
      if row.token == MAX_INT64 { return Refused(ExecutionFenced); }
      return Refused(ExecutionBusy);
    }

    method ReleaseExecutionLease(id: string, token: nat)
      modifies this
      ensures RowOf(id) == RowRelease(old(RowOf(id)), token)
      ensures OthersUnchanged(id) && (old(Consistent()) ==> Consistent())
    {
      if id in rows && rows[id].token == token {
        rows := rows[id := rows[id].(expires := 0)];
      }
    }

    method RenewExecutionLease(id: string, token: nat, now: int) returns (reply: Reply)
      modifies this
      ensures id == "" ==> reply == Refused(LeaseRequired) && rows == old(rows)
      ensures id != "" ==> (RowOf(id), reply) == RowRenew(old(RowOf(id)), token, now, leaseDuration)
      ensures OthersUnchanged(id) && (old(Consistent()) && 0 <= now ==> Consistent())
    {
      if id == "" || token == 0 { return Refused(LeaseRequired); }
      if SqliteInt64(token).None? { return Refused(InvalidCheckpoint); }
      var expires := SqliteLeaseExpiry(now, leaseDuration);
      if expires.None? { return Refused(InvalidRequest); }
      if id in rows && rows[id].token == token && rows[id].expires > now {
        rows := rows[id := rows[id].(expires := expires.value)];
        return Done;
      }
      return Refused(ExecutionFenced);
    }

    method WriteFenced(cp: Checkpoint, token: nat, create: bool, now: int) returns (reply: Reply)
      modifies this
      ensures (RowOf(cp.executionId), reply) == RowWrite(old(RowOf(cp.executionId)), cp, token, create, now)
      ensures OthersUnchanged(cp.executionId) && (old(Consistent()) ==> Consistent())
    {
      var valid := ValidateCheckpoint(cp);
      if !valid { return Refused(InvalidCheckpoint); }
      if token == 0 { return Refused(LeaseRequired); }
      if SqliteInt64(token).None? || SqliteInt64(cp.revision).None? { return Refused(InvalidCheckpoint); }
      var id := cp.executionId;
      if id in rows && rows[id].token == token && rows[id].expires > now {
        var row := rows[id];
        if (create && row.checkpoint.None?)
           || (!create && row.checkpoint.Some? && (row.revision == 0 || cp.revision > row.revision)) {
          rows := rows[id := row.(checkpoint := Some(cp), revision := cp.revision)];
          return Done;
        }
      }
      return Refused(ClassifyWrite(RowOf(id), token, create, now));
    }

    method LoadRecord(id: string) returns (reply: Reply)
      ensures reply == if id == "" then Refused(InvalidCheckpoint) else RowLoad(RowOf(id), id)
    {
      if id == "" { return Refused(InvalidCheckpoint); }
      if !(id in rows) || rows[id].checkpoint.None? { return Refused(ExecutionNotFound); }
      var cp := rows[id].checkpoint.value;
      var valid := ValidateCheckpoint(cp);
      if !valid || cp.executionId != id { return Refused(InvalidCheckpoint); }
      reply := Record(cp);
    }
  }
}
