/** Expiring leases with fencing tokens. Everything one execution has in a store is
    a `Slot`; each store operation is a function on slots, and `MemoryLeaseStore` is
    the class of three maps that realises it for all executions at once. */
module LeaseStore {
  import opened Domain
  import opened Checkpoints

  /** Tokens are 64-bit unsigned; the value after the last one wraps to zero. */
  const TOKEN_LIMIT: nat := 0x1_0000_0000_0000_0000

  datatype Lease = Lease(token: nat, expiresAt: int)
  datatype Slot = Slot(record: Option<Checkpoint>, lease: Option<Lease>, lastToken: nat)

  const EMPTY_SLOT := Slot(None, None, 0)

  datatype Reply = Granted(token: nat) | Done | Record(cp: Checkpoint) | Refused(reason: Tag)

  /** The lease check shared by renewals and writes. */
  predicate InForce(slot: Slot, token: nat, now: int) {
    slot.lease.Some? && slot.lease.value.token == token && now < slot.lease.value.expiresAt
  }

  function Acquire(slot: Slot, now: int, duration: int): (Slot, Reply) {
    if slot.lease.Some? && now < slot.lease.value.expiresAt then (slot, Refused(ExecutionBusy))
    else
      var token := (slot.lastToken + 1) % TOKEN_LIMIT;
      if token == 0 then (slot, Refused(ExecutionFenced))
      else (slot.(lastToken := token, lease := Some(Lease(token, now + duration))), Granted(token))
  }

  function Renew(slot: Slot, token: nat, now: int, duration: int): (Slot, Reply) {
    if token == 0 then (slot, Refused(LeaseRequired))
    else if !InForce(slot, token, now) then (slot, Refused(ExecutionFenced))
    else (slot.(lease := Some(Lease(token, now + duration))), Done)
  }

  function Release(slot: Slot, token: nat): Slot {
    if slot.lease.Some? && slot.lease.value.token == token then slot.(lease := None) else slot
  }

  /** The stale-write guard of every store. */
  predicate Conflicts(current: Checkpoint, next: Checkpoint) {
    current.revision > 0 && (next.revision == 0 || next.revision <= current.revision)
  }

  function Write(slot: Slot, cp: Checkpoint, token: nat, create: bool, now: int): (Slot, Reply) {
    if !Valid(cp) then (slot, Refused(InvalidCheckpoint))
    else if token == 0 then (slot, Refused(LeaseRequired))
    else if !InForce(slot, token, now) then (slot, Refused(ExecutionFenced))
    else if create && slot.record.Some? then (slot, Refused(ExecutionExists))
    else if !create && slot.record.None? then (slot, Refused(ExecutionNotFound))
    else if !create && Conflicts(slot.record.value, cp) then (slot, Refused(CheckpointConflict))
    else (slot.(record := Some(cp)), Done)
  }

  function Load(slot: Slot): Reply {
    if slot.record.Some? then Record(slot.record.value) else Refused(ExecutionNotFound)
  }

  /** What every slot in a store satisfies: the current lease is the newest token. */
  predicate SlotInvariant(slot: Slot) {
    && slot.lastToken < TOKEN_LIMIT
    && (slot.lease.Some? ==> slot.lease.value.token == slot.lastToken > 0)
  }

  /** An acquisition grants a token above every earlier one, or changes nothing. */
  lemma TokensGrow(slot: Slot, now: int, duration: int)
    requires SlotInvariant(slot)
    ensures var (slot', reply) := Acquire(slot, now, duration);
            && SlotInvariant(slot') && slot'.record == slot.record
            && (reply.Granted? ==> slot.lastToken < reply.token == slot'.lastToken)
            && (!reply.Granted? ==> slot' == slot)
  {
  }

  /** Only the newest token can publish, and a release or renewal by any other token
      changes nothing. */
  lemma Fencing(slot: Slot, cp: Checkpoint, token: nat, create: bool, now: int, duration: int)
    requires SlotInvariant(slot)
    ensures var (slot', reply) := Write(slot, cp, token, create, now);
            && SlotInvariant(slot') && slot'.lease == slot.lease && slot'.lastToken == slot.lastToken
            && (reply == Done ==> token == slot.lastToken && slot'.record == Some(cp) && Valid(cp))
            && (reply != Done ==> slot' == slot)
    ensures token != slot.lastToken ==>
              Release(slot, token) == slot && Renew(slot, token, now, duration).0 == slot
    ensures SlotInvariant(Release(slot, token)) && SlotInvariant(Renew(slot, token, now, duration).0)
    ensures Release(slot, token).record == slot.record == Renew(slot, token, now, duration).0.record
  {
  }

  /** When an acquisition is granted, and what it grants: the next token until `duration`
      from now. */
  lemma AcquireTable(slot: Slot, now: int, duration: int)
    requires SlotInvariant(slot)
    ensures var (slot', reply) := Acquire(slot, now, duration);
            && (reply == Refused(ExecutionBusy) <==> slot.lease.Some? && now < slot.lease.value.expiresAt)
            && (reply.Granted? <==>
                  (slot.lease.None? || now >= slot.lease.value.expiresAt) && slot.lastToken < TOKEN_LIMIT - 1)
            && (!reply.Granted? && reply != Refused(ExecutionBusy) ==> reply == Refused(ExecutionFenced))
            && (reply.Granted? ==>
                  && reply.token == slot.lastToken + 1
                  && slot' == Slot(slot.record, Some(Lease(slot.lastToken + 1, now + duration)), slot.lastToken + 1))
  {
  }

  /** When a renewal extends the lease, and to when; whom a release relieves. */
  lemma RenewTable(slot: Slot, token: nat, now: int, duration: int)
    ensures var (slot', reply) := Renew(slot, token, now, duration);
            && (reply == Done <==>
                  token != 0 && slot.lease.Some? && slot.lease.value.token == token && now < slot.lease.value.expiresAt)
            && (reply == Done ==> slot' == slot.(lease := Some(Lease(token, now + duration))))
            && (reply != Done ==>
                  slot' == slot && reply == Refused(if token == 0 then LeaseRequired else ExecutionFenced))
    ensures Release(slot, token).lease ==
            (if slot.lease.Some? && slot.lease.value.token == token then None else slot.lease)
    ensures Release(slot, token).lastToken == slot.lastToken && Release(slot, token).record == slot.record
  {
  }

  /** When a write is accepted, and why it is refused otherwise, in the order of the checks. */
  lemma WriteTable(slot: Slot, cp: Checkpoint, token: nat, create: bool, now: int)
    ensures var (slot', reply) := Write(slot, cp, token, create, now);
            var held := slot.lease.Some? && slot.lease.value.token == token && now < slot.lease.value.expiresAt;
            && slot' == (if reply == Done then slot.(record := Some(cp)) else slot)
            && (reply == Refused(InvalidCheckpoint) <==> !Valid(cp))
            && (reply == Refused(LeaseRequired) <==> Valid(cp) && token == 0)
            && (reply == Refused(ExecutionFenced) <==> Valid(cp) && token != 0 && !held)
            && (Valid(cp) && token != 0 && held ==>
                  reply == if create then (if slot.record.Some? then Refused(ExecutionExists) else Done)
                           else if slot.record.None? then Refused(ExecutionNotFound)
                           else if slot.record.value.revision != 0 && cp.revision <= slot.record.value.revision
                           then Refused(CheckpointConflict) else Done)
  {
    hide Valid;
  }

  /** The in-memory reference store. */
  class MemoryLeaseStore {
    const leaseDuration: int
    var records: map<string, Checkpoint>
    var leases: map<string, Lease>
    var lastToken: map<string, nat>

    constructor (duration: int)
      requires duration > 0
      ensures leaseDuration == duration
      ensures Consistent() && forall id :: View(id) == EMPTY_SLOT
    {
      leaseDuration := duration;
      records, leases, lastToken := map[], map[], map[];
    }

    ghost function View(id: string): Slot
      reads this
    {
      Slot(if id in records then Some(records[id]) else None,
           if id in leases then Some(leases[id]) else None,
           LastToken(id))
    }

    /** Reading a missing map key gives zero. */
    function LastToken(id: string): nat
      reads this
    {
      if id in lastToken then lastToken[id] else 0
    }

    ghost predicate Consistent()
      reads this
    {
      forall id :: SlotInvariant(View(id))
    }

    /** What a call on one execution leaves alone. */
    twostate predicate OthersUnchanged(id: string)
      reads this
    {
      forall other :: other != id ==> View(other) == old(View(other))
    }

    method AcquireExecutionLease(id: string, now: int) returns (reply: Reply)
      requires Consistent()
      modifies this
      ensures id == "" ==> reply == Refused(InvalidRequest) && View(id) == old(View(id))
      ensures id != "" ==> (View(id), reply) == Acquire(old(View(id)), now, leaseDuration)
      ensures OthersUnchanged(id) && Consistent()
    {
      if id == "" { return Refused(InvalidRequest); }
      if id in leases && now < leases[id].expiresAt { return Refused(ExecutionBusy); }
      var token := (LastToken(id) + 1) % TOKEN_LIMIT;
      if token == 0 { return Refused(ExecutionFenced); }
      lastToken := lastToken[id := token];
      leases := leases[id := Lease(token, now + leaseDuration)];
      reply := Granted(token);
    }

    /** The release closure returned with a lease. */
    method ReleaseExecutionLease(id: string, token: nat)
      requires Consistent()
      modifies this
      ensures View(id) == Release(old(View(id)), token)
      ensures OthersUnchanged(id) && Consistent()
    {
      if id in leases && leases[id].token == token {
        leases := leases - {id};
      }
    }

    method RenewExecutionLease(id: string, token: nat, now: int) returns (reply: Reply)
      requires Consistent()
      modifies this
      ensures id == "" ==> reply == Refused(LeaseRequired) && View(id) == old(View(id))
      ensures id != "" ==> (View(id), reply) == Renew(old(View(id)), token, now, leaseDuration)
      ensures OthersUnchanged(id) && Consistent()
    {
      if id == "" || token == 0 { return Refused(LeaseRequired); }
      if !(id in leases) || leases[id].token != token || !(now < leases[id].expiresAt) {
        return Refused(ExecutionFenced);
      }
      leases := leases[id := leases[id].(expiresAt := now + leaseDuration)];
      reply := Done;
    }

    method WriteFenced(cp: Checkpoint, token: nat, create: bool, now: int) returns (reply: Reply)
      requires Consistent()
      modifies this
      ensures (View(cp.executionId), reply) == Write(old(View(cp.executionId)), cp, token, create, now)
      ensures OthersUnchanged(cp.executionId) && Consistent()
    {
      var valid := ValidateCheckpoint(cp);
      if !valid { return Refused(InvalidCheckpoint); }
      if token == 0 { return Refused(LeaseRequired); }
      var id := cp.executionId;
      if !(id in leases) || leases[id].token != token || !(now < leases[id].expiresAt) {
        return Refused(ExecutionFenced);
      }
      if create {
        if id in records { return Refused(ExecutionExists); }
      } else {
        if !(id in records) { return Refused(ExecutionNotFound); }
        var current := records[id];
        if current.revision > 0 && (cp.revision == 0 || cp.revision <= current.revision) {
          return Refused(CheckpointConflict);
        }
      }
      records := records[id := cp];
      reply := Done;
    }

    method LoadRecord(id: string) returns (reply: Reply)
      ensures reply == if id == "" then Refused(InvalidCheckpoint) else Load(View(id))
    {
      if id == "" { return Refused(InvalidCheckpoint); }
      if !(id in records) { return Refused(ExecutionNotFound); }
      reply := Record(records[id]);
    }

    /** One third of the lease, or the whole lease when that rounds to zero. */
    function ExecutionLeaseRenewalInterval(): int {
      RenewalInterval(leaseDuration)
    }
  }

  function RenewalInterval(duration: int): int {
    var interval := duration / 3;
    if interval <= 0 then duration else interval
  }

  /** A third of the lease, rounded down, unless that is nothing. */
  lemma IntervalIsAThird(duration: int)
    requires duration > 0
    ensures var interval := RenewalInterval(duration);
            && 0 < interval <= duration
            && (duration >= 3 ==> 3 * interval <= duration < 3 * interval + 3)
            && (duration < 3 ==> interval == duration)
  {
  }
}
