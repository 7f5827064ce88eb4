/** Leases against the clock: with a monotone clock the tenures of successive tokens
    never overlap, and a renewal loop at one third of the lease never lets it lapse. */
module LeaseTiming {
  import opened Domain
  import opened LeaseStore

  /******* Exclusivity *******/

  /** The span in which a token's holder could pass the store's lease check. */
  datatype Tenure = Tenure(token: nat, from: int, until: int)

  datatype Ledger = Ledger(slot: Slot, tenures: seq<Tenure>, clock: int)

  datatype LeaseOp = Take(now: int) | Extend(token: nat, now: int) | GiveUp(token: nat, now: int)

  function Min(a: int, b: int): int {
    if a < b then a else b
  }

  function EndLast(tenures: seq<Tenure>, until: int): seq<Tenure>
    requires tenures != []
  {
    tenures[|tenures| - 1 := tenures[|tenures| - 1].(until := until)]
  }

  function LedgerStep(l: Ledger, op: LeaseOp, duration: int): Ledger {
    match op
    case Take(now) =>
      var (slot', reply) := Acquire(l.slot, now, duration);
      Ledger(slot', if reply.Granted? then l.tenures + [Tenure(reply.token, now, now + duration)] else l.tenures, now)
    case Extend(token, now) =>
      var (slot', reply) := Renew(l.slot, token, now, duration);
      Ledger(slot', if reply == Done && l.tenures != [] then EndLast(l.tenures, now + duration) else l.tenures, now)
    case GiveUp(token, now) =>
      var slot' := Release(l.slot, token);
      Ledger(slot', if slot' != l.slot && l.tenures != []
                    then EndLast(l.tenures, Min(l.tenures[|l.tenures| - 1].until, now)) else l.tenures, now)
  }

  /** Successive tenures have growing tokens and do not overlap. */
  predicate Disjoint(tenures: seq<Tenure>) {
    forall i, j | 0 <= i < j < |tenures| ::
      tenures[i].token < tenures[j].token && tenures[i].until <= tenures[j].from
  }

  /** The tenures are disjoint and the last one is the lease in the store. */
  predicate Exclusive(l: Ledger) {
    && SlotInvariant(l.slot)
    && Disjoint(l.tenures)
    && (forall i | 0 <= i < |l.tenures| :: l.tenures[i].from <= l.clock && l.tenures[i].token <= l.slot.lastToken)
    && (l.slot.lease.Some? ==>
          && l.tenures != []
          && l.tenures[|l.tenures| - 1].token == l.slot.lease.value.token
          && l.tenures[|l.tenures| - 1].until == l.slot.lease.value.expiresAt)
    && (l.slot.lease.None? && l.tenures != [] ==> l.tenures[|l.tenures| - 1].until <= l.clock)
  }

  lemma EndLastKeepsDisjoint(tenures: seq<Tenure>, until: int)
    requires tenures != [] && Disjoint(tenures)
    ensures Disjoint(EndLast(tenures, until))
  {
  }

  lemma NewTenureIsDisjoint(l: Ledger, now: int, duration: int)
    requires Exclusive(l) && l.clock <= now && Acquire(l.slot, now, duration).1.Granted?
    ensures Disjoint(l.tenures + [Tenure(Acquire(l.slot, now, duration).1.token, now, now + duration)])
  {
    TokensGrow(l.slot, now, duration);
    var n := |l.tenures|;
    forall i | 0 <= i < n ensures l.tenures[i].until <= now {
      if i < n - 1 {
        assert l.tenures[i].until <= l.tenures[n - 1].from;
      }
    }
  }

  lemma LedgerStepIsExclusive(l: Ledger, op: LeaseOp, duration: int)
    requires Exclusive(l) && l.clock <= op.now && duration > 0
    ensures Exclusive(LedgerStep(l, op, duration))
  {
    hide Disjoint;
    match op
    case Take(now) =>
      if Acquire(l.slot, now, duration).1.Granted? { NewTenureIsDisjoint(l, now, duration); }
    case Extend(token, now) =>
      if l.tenures != [] { EndLastKeepsDisjoint(l.tenures, now + duration); }
    case GiveUp(token, now) =>
      if l.tenures != [] { EndLastKeepsDisjoint(l.tenures, Min(l.tenures[|l.tenures| - 1].until, now)); }
  }

  predicate Monotone(clock: int, ops: seq<LeaseOp>) {
    && (forall i | 0 <= i < |ops| :: clock <= ops[i].now)
    && (forall i, j | 0 <= i < j < |ops| :: ops[i].now <= ops[j].now)
  }

  function LedgerRun(l: Ledger, ops: seq<LeaseOp>, duration: int): Ledger
    decreases |ops|
  {
    if ops == [] then l else LedgerRun(LedgerStep(l, ops[0], duration), ops[1..], duration)
  }

  /** Over any monotone sequence of acquisitions, renewals and releases the tenures
      are disjoint, and whoever passes the lease check now is inside its own tenure. */
  lemma {:induction false} TenuresAreDisjoint(l: Ledger, ops: seq<LeaseOp>, duration: int, token: nat, now: int)
    requires Exclusive(l) && Monotone(l.clock, ops) && duration > 0
    ensures Exclusive(LedgerRun(l, ops, duration))
    ensures var end := LedgerRun(l, ops, duration);
            end.clock <= now && InForce(end.slot, token, now) ==>
              exists i | 0 <= i < |end.tenures| ::
                end.tenures[i].token == token && end.tenures[i].from <= now < end.tenures[i].until
    decreases |ops|
  {
    if ops == [] {
      if l.clock <= now && InForce(l.slot, token, now) {
        assert l.tenures[|l.tenures| - 1].token == token;
      }
    } else {
      LedgerStepIsExclusive(l, ops[0], duration);
      TenuresAreDisjoint(LedgerStep(l, ops[0], duration), ops[1..], duration, token, now);
    }
  }

  /******* The renewal loop *******/

  /** One tick of the renewal ticker: how long after it the attempt reaches the store,
      whether it reaches the store at all before its own timeout, and whether the
      execution's context has ended by the time it returns. */
  datatype Tick = Tick(delay: int, reaches: bool, ended: bool)

  /** When the k-th renewal (from zero) reaches the store: it starts at its tick and
      takes effect after its own delay. */
  function RenewalTime(start: int, interval: int, ticks: seq<Tick>, k: nat): int
    requires k < |ticks|
  {
    start + (k + 1) * interval + ticks[k].delay
  }

  /** The ticker: the first attempt starts one interval after the loop, and each further one
      an interval after the one before. */
  lemma TickTable(start: int, interval: int, ticks: seq<Tick>, k: nat)
    requires k < |ticks|
    ensures k == 0 ==> RenewalTime(start, interval, ticks, k) - ticks[k].delay == start + interval
    ensures k > 0 ==>
              RenewalTime(start, interval, ticks, k) - ticks[k].delay ==
              RenewalTime(start, interval, ticks, k - 1) - ticks[k - 1].delay + interval
  {
    assert (k + 1) * interval == k * interval + interval;
  }

  /** The background loop of `startExecutionLeaseRenewal` on a store: renew at each
      tick, stop at the first failure, and report the lease lost unless the execution
      has ended by itself. */
  method RenewalLoop(store: MemoryLeaseStore, id: string, token: nat, start: int, ticks: seq<Tick>)
    returns (lost: bool, renewals: nat)
    requires store.Consistent() && id != "" && token != 0
    modifies store
    ensures store.Consistent() && renewals <= |ticks|
    ensures store.View(id) == Renewed(old(store.View(id)), token, start, store.leaseDuration, ticks, renewals)
    ensures forall k | 0 <= k < renewals ::
              RenewalHolds(old(store.View(id)), token, start, store.leaseDuration, ticks, k)
    ensures renewals < |ticks| ==>
              !RenewalHolds(old(store.View(id)), token, start, store.leaseDuration, ticks, renewals)
    ensures lost <==> renewals < |ticks| && !ticks[renewals].ended
  {
    var interval := store.ExecutionLeaseRenewalInterval();
    renewals := 0;
    ghost var slot := store.View(id);
    while renewals < |ticks|
      invariant renewals <= |ticks| && store.Consistent()
      invariant store.View(id) == Renewed(slot, token, start, store.leaseDuration, ticks, renewals)
      invariant forall k | 0 <= k < renewals :: RenewalHolds(slot, token, start, store.leaseDuration, ticks, k)
    {
      if !ticks[renewals].reaches { return !ticks[renewals].ended, renewals; }
      var reply := store.RenewExecutionLease(id, token, RenewalTime(start, interval, ticks, renewals));
      if reply != Done { return !ticks[renewals].ended, renewals; }
      renewals := renewals + 1;
    }
    lost := false;
  }

  /** The slot after the first `n` renewals. */
  function Renewed(slot: Slot, token: nat, start: int, duration: int, ticks: seq<Tick>, n: nat): Slot
    requires n <= |ticks|
  {
    if n == 0 then slot
    else Renew(Renewed(slot, token, start, duration, ticks, n - 1), token,
               RenewalTime(start, RenewalInterval(duration), ticks, n - 1), duration).0
  }

  /** Renewal `k` reaches the store while the lease is in force. */
  predicate RenewalHolds(slot: Slot, token: nat, start: int, duration: int, ticks: seq<Tick>, k: nat)
    requires k < |ticks|
  {
    && ticks[k].reaches
    && InForce(Renewed(slot, token, start, duration, ticks, k), token,
               RenewalTime(start, RenewalInterval(duration), ticks, k))
  }

  /** Two intervals fit inside a lease exactly when it lasts at least three ticks. */
  lemma TwoIntervalsFit(duration: int)
    requires duration > 0
    ensures 2 * RenewalInterval(duration) < duration <==> duration >= 3
  {
  }

  /** When each attempt succeeds within its interval and the loop starts soon enough
      after the acquisition, every renewal finds the lease in force: two effective
      renewals are never a whole lease apart. */
  lemma {:induction false} LeaseNeverLapses(slot: Slot, token: nat, acquired: int, start: int, duration: int,
                                            ticks: seq<Tick>, n: nat)
    requires duration >= 3 && token != 0
    requires slot.lease == Some(Lease(token, acquired + duration))
    requires acquired <= start < acquired + duration - 2 * RenewalInterval(duration)
    requires forall k | 0 <= k < |ticks| :: ticks[k].reaches && 0 <= ticks[k].delay <= RenewalInterval(duration)
    requires n <= |ticks|
    ensures forall k | 0 <= k < n :: RenewalHolds(slot, token, start, duration, ticks, k)
    ensures Renewed(slot, token, start, duration, ticks, n).lease ==
            Some(Lease(token, duration + if n == 0 then acquired
                                         else RenewalTime(start, RenewalInterval(duration), ticks, n - 1)))
  {
    TwoIntervalsFit(duration);
    if n > 0 {
      LeaseNeverLapses(slot, token, acquired, start, duration, ticks, n - 1);
      var interval := RenewalInterval(duration);
      if n > 1 {
        RenewalGap(start, interval, ticks, n - 1);
      }
      assert RenewalHolds(slot, token, start, duration, ticks, n - 1);
    }
  }

  lemma RenewalGap(start: int, interval: int, ticks: seq<Tick>, k: nat)
    requires 0 < k < |ticks| && interval > 0
    requires forall i | 0 <= i < |ticks| :: 0 <= ticks[i].delay <= interval
    ensures RenewalTime(start, interval, ticks, k) - RenewalTime(start, interval, ticks, k - 1) <= 2 * interval
  {
    assert (k + 1) * interval == k * interval + interval;
  }
}
