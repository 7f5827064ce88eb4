/** `DiffTrace`: the first lifecycle difference of two traces. */
module TraceDiff {
  import opened Domain
  import opened Events
  import opened Trace

  datatype Signature = Signature(
    kind: EventType, status: Status, modelAttempt: int, toolName: string, errorCode: string, httpStatus: int)

  function SignatureOf(r: TraceRecord): Signature {
    Signature(r.kind, r.status, r.modelAttempt, r.toolName, r.errorCode, r.httpStatus)
  }

  /** The behaviour of a trace: its records without identity, times and durations. */
  function Behaviour(records: seq<TraceRecord>): seq<Signature> {
    seq(|records|, i requires 0 <= i < |records| => SignatureOf(records[i]))
  }

  datatype Divergence = Divergence(sequence: nat, left: Option<Signature>, right: Option<Signature>)

  datatype Diff = Diff(
    equivalent: bool,
    left: TraceInspection,
    right: TraceInspection,
    modelAttemptDelta: int,
    toolCallDelta: int,
    firstDivergence: Option<Divergence>)

  /** The longest common prefix. */
  function CommonPrefix(a: seq<Signature>, b: seq<Signature>): nat {
    if a == [] || b == [] || a[0] != b[0] then 0 else 1 + CommonPrefix(a[1..], b[1..])
  }

  function At(a: seq<Signature>, i: nat): Option<Signature> {
    if i < |a| then Some(a[i]) else None
  }

  /** What two valid traces differ in. */
  function Comparison(left: seq<TraceRecord>, right: seq<TraceRecord>): Diff
    requires left != [] && right != []
  {
    var a, b := Behaviour(left), Behaviour(right);
    var l, r := Summary(left), Summary(right);
    var n := CommonPrefix(a, b);
    Diff(a == b, l, r, r.modelAttempts - l.modelAttempts, r.toolCalls - l.toolCalls,
         if a == b then None else Some(Divergence(n + 1, At(a, n), At(b, n))))
  }

  /** A prefix on which both agree and after which they do not is the longest one. */
  lemma {:induction false} CommonPrefixIs(a: seq<Signature>, b: seq<Signature>, n: nat)
    requires n <= |a| && n <= |b| && a[..n] == b[..n]
    requires n == |a| || n == |b| || a[n] != b[n]
    ensures CommonPrefix(a, b) == n
    decreases n
  {
    if n > 0 {
      assert a[0] == a[..n][0] == b[..n][0] == b[0];
      assert a[1..][..n - 1] == a[..n][1..] == b[..n][1..] == b[1..][..n - 1];
      CommonPrefixIs(a[1..], b[1..], n - 1);
    }
  }

  /** On valid traces: equivalent exactly when the behaviours are equal, and otherwise
      the divergence is one past the longest common prefix. */
  method DiffTrace(left: seq<TraceRecord>, right: seq<TraceRecord>) returns (r: Option<Diff>)
    ensures r == if ValidTrace(left) && ValidTrace(right) then Some(Comparison(left, right)) else None
  {
    hide Summary, ValidAt, SignatureOf, CommonPrefix;
    var l := InspectTrace(left);
    if l.None? { return None; }
    var rr := InspectTrace(right);
    if rr.None? { return None; }
    var diff := Diff(true, l.value, rr.value, rr.value.modelAttempts - l.value.modelAttempts,
                     rr.value.toolCalls - l.value.toolCalls, None);
    ghost var a, b := Behaviour(left), Behaviour(right);
    var shared := if |right| < |left| then |right| else |left|;
    for index := 0 to shared
      invariant a[..index] == b[..index]
      invariant diff == Diff(true, l.value, rr.value, rr.value.modelAttempts - l.value.modelAttempts,
                             rr.value.toolCalls - l.value.toolCalls, None)
    {
      var leftSignature, rightSignature := SignatureOf(left[index]), SignatureOf(right[index]);
      assert leftSignature == a[index] && rightSignature == b[index];
      if leftSignature != rightSignature {
        CommonPrefixIs(a, b, index);
        return Some(diff.(equivalent := false,
                          firstDivergence := Some(Divergence(index + 1, Some(leftSignature), Some(rightSignature)))));
      }
      assert a[..index + 1] == a[..index] + [a[index]] && b[..index + 1] == b[..index] + [b[index]];
    }
    if |left| != |right| {
      CommonPrefixIs(a, b, shared);
      diff := diff.(equivalent := false,
                    firstDivergence := Some(Divergence(
                      shared + 1,
                      if shared < |left| then Some(SignatureOf(left[shared])) else None,
                      if shared < |right| then Some(SignatureOf(right[shared])) else None)));
    } else {
      assert a == a[..shared] && b == b[..shared];
    }
    return Some(diff);
  }

  function Swap(d: Diff): Diff {
    Diff(d.equivalent, d.right, d.left, -d.modelAttemptDelta, -d.toolCallDelta,
         if d.firstDivergence.None? then None
         else var v := d.firstDivergence.value; Some(Divergence(v.sequence, v.right, v.left)))
  }

  lemma {:induction false} CommonPrefixCommutes(a: seq<Signature>, b: seq<Signature>)
    ensures CommonPrefix(a, b) == CommonPrefix(b, a)
    decreases |a|
  {
    if a != [] && b != [] && a[0] == b[0] {
      CommonPrefixCommutes(a[1..], b[1..]);
    }
  }

  /** Swapping the inputs swaps the sides and negates the deltas. */
  lemma SwappedInputs(left: seq<TraceRecord>, right: seq<TraceRecord>)
    requires left != [] && right != []
    ensures Comparison(right, left) == Swap(Comparison(left, right))
  {
    CommonPrefixCommutes(Behaviour(left), Behaviour(right));
  }

  /** Equal behaviours have equal counts. */
  lemma {:induction false} BehaviourFixesCounts(left: seq<TraceRecord>, right: seq<TraceRecord>)
    requires Behaviour(left) == Behaviour(right)
    ensures |left| == |right|
    ensures MaxAttempt(left) == MaxAttempt(right) && CountToolStarts(left) == CountToolStarts(right)
    ensures left != [] ==> SignatureOf(left[|left| - 1]) == SignatureOf(right[|right| - 1])
    decreases |left|
  {
    assert |left| == |Behaviour(left)| == |Behaviour(right)| == |right|;
    if left != [] {
      var n := |left| - 1;
      assert Behaviour(left)[n] == Behaviour(right)[n];
      forall i | 0 <= i < n ensures Behaviour(left[..n])[i] == Behaviour(right[..n])[i] {
        assert Behaviour(left)[i] == Behaviour(right)[i];
      }
      assert Behaviour(left[..n]) == Behaviour(right[..n]);
      BehaviourFixesCounts(left[..n], right[..n]);
    }
  }

  /** Equivalence forces zero deltas and equal terminal summaries, and is transitive. */
  lemma EquivalentTracesAgree(a: seq<TraceRecord>, b: seq<TraceRecord>, c: seq<TraceRecord>)
    requires a != [] && b != [] && c != [] && Comparison(a, b).equivalent
    ensures var d := Comparison(a, b);
            && d.modelAttemptDelta == 0 && d.toolCallDelta == 0 && d.firstDivergence.None?
            && d.left.terminal == d.right.terminal && d.left.lastStatus == d.right.lastStatus
            && d.left.recordCount == d.right.recordCount
    ensures Comparison(b, c).equivalent ==> Comparison(a, c).equivalent
  {
    BehaviourFixesCounts(a, b);
  }

  /******* The comparison, record by record *******/

  /** The six fields in which two records may differ in behaviour. */
  predicate SameEvent(a: TraceRecord, b: TraceRecord) {
    && a.kind == b.kind && a.status == b.status && a.modelAttempt == b.modelAttempt && a.toolName == b.toolName
    && a.errorCode == b.errorCode && a.httpStatus == b.httpStatus
  }

  predicate Shows(signature: Signature, r: TraceRecord) {
    && signature.kind == r.kind && signature.status == r.status && signature.modelAttempt == r.modelAttempt
    && signature.toolName == r.toolName && signature.errorCode == r.errorCode && signature.httpStatus == r.httpStatus
  }

  /** A reported side shows the n-th record of its trace, or its absence. */
  predicate ShowsAt(side: Option<Signature>, records: seq<TraceRecord>, n: nat) {
    && (side.Some? <==> n < |records|)
    && (side.Some? ==> Shows(side.value, records[n]))
  }

  lemma SignatureIsTheSixFields(a: TraceRecord, b: TraceRecord)
    ensures SignatureOf(a) == SignatureOf(b) <==> SameEvent(a, b)
    ensures Shows(SignatureOf(a), a)
  {
  }

  lemma {:induction false} CommonPrefixMeets(a: seq<Signature>, b: seq<Signature>)
    ensures var n := CommonPrefix(a, b);
            && n <= |a| && n <= |b| && a[..n] == b[..n]
            && (n < |a| && n < |b| ==> a[n] != b[n])
    decreases |a|
  {
    if a != [] && b != [] && a[0] == b[0] {
      CommonPrefixMeets(a[1..], b[1..]);
      var n := CommonPrefix(a[1..], b[1..]);
      assert a[..n + 1] == [a[0]] + a[1..][..n] && b[..n + 1] == [b[0]] + b[1..][..n];
    }
  }

  /** Two traces are equivalent exactly when they have equally many records and these agree
      in all six fields. Otherwise the divergence is the first record in which they do not,
      or which only one of them has; each side shows its own record, and the deltas are
      right minus left. */
  lemma ComparisonTable(left: seq<TraceRecord>, right: seq<TraceRecord>)
    requires left != [] && right != []
    ensures var d := Comparison(left, right);
            && (d.equivalent <==> |left| == |right| && forall i | 0 <= i < |left| :: SameEvent(left[i], right[i]))
            && (d.firstDivergence.None? <==> d.equivalent)
            && (d.firstDivergence.Some? ==>
                  && var v := d.firstDivergence.value;
                  && 1 <= v.sequence <= |left| + 1 && v.sequence <= |right| + 1
                  && var n: nat := v.sequence - 1;
                  && (forall i | 0 <= i < n :: SameEvent(left[i], right[i]))
                  && (n < |left| || n < |right|)
                  && (n < |left| && n < |right| ==> !SameEvent(left[n], right[n]))
                  && ShowsAt(v.left, left, n) && ShowsAt(v.right, right, n))
            && d.left == Summary(left) && d.right == Summary(right)
            && d.modelAttemptDelta == d.right.modelAttempts - d.left.modelAttempts
            && d.toolCallDelta == d.right.toolCalls - d.left.toolCalls
  {
    hide Summary, SameEvent, SignatureOf, Shows;
    var a, b := Behaviour(left), Behaviour(right);
    CommonPrefixMeets(a, b);
    var n := CommonPrefix(a, b);
    forall i | 0 <= i < |left| && i < |right| ensures a[i] == b[i] <==> SameEvent(left[i], right[i]) {
      SignatureIsTheSixFields(left[i], right[i]);
    }
    forall i | 0 <= i < n ensures a[i] == b[i] {
      assert a[..n][i] == b[..n][i];
    }
    if n < |left| { SignatureIsTheSixFields(left[n], left[n]); }
    if n < |right| { SignatureIsTheSixFields(right[n], right[n]); }
    if n == |left| == |right| {
      assert a[..n] == a && b[..n] == b;
    }
  }
}
