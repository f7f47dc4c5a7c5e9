/** Which tool outcome a rebuilt step shows, and when that is the one its node produced. */
module Attribution {
  import opened Common
  import opened AgentState
  import opened Hydrate

  datatype Claim = ByCall | ByEscalation

  predicate Escalates(rows: seq<TraceRow>) {
    exists r :: r in rows && r.kind == ApprovalRequested
  }

  /** A call takes an outcome; so does a thought that put a call to a human. */
  predicate Has(span: Span, claim: Claim) {
    match claim
    case ByCall => span.nodeName == Some("call_tool")
    case ByEscalation => span.nodeName in {Some("think"), Some("start")} && Escalates(span.rows)
  }

  lemma NeverBoth(span: Span)
    ensures !(Has(span, ByCall) && Has(span, ByEscalation))
  {
    assert "think"[0] != "call_tool"[0] && "start"[0] != "call_tool"[0];
  }

  /** How many of the first i spans have the claim. */
  function Count(spans: seq<Span>, claim: Claim, i: nat): nat
    requires i <= |spans|
  {
    if i == 0 then 0 else Count(spans, claim, i - 1) + if Has(spans[i - 1], claim) then 1 else 0
  }

  lemma {:induction false} CountGrows(spans: seq<Span>, claim: Claim, i: nat, j: nat)
    requires i <= j <= |spans|
    ensures Count(spans, claim, i) <= Count(spans, claim, j)
    decreases j
  {
    if i < j {
      CountGrows(spans, claim, i, j - 1);
    }
  }

  /** The place in the queue of the outcome that span i is given: calls first, in order,
      then escalations, in order. */
  function Slot(spans: seq<Span>, i: nat): Option<nat>
    requires i < |spans|
  {
    if Has(spans[i], ByCall) then Some(Count(spans, ByCall, i))
    else if Has(spans[i], ByEscalation) then Some(Count(spans, ByCall, |spans|) + Count(spans, ByEscalation, i))
    else None
  }

  function Claimants(spans: seq<Span>): nat { Count(spans, ByCall, |spans|) + Count(spans, ByEscalation, |spans|) }

  function Given<O>(spans: seq<Span>, outcomes: seq<O>, i: nat): Option<O>
    requires i < |spans|
  {
    var slot := Slot(spans, i);
    if slot.Some? && slot.value < |outcomes| then Some(outcomes[slot.value]) else None
  }

  function Dropped<O>(outcomes: seq<O>, n: nat): seq<O> {
    if n <= |outcomes| then outcomes[n..] else []
  }

  /** One pass: the spans with the claim, in order, take from the front of the queue. */
  method Pass<O>(spans: seq<Span>, claim: Claim, given: seq<Option<O>>, queue: seq<O>)
    returns (shown: seq<Option<O>>, left: seq<O>)
    requires |given| == |spans|
    requires forall i :: 0 <= i < |spans| && Has(spans[i], claim) ==> given[i] == None
    ensures |shown| == |spans|
    ensures left == Dropped(queue, Count(spans, claim, |spans|))
    ensures forall i :: 0 <= i < |spans| ==>
              shown[i] == if Has(spans[i], claim) && Count(spans, claim, i) < |queue| then Some(queue[Count(spans, claim, i)])
                          else given[i]
  {
    shown, left := given, queue;
    for i := 0 to |spans|
      invariant |shown| == |spans|
      invariant left == Dropped(queue, Count(spans, claim, i))
      invariant forall k :: i <= k < |spans| ==> shown[k] == given[k]
      invariant forall k :: 0 <= k < i ==>
                  shown[k] == if Has(spans[k], claim) && Count(spans, claim, k) < |queue| then Some(queue[Count(spans, claim, k)])
                              else given[k]
    {
      if Has(spans[i], claim) && shown[i].None? && left != [] {
        shown, left := shown[i := Some(left[0])], left[1..];
      }
    }
  }

  /** Two passes over the spans: the calls first, then the thoughts that escalated. */
  method Attribute<O>(spans: seq<Span>, outcomes: seq<O>) returns (given: seq<Option<O>>, unattributed: seq<O>)
    ensures |given| == |spans| && forall i :: 0 <= i < |spans| ==> given[i] == Given(spans, outcomes, i)
    ensures unattributed == Dropped(outcomes, Claimants(spans))
  {
    var calls, queue := Pass(spans, ByCall, seq(|spans|, i => None), outcomes);
    forall i | 0 <= i < |spans| && Has(spans[i], ByEscalation) ensures calls[i] == None {
      NeverBoth(spans[i]);
    }
    given, unattributed := Pass(spans, ByEscalation, calls, queue);
    forall i | 0 <= i < |spans| ensures given[i] == Given(spans, outcomes, i) {
      NeverBoth(spans[i]);
    }
  }

  // -- nothing is lost, nothing is shown twice ------------------------------------------------

  lemma {:induction false} CountReaches(spans: seq<Span>, claim: Claim, n: nat, j: nat)
    requires j <= |spans| && n < Count(spans, claim, j)
    ensures exists i: nat :: i < j && Has(spans[i], claim) && Count(spans, claim, i) == n
    decreases j
  {
    if n < Count(spans, claim, j - 1) {
      CountReaches(spans, claim, n, j - 1);
    } else {
      assert Has(spans[j - 1], claim) && Count(spans, claim, j - 1) == n;
    }
  }

  lemma SlotIsAClaim(spans: seq<Span>, i: nat)
    requires i < |spans| && Slot(spans, i).Some?
    ensures Slot(spans, i).value < Claimants(spans)
    ensures Has(spans[i], ByCall) <==> Slot(spans, i).value < Count(spans, ByCall, |spans|)
  {
    CountGrows(spans, ByCall, i + 1, |spans|);
    CountGrows(spans, ByEscalation, i + 1, |spans|);
  }

  lemma SlotsDiffer(spans: seq<Span>, i: nat, j: nat)
    requires i < j < |spans| && Slot(spans, i).Some?
    ensures Slot(spans, i) != Slot(spans, j)
  {
    SlotIsAClaim(spans, i);
    if Slot(spans, j).Some? {
      SlotIsAClaim(spans, j);
      CountGrows(spans, ByCall, i + 1, j);
      CountGrows(spans, ByEscalation, i + 1, j);
    }
  }

  ghost predicate ShownOn(spans: seq<Span>, n: nat, i: nat) {
    i < |spans| && Slot(spans, i) == Some(n)
  }

  /** Every outcome is shown on exactly one span or is left over, never both. */
  lemma EachOutcomeOnce(spans: seq<Span>, n: nat)
    ensures n < Claimants(spans) <==> exists i: nat :: ShownOn(spans, n, i)
    ensures forall i: nat, j: nat :: ShownOn(spans, n, i) && ShownOn(spans, n, j) ==> i == j
  {
    var calls := Count(spans, ByCall, |spans|);
    if n < Claimants(spans) {
      var claim := if n < calls then ByCall else ByEscalation;
      var m := if n < calls then n else n - calls;
      CountReaches(spans, claim, m, |spans|);
      var i: nat :| i < |spans| && Has(spans[i], claim) && Count(spans, claim, i) == m;
      NeverBoth(spans[i]);
      assert ShownOn(spans, n, i);
    }
    forall i: nat | ShownOn(spans, n, i) ensures n < Claimants(spans) {
      SlotIsAClaim(spans, i);
    }
    forall i: nat, j: nat | ShownOn(spans, n, i) && ShownOn(spans, n, j) ensures i == j {
      if i < j {
        SlotsDiffer(spans, i, j);
      } else if j < i {
        SlotsDiffer(spans, j, i);
      }
    }
  }

  // -- whether it is the right span -----------------------------------------------------------

  /** The place among the outcomes of the one that span i added, where it claims one: both
      kinds of span add one each, in the order they ran. */
  function Produced(spans: seq<Span>, i: nat): nat
    requires i <= |spans|
  {
    Count(spans, ByCall, i) + Count(spans, ByEscalation, i)
  }

  predicate RightlyAttributed(spans: seq<Span>) {
    forall i: nat :: i < |spans| && Slot(spans, i).Some? ==> Slot(spans, i) == Some(Produced(spans, i))
  }

  predicate EscalatedEarlier(spans: seq<Span>, i: nat, j: nat) {
    i < j < |spans| && Has(spans[i], ByEscalation) && Has(spans[j], ByCall)
  }

  /** Every span shows the outcome that its own node produced if and only if no call ran
      after an escalation; an approved call always does. */
  lemma RightExactlyWithoutAnEarlierEscalation(spans: seq<Span>)
    ensures RightlyAttributed(spans) <==> !exists i: nat, j: nat :: EscalatedEarlier(spans, i, j)
  {
    if i: nat, j: nat :| EscalatedEarlier(spans, i, j) {
      CountGrows(spans, ByEscalation, i + 1, j);
      assert Slot(spans, j) != Some(Produced(spans, j));
    } else {
      forall i: nat | i < |spans| && Slot(spans, i).Some? ensures Slot(spans, i) == Some(Produced(spans, i)) {
        if Has(spans[i], ByCall) {
          forall k: nat | k < i ensures !Has(spans[k], ByEscalation) {
            assert !EscalatedEarlier(spans, k, i);
          }
          NoneBefore(spans, ByEscalation, i);
        } else {
          forall k: nat | i <= k < |spans| ensures !Has(spans[k], ByCall) {
            assert !EscalatedEarlier(spans, i, k);
          }
          NoneAfter(spans, ByCall, i);
        }
      }
    }
  }

  lemma {:induction false} NoneBefore(spans: seq<Span>, claim: Claim, i: nat)
    requires i <= |spans| && forall k: nat :: k < i ==> !Has(spans[k], claim)
    ensures Count(spans, claim, i) == 0
  {
    if i > 0 {
      NoneBefore(spans, claim, i - 1);
    }
  }

  lemma {:induction false} NoneAfter(spans: seq<Span>, claim: Claim, i: nat)
    requires i <= |spans| && forall k: nat :: i <= k < |spans| ==> !Has(spans[k], claim)
    ensures Count(spans, claim, i) == Count(spans, claim, |spans|)
    decreases |spans| - i
  {
    if i < |spans| {
      NoneAfter(spans, claim, i + 1);
    }
  }
}
