/**
 * The initializer gate: whether this component is at the head of a pod's
 * pending-initializer queue, and the queue with that head removed.
 */
module Gate {
  import opened Wrappers
  import opened Pods

  /**
   * The component may act only when the queue exists, is non-empty and starts with its
   * name; an absent block or an empty queue is never "at the head".
   */
  predicate IsHead(inits: Option<seq<string>>, me: string)
    ensures IsHead(inits, me) ==> inits.Some? && me in inits.value
  {
    inits.Some? && |inits.value| > 0 && inits.value[0] == me
  }

  /** The component is at the head exactly of the queues of the form [me] + rest. */
  lemma HeadDecomposition(inits: Option<seq<string>>, me: string, rest: seq<string>)
    ensures IsHead(inits, me) ==> inits == Some([me] + PendingOf(Dequeue(inits.value)))
    ensures inits == Some([me] + rest) ==> IsHead(inits, me)
  {
    if inits == Some([me] + rest) {
      assert inits.value[0] == me;
    }
  }

  /**
   * Removes exactly the head of a non-empty queue. Removing the last entry yields the
   * absent field (None), never a present-but-empty queue.
   */
  function Dequeue(q: seq<string>): (r: Option<seq<string>>)
    requires |q| > 0
    ensures r.None? <==> |q| == 1
    ensures r.Some? ==> |r.value| > 0
    ensures [q[0]] + PendingOf(r) == q
  {
    if |q| == 1 then None else Some(q[1..])
  }

  /**
   * `after` is what is left of the queue `before` once its head has been removed,
   * with an emptied queue represented as the absent field.
   */
  predicate DequeuedFrom(after: Option<seq<string>>, before: Option<seq<string>>) {
    && before.Some? && |before.value| > 0
    && [before.value[0]] + PendingOf(after) == before.value
    && (after.Some? ==> |after.value| > 0)
  }

  /** The removal keeps every remaining entry, one place before where it stood. */
  lemma DequeuePreservesOrder(q: seq<string>, i: nat)
    requires |q| > 0
    requires i < |PendingOf(Dequeue(q))|
    ensures PendingOf(Dequeue(q))[i] == q[i + 1]
  {
    var rest := PendingOf(Dequeue(q));
    assert [q[0]] + rest == q;
    assert q[i + 1] == ([q[0]] + rest)[i + 1];
  }

  /** Dequeue is the only queue the DequeuedFrom relation admits. */
  lemma DequeuedFromIsDequeue(after: Option<seq<string>>, q: seq<string>)
    requires |q| > 0
    ensures DequeuedFrom(after, Some(q)) <==> after == Dequeue(q)
  {
    if DequeuedFrom(after, Some(q)) {
      var rest := PendingOf(after);
      assert rest == q[1..] by {
        assert [q[0]] + rest == q;
        assert q[1..] == ([q[0]] + rest)[1..];
      }
      match after
      case None =>
        assert |q| == 1;
      case Some(v) =>
        assert |q| > 1;
    }
  }
}
