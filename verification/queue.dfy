/**
  The pending-batch queue. The source keeps a binary heap; here the queue is a
  sequence and only the heap's contract is modelled: push adds, and pop removes
  one element no remaining element is strictly less than.
*/
module BatchQueue {
  import opened Batches

  /** Adds batches to the queue. */
  function Push(q: seq<Batch>, bs: seq<Batch>): (r: seq<Batch>)
    ensures multiset(r) == multiset(q) + multiset(bs)
    ensures forall x :: x in r <==> x in q || x in bs
  {
    q + bs
  }

  /** Position of a minimal element of `q` (the first one, scanning from the front). */
  function MinIndex(q: seq<Batch>): (m: nat)
    requires |q| > 0
    ensures m < |q|
    ensures forall i :: 0 <= i < |q| ==> !Less(q[i], q[m])
    decreases |q|
  {
    if |q| == 1 then 0
    else
      var m := MinIndex(q[..|q| - 1]);
      if Less(q[|q| - 1], q[m]) then |q| - 1 else m
  }

  /** `q` without its element at position `m`; the others keep their order. */
  function RemoveAt(q: seq<Batch>, m: nat): (r: seq<Batch>)
    requires m < |q|
    ensures |r| == |q| - 1
    ensures forall k :: 0 <= k < |r| ==> r[k] == if k < m then q[k] else q[k + 1]
    ensures multiset(q) == multiset(r) + multiset{q[m]}
  {
    assert q == q[..m] + [q[m]] + q[m + 1..];
    q[..m] + q[m + 1..]
  }

  /** Pops a minimal batch: returns it and the rest of the queue. */
  function PopMin(q: seq<Batch>): (r: (Batch, seq<Batch>))
    requires |q| > 0
    ensures r.0 in q
    ensures multiset(q) == multiset(r.1) + multiset{r.0}
    ensures forall x :: x in q ==> !Less(x, r.0)
    ensures forall x :: x in r.1 ==> !Less(x, r.0)
  {
    var m := MinIndex(q);
    var rest := RemoveAt(q, m);
    assert forall x :: x in rest ==> x in multiset(q);
    (q[m], rest)
  }

  /**
    The popped batch has the best priority present in the queue and, among
    batches of that priority, the earliest creation time.
  */
  lemma PopServesBestPriority(q: seq<Batch>)
    requires |q| > 0
    ensures forall x :: x in q ==> Rank(PopMin(q).0.priority) <= Rank(x.priority)
    ensures forall x :: x in q && x.priority == PopMin(q).0.priority ==> PopMin(q).0.createdTime <= x.createdTime
  {
  }
}
