/** Operations that the adapter always refuses: they keep their place at the front of the queue, from which
    every cycle takes the ten oldest. */
module SyncQueue {
  import opened Sync
  import opened SyncCycle

  /** The adapter refuses the same deletes in every cycle. */
  function Always(refuses: Op -> bool): Outcome {
    (i: nat, op: Op) => refuses(op)
  }

  predicate Refused(refuses: Op -> bool, op: Op) {
    op.DeleteOp? && refuses(op)
  }

  function Rest(refuses: Op -> bool, ops: seq<Op>): seq<Op> {
    Kept(Always(refuses), ops)
  }

  /** The queue after one cycle. */
  function Next(refuses: Op -> bool, ops: seq<Op>): seq<Op> {
    QueueNext(Always(refuses), ops)
  }

  ghost function QueueAfter(refuses: Op -> bool, ops: seq<Op>, cycles: nat): seq<Op>
    decreases cycles
  {
    if cycles == 0 then ops else QueueAfter(refuses, Next(refuses, ops), cycles - 1)
  }

  lemma {:induction false} DoneOrKept(fails: Outcome, ops: seq<Op>)
    ensures multiset(ops) == multiset(Done(fails, ops)) + multiset(Kept(fails, ops))
  {
    if ops != [] {
      var i := |ops| - 1;
      assert ops == ops[..i] + [ops[i]];
      DoneOrKept(fails, ops[..i]);
    }
  }

  /** An operation leaves the queue when it has been done, and only then, each as often as it was queued. */
  lemma NothingLost(fails: Outcome, ops: seq<Op>)
    ensures multiset(ops) == multiset(Done(fails, Batch(ops))) + multiset(QueueNext(fails, ops))
  {
    assert ops == Batch(ops) + Later(ops);
    DoneOrKept(fails, Batch(ops));
  }

  lemma {:induction false} DoneKeptCount(fails: Outcome, ops: seq<Op>)
    ensures |Done(fails, ops)| + |Kept(fails, ops)| == |ops|
    ensures forall op | op in Done(fails, ops) || op in Kept(fails, ops) :: op in ops
  {
    if ops != [] {
      DoneKeptCount(fails, ops[..|ops| - 1]);
    }
  }

  /** A cycle tries the ten oldest operations and no other: what fails of them stays ahead of the rest. */
  lemma TenTried(fails: Outcome, ops: seq<Op>)
    ensures var n := if |ops| < 10 then |ops| else 10;
      && |Done(fails, Batch(ops))| + |Kept(fails, Batch(ops))| == n
      && (forall op | op in Done(fails, Batch(ops)) || op in Kept(fails, Batch(ops)) :: op in ops[..n])
      && QueueNext(fails, ops) == Kept(fails, Batch(ops)) + ops[n..]
  {
    assert Batch(ops) == ops[..if |ops| < 10 then |ops| else 10];
    DoneKeptCount(fails, Batch(ops));
  }

  lemma {:induction false} RestAll(refuses: Op -> bool, ops: seq<Op>)
    ensures forall k | 0 <= k < |Rest(refuses, ops)| :: Refused(refuses, Rest(refuses, ops)[k])
    ensures (forall k | 0 <= k < |ops| :: Refused(refuses, ops[k])) <==> Rest(refuses, ops) == ops
  {
    if ops != [] {
      assert ops[..|ops| - 1] + [ops[|ops| - 1]] == ops;
      RestAll(refuses, ops[..|ops| - 1]);
    }
  }

  lemma {:induction false} RestConcat(refuses: Op -> bool, a: seq<Op>, b: seq<Op>)
    ensures Rest(refuses, a + b) == Rest(refuses, a) + Rest(refuses, b)
  {
    if b == [] {
      assert a + b == a;
    } else {
      var k := |b| - 1;
      assert (a + b)[..|a + b| - 1] == a + b[..k] && (a + b)[|a + b| - 1] == b[k];
      RestConcat(refuses, a, b[..k]);
    }
  }

  /** The refused operations stay, in their order. */
  lemma NextKeepsRest(refuses: Op -> bool, ops: seq<Op>)
    ensures Rest(refuses, Next(refuses, ops)) == Rest(refuses, ops)
  {
    assert ops == Batch(ops) + Later(ops);
    RestTwice(refuses, Batch(ops), Later(ops));
  }

  /** An accepted operation with a batch of refused ones before it. */
  ghost predicate BlockedAt(refuses: Op -> bool, ops: seq<Op>, i: nat) {
    i < |ops| && !Refused(refuses, ops[i]) && |Rest(refuses, ops[..i])| >= OPS_PER_CYCLE
  }

  ghost predicate Blocked(refuses: Op -> bool, ops: seq<Op>) {
    exists i: nat :: BlockedAt(refuses, ops, i)
  }

  /** What stands before an operation that the cycle does not reach. */
  lemma NextPrefix(refuses: Op -> bool, ops: seq<Op>, i: nat)
    requires OPS_PER_CYCLE <= i < |ops|
    ensures var j := |Rest(refuses, Batch(ops))| + i - OPS_PER_CYCLE;
      && j < |Next(refuses, ops)| && Next(refuses, ops)[j] == ops[i]
      && Rest(refuses, Next(refuses, ops)[..j]) == Rest(refuses, ops[..i])
  {
    var rest, between := Rest(refuses, Batch(ops)), ops[OPS_PER_CYCLE..i];
    assert Next(refuses, ops)[..|rest| + i - OPS_PER_CYCLE] == rest + between;
    assert ops[..i] == Batch(ops) + between;
    RestTwice(refuses, Batch(ops), between);
  }

  /** What is refused once is refused again. */
  lemma RestTwice(refuses: Op -> bool, a: seq<Op>, b: seq<Op>)
    ensures Rest(refuses, Rest(refuses, a) + b) == Rest(refuses, a + b)
  {
    RestConcat(refuses, Rest(refuses, a), b);
    RestConcat(refuses, a, b);
    RestAll(refuses, a);
    RestAll(refuses, Rest(refuses, a));
  }

  lemma StaysBlocked(refuses: Op -> bool, ops: seq<Op>, i: nat)
    requires BlockedAt(refuses, ops, i)
    ensures BlockedAt(refuses, Next(refuses, ops), |Rest(refuses, Batch(ops))| + i - OPS_PER_CYCLE)
  {
    NextPrefix(refuses, ops, i);
  }

  lemma WasBlocked(refuses: Op -> bool, ops: seq<Op>, j: nat) returns (i: nat)
    requires BlockedAt(refuses, Next(refuses, ops), j)
    ensures BlockedAt(refuses, ops, i)
  {
    var rest := Rest(refuses, Batch(ops));
    RestAll(refuses, Batch(ops));
    assert forall k | 0 <= k < |rest| :: Next(refuses, ops)[k] == rest[k];
    i := j - |rest| + OPS_PER_CYCLE;
    NextPrefix(refuses, ops, i);
  }

  /** No cycle blocks or frees an operation. */
  lemma BlockedNext(refuses: Op -> bool, ops: seq<Op>)
    ensures Blocked(refuses, Next(refuses, ops)) <==> Blocked(refuses, ops)
  {
    if i: nat :| BlockedAt(refuses, ops, i) {
      StaysBlocked(refuses, ops, i);
    }
    if j: nat :| BlockedAt(refuses, Next(refuses, ops), j) {
      var i := WasBlocked(refuses, ops, j);
    }
  }

  lemma FirstAccepted(refuses: Op -> bool, ops: seq<Op>) returns (i: nat)
    requires Rest(refuses, ops) != ops
    ensures i < |ops| && !Refused(refuses, ops[i]) && Rest(refuses, ops[..i]) == ops[..i]
  {
    RestAll(refuses, ops);
    i := 0;
    while Refused(refuses, ops[i])
      invariant i < |ops| && forall k | 0 <= k < i :: Refused(refuses, ops[k])
      decreases |ops| - i
    {
      i := i + 1;
    }
    RestAll(refuses, ops[..i]);
  }

  /** While an accepted operation is queued and none is blocked, every cycle takes one from the queue. */
  lemma NextShorter(refuses: Op -> bool, ops: seq<Op>)
    requires !Blocked(refuses, ops) && Rest(refuses, ops) != ops
    ensures |Next(refuses, ops)| < |ops|
  {
    var i := FirstAccepted(refuses, ops);
    assert !BlockedAt(refuses, ops, i);
    var batch := Batch(ops);
    assert batch[i] == ops[i] && batch == batch[..i] + batch[i..];
    RestAll(refuses, batch);
    RestFull(refuses, batch);
  }

  lemma {:induction false} RestFull(refuses: Op -> bool, ops: seq<Op>)
    ensures |Rest(refuses, ops)| == |ops| ==> Rest(refuses, ops) == ops
  {
    if ops != [] {
      RestFull(refuses, ops[..|ops| - 1]);
    }
  }

  lemma {:induction false} Drains(refuses: Op -> bool, ops: seq<Op>) returns (n: nat)
    requires !Blocked(refuses, ops)
    ensures QueueAfter(refuses, ops, n) == Rest(refuses, ops)
    decreases |ops|
  {
    if Rest(refuses, ops) == ops {
      n := 0;
    } else {
      NextShorter(refuses, ops);
      BlockedNext(refuses, ops);
      NextKeepsRest(refuses, ops);
      n := Drains(refuses, Next(refuses, ops));
      n := n + 1;
    }
  }

  /** What every cycle keeps, all cycles keep. */
  lemma {:induction false} KeptForever(refuses: Op -> bool, kept: seq<Op> -> bool, ops: seq<Op>, n: nat)
    requires kept(ops) && forall queue | kept(queue) :: kept(Next(refuses, queue))
    ensures kept(QueueAfter(refuses, ops, n))
    decreases n
  {
    if n > 0 {
      KeptForever(refuses, kept, Next(refuses, ops), n - 1);
    }
  }

  lemma BlockedForever(refuses: Op -> bool, ops: seq<Op>, n: nat)
    requires Blocked(refuses, ops)
    ensures Blocked(refuses, QueueAfter(refuses, ops, n))
  {
    var kept := (queue: seq<Op>) => Blocked(refuses, queue);
    forall queue | kept(queue) ensures kept(Next(refuses, queue)) {
      BlockedNext(refuses, queue);
    }
    KeptForever(refuses, kept, ops, n);
    assert kept(QueueAfter(refuses, ops, n));
  }

  /** Every operation that the adapter accepts is done after enough cycles, and only the refused ones are
      left, if and only if no accepted one stands behind ten that are refused. */
  lemma DrainsExactly(refuses: Op -> bool, ops: seq<Op>)
    ensures (exists n :: QueueAfter(refuses, ops, n) == Rest(refuses, ops)) <==> !Blocked(refuses, ops)
  {
    if !Blocked(refuses, ops) {
      var _ := Drains(refuses, ops);
    } else if n: nat :| QueueAfter(refuses, ops, n) == Rest(refuses, ops) {
      BlockedForever(refuses, ops, n);
      RestAll(refuses, ops);
    }
  }
}
