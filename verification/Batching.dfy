/** What a good segmentation of a message stream is, and the greedy one (internal/core/message.go:99-121). */
module Batching {
  import opened Messages
  import opened Sequences

  /** `maxBatchSize` and `maxBatchBytes`. */
  datatype Limits = Limits(count: nat, bytes: int)

  /** The batcher's state; `pending == []` stands for the nil slice. */
  datatype Queue = Queue(pending: seq<Message>, bytes: int)

  const EMPTY := Queue([], 0)

  /** A batcher state with the batches that were handed out on the way to it. */
  datatype Outcome = Outcome(batches: seq<seq<Message>>, queue: Queue)

  /** One `push`: the state it leaves and the batch it returns (none for nil). */
  function PushStep(lim: Limits, q: Queue, m: Message): Outcome {
    var overflow := q.bytes + Size(m) > lim.bytes;
    var b := if overflow then Flushed(q) else [];
    var q1 := if overflow then EMPTY else q;
    var q2 := Queue(q1.pending + [m], q1.bytes + |m.json|);
    if b == [] && |q2.pending| == lim.count then Outcome([q2.pending], EMPTY) else Outcome(b, q2)
  }

  /** What a flush hands out: the pending messages as one batch, or nothing. */
  function Flushed(q: Queue): seq<seq<Message>> {
    if q.pending == [] then [] else [q.pending]
  }

  /** A batch the limits allow. A message on its own is always let through. */
  predicate Feasible(lim: Limits, part: seq<Message>) {
    1 <= |part| <= lim.count && (|part| == 1 || TotalLength(part) + 1 <= lim.bytes)
  }

  /** What holds of the batcher between operations. */
  predicate ValidQueue(lim: Limits, q: Queue) {
    && q.bytes == TotalLength(q.pending)
    && |q.pending| < lim.count
    && (q.pending != [] ==> Feasible(lim, q.pending))
  }

  lemma FeasibleSlice(lim: Limits, part: seq<Message>, lo: nat, hi: nat)
    requires lo < hi <= |part|
    requires Feasible(lim, part)
    ensures Feasible(lim, part[lo..hi])
  {
    assert part == part[..lo] + part[lo..hi] + part[hi..];
    TotalLengthConcat(part[..lo] + part[lo..hi], part[hi..]);
    TotalLengthConcat(part[..lo], part[lo..hi]);
  }

  lemma FeasiblePrefix(lim: Limits, ms: seq<Message>, k: nat, n: nat)
    requires 1 <= k <= n <= |ms|
    requires Feasible(lim, ms[..n])
    ensures Feasible(lim, ms[..k])
  {
    FeasibleSlice(lim, ms[..n], 0, k);
    assert ms[..n][0..k] == ms[..k];
  }

  lemma TotalLengthSnoc(ms: seq<Message>, m: Message)
    ensures TotalLength(ms + [m]) == TotalLength(ms) + |m.json|
  {
    assert (ms + [m])[..|ms|] == ms;
  }

  predicate Overflows(lim: Limits, q: Queue, m: Message) {
    q.pending != [] && q.bytes + Size(m) > lim.bytes
  }

  predicate Fills(lim: Limits, q: Queue, m: Message) {
    !Overflows(lim, q, m) && |q.pending| + 1 == lim.count
  }

  /** A push hands out the old batch, or a full one, or only appends. */
  lemma PushCases(lim: Limits, q: Queue, m: Message)
    requires q.pending == [] ==> q.bytes == 0
    ensures Overflows(lim, q, m) ==> PushStep(lim, q, m) == Outcome([q.pending], Queue([m], |m.json|))
    ensures Fills(lim, q, m) ==> PushStep(lim, q, m) == Outcome([q.pending + [m]], EMPTY)
    ensures !Overflows(lim, q, m) && !Fills(lim, q, m)
            ==> PushStep(lim, q, m) == Outcome([], Queue(q.pending + [m], q.bytes + |m.json|))
  {
    assert [] + [m] == [m];
  }

  /** When the message overflows the batch, the two do not fit together; otherwise they do. */
  lemma OverflowsIff(lim: Limits, q: Queue, m: Message)
    requires ValidQueue(lim, q)
    ensures Overflows(lim, q, m) ==> Feasible(lim, q.pending) && !Feasible(lim, q.pending + [m])
    ensures !Overflows(lim, q, m) ==> Feasible(lim, q.pending + [m])
  {
    TotalLengthSnoc(q.pending, m);
  }

  /** Nothing is lost or reordered, the batch is within the limits, the state is valid. */
  predicate GoodPush(lim: Limits, q: Queue, m: Message, o: Outcome) {
    && ValidQueue(lim, o.queue)
    && |o.batches| <= 1
    && (o.batches != [] ==> Feasible(lim, o.batches[0]))
    && (if o.batches == [] then [] else o.batches[0]) + o.queue.pending == q.pending + [m]
  }

  /**
   * After a push the state is valid again, the batch it handed out, if any, is feasible, and
   * batch and state together hold the old messages and the new one, in order.
   */
  lemma PushKeepsValid(lim: Limits, q: Queue, m: Message)
    requires 1 <= lim.count
    requires ValidQueue(lim, q)
    ensures GoodPush(lim, q, m, PushStep(lim, q, m))
  {
    PushCases(lim, q, m);
    OverflowsIff(lim, q, m);
    if Overflows(lim, q, m) {
      SingleIsValid(lim, m);
    } else if Fills(lim, q, m) {
      assert q.pending + [m] + [] == q.pending + [m];
    } else {
      AppendedIsValid(lim, q, m);
    }
  }

  lemma AppendedIsValid(lim: Limits, q: Queue, m: Message)
    requires ValidQueue(lim, q) && |q.pending| + 1 < lim.count
    requires Feasible(lim, q.pending + [m])
    ensures GoodPush(lim, q, m, Outcome([], Queue(q.pending + [m], q.bytes + |m.json|)))
  {
    TotalLengthSnoc(q.pending, m);
    assert [] + (q.pending + [m]) == q.pending + [m];
  }

  lemma SingleIsValid(lim: Limits, m: Message)
    requires 1 <= lim.count
    ensures Feasible(lim, [m])
    ensures 1 < lim.count ==> ValidQueue(lim, Queue([m], |m.json|))
  {
    TotalLengthSnoc([], m);
    assert [] + [m] == [m];
  }

  // ----- The greedy segmentation: take the longest feasible prefix, repeat -----

  /** Extends a feasible prefix of length `n` for as long as it stays feasible. */
  function Extend(lim: Limits, ms: seq<Message>, n: nat): (r: nat)
    requires 1 <= n <= |ms|
    requires Feasible(lim, ms[..n])
    ensures n <= r <= |ms|
    ensures Feasible(lim, ms[..r])
    ensures r < |ms| ==> !Feasible(lim, ms[..r + 1])
    decreases |ms| - n
  {
    if n < |ms| && Feasible(lim, ms[..n + 1]) then Extend(lim, ms, n + 1) else n
  }

  function FirstBlock(lim: Limits, ms: seq<Message>): (r: nat)
    requires 1 <= lim.count
    requires ms != []
    ensures 1 <= r <= |ms|
    ensures Feasible(lim, ms[..r])
    ensures r < |ms| ==> !Feasible(lim, ms[..r + 1])
  {
    Extend(lim, ms, 1)
  }

  function Greedy(lim: Limits, ms: seq<Message>): seq<seq<Message>>
    requires 1 <= lim.count
  {
    if ms == [] then []
    else var n := FirstBlock(lim, ms); [ms[..n]] + Greedy(lim, ms[n..])
  }

  function Flatten<T>(parts: seq<seq<T>>): seq<T> {
    if parts == [] then [] else Flatten(parts[..|parts| - 1]) + parts[|parts| - 1]
  }

  lemma {:induction false} FlattenConcat<T>(a: seq<seq<T>>, b: seq<seq<T>>)
    ensures Flatten(a + b) == Flatten(a) + Flatten(b)
  {
    if b == [] {
      assert a + b == a;
    } else {
      var init := b[..|b| - 1];
      InitOfConcat(a, b);
      FlattenConcat(a, init);
      Associative(Flatten(a), Flatten(init), b[|b| - 1]);
    }
  }

  lemma FlattenCons<T>(p: seq<T>, rest: seq<seq<T>>)
    ensures Flatten([p] + rest) == p + Flatten(rest)
  {
    FlattenConcat([p], rest);
    assert [p][..0] == [];
    assert Flatten([p]) == [] + p;
  }

  predicate AllFeasible(lim: Limits, parts: seq<seq<Message>>) {
    forall i :: 0 <= i < |parts| ==> Feasible(lim, parts[i])
  }

  lemma AllFeasibleCons(lim: Limits, p: seq<Message>, rest: seq<seq<Message>>)
    requires Feasible(lim, p) && AllFeasible(lim, rest)
    ensures AllFeasible(lim, [p] + rest)
  {
  }

  /** The greedy segmentation loses nothing, keeps the order and respects the limits. */
  lemma {:induction false} GreedyIsPartition(lim: Limits, ms: seq<Message>)
    requires 1 <= lim.count
    ensures Flatten(Greedy(lim, ms)) == ms
    ensures AllFeasible(lim, Greedy(lim, ms))
    decreases |ms|
  {
    if ms != [] {
      var n := FirstBlock(lim, ms);
      var rest := Greedy(lim, ms[n..]);
      GreedyIsPartition(lim, ms[n..]);
      FlattenCons(ms[..n], rest);
      SplitAt(ms, n);
      AllFeasibleCons(lim, ms[..n], rest);
    }
  }

  /** A prefix that is feasible and cannot be extended is the greedy first block. */
  lemma FirstBlockIs(lim: Limits, ms: seq<Message>, n: nat)
    requires 1 <= lim.count
    requires 1 <= n <= |ms|
    requires Feasible(lim, ms[..n])
    requires n < |ms| ==> !Feasible(lim, ms[..n + 1])
    ensures FirstBlock(lim, ms) == n
  {
    var r := FirstBlock(lim, ms);
    if r < n {
      FeasiblePrefix(lim, ms, r + 1, n);
    } else if n < r {
      FeasiblePrefix(lim, ms, n + 1, r);
    }
  }

  /** A feasible sequence is a single block. */
  lemma GreedySingle(lim: Limits, ms: seq<Message>)
    requires Feasible(lim, ms)
    ensures Greedy(lim, ms) == [ms]
  {
    assert ms[..|ms|] == ms;
    FirstBlockIs(lim, ms, |ms|);
    assert ms[|ms|..] == [];
  }

  // ----- Optimality -----

  /**
   * Whatever suffix of `ms` is left to it, the greedy segmentation never needs more blocks
   * than a feasible segmentation of the whole of `ms`.
   */
  lemma {:induction false} GreedyStaysAhead(lim: Limits, ms: seq<Message>, k: nat, parts: seq<seq<Message>>)
    requires 1 <= lim.count
    requires k <= |ms|
    requires Flatten(parts) == ms
    requires AllFeasible(lim, parts)
    ensures |Greedy(lim, ms[k..])| <= |parts|
    decreases |parts|
  {
    if k < |ms| {
      var p, tail := parts[0], Flatten(parts[1..]);
      FirstPart(lim, parts);
      if |p| <= k {
        DropPast(p, tail, k, 0);
        GreedyStaysAhead(lim, tail, k - |p|, parts[1..]);
      } else {
        FirstBlockCovers(lim, ms, k, p);
        var n := FirstBlock(lim, ms[k..]);
        DropPast(p, tail, k, n);
        GreedyStaysAhead(lim, tail, k + n - |p|, parts[1..]);
      }
    }
  }

  lemma FirstPart(lim: Limits, parts: seq<seq<Message>>)
    requires parts != []
    requires AllFeasible(lim, parts)
    ensures Flatten(parts) == parts[0] + Flatten(parts[1..])
    ensures Feasible(lim, parts[0]) && AllFeasible(lim, parts[1..])
  {
    HeadTail(parts);
    FlattenCons(parts[0], parts[1..]);
  }

  /** From inside a feasible block the greedy first block reaches at least its end. */
  lemma FirstBlockCovers(lim: Limits, ms: seq<Message>, k: nat, p: seq<Message>)
    requires 1 <= lim.count
    requires k < |p| <= |ms|
    requires p == ms[..|p|]
    requires Feasible(lim, p)
    ensures k + FirstBlock(lim, ms[k..]) >= |p|
  {
    assert ms[k..][..|p| - k] == p[k..|p|];
    FeasibleSlice(lim, p, k, |p|);
    if FirstBlock(lim, ms[k..]) < |p| - k {
      FeasiblePrefix(lim, ms[k..], FirstBlock(lim, ms[k..]) + 1, |p| - k);
    }
  }

  /** No order-preserving segmentation within the limits has fewer batches than the greedy one. */
  lemma GreedyIsOptimal(lim: Limits, parts: seq<seq<Message>>)
    requires 1 <= lim.count
    requires AllFeasible(lim, parts)
    ensures |Greedy(lim, Flatten(parts))| <= |parts|
  {
    var ms := Flatten(parts);
    GreedyStaysAhead(lim, ms, 0, parts);
    assert ms[0..] == ms;
  }

  // ----- The online batcher computes the greedy segmentation -----

  /** Pushing `ms` in order. */
  function PushAll(lim: Limits, q: Queue, ms: seq<Message>): Outcome
    decreases |ms|
  {
    if ms == [] then Outcome([], q)
    else
      var first := PushStep(lim, q, ms[0]);
      var rest := PushAll(lim, first.queue, ms[1..]);
      Outcome(first.batches + rest.batches, rest.queue)
  }

  /** Everything handed out once a final flush follows. */
  function Complete(o: Outcome): seq<seq<Message>> {
    o.batches + Flushed(o.queue)
  }

  lemma PushIsGreedy(lim: Limits, q: Queue, m: Message, rest: seq<Message>)
    requires 1 <= lim.count
    requires ValidQueue(lim, q)
    ensures var o := PushStep(lim, q, m);
            Greedy(lim, q.pending + [m] + rest) == o.batches + Greedy(lim, o.queue.pending + rest)
  {
    PushCases(lim, q, m);
    OverflowsIff(lim, q, m);
    if Overflows(lim, q, m) {
      HeadTail([m] + rest);
      BlockThenRest(lim, q.pending, [m] + rest);
      Associative(q.pending, [m], rest);
    } else if Fills(lim, q, m) {
      assert [] + rest == rest;
      BlockThenRest(lim, q.pending + [m], rest);
    }
  }

  /** A feasible block that the next message would spoil is a greedy block. */
  lemma BlockThenRest(lim: Limits, b: seq<Message>, tail: seq<Message>)
    requires 1 <= lim.count
    requires Feasible(lim, b)
    requires tail != [] ==> !Feasible(lim, b + [tail[0]])
    ensures Greedy(lim, b + tail) == [b] + Greedy(lim, tail)
  {
    TakeDropOfConcat(b, tail);
    FirstBlockIs(lim, b + tail, |b|);
  }

  /** Pushing any messages and then flushing yields exactly the greedy segmentation. */
  lemma {:induction false} OnlineIsGreedy(lim: Limits, q: Queue, ms: seq<Message>)
    requires 1 <= lim.count
    requires ValidQueue(lim, q)
    ensures ValidQueue(lim, PushAll(lim, q, ms).queue)
    ensures Complete(PushAll(lim, q, ms)) == Greedy(lim, q.pending + ms)
    decreases |ms|
  {
    if ms == [] {
      assert q.pending + ms == q.pending;
      if q.pending != [] { GreedySingle(lim, q.pending); }
    } else {
      var next := PushStep(lim, q, ms[0]).queue;
      PushKeepsValid(lim, q, ms[0]);
      OnlineIsGreedy(lim, next, ms[1..]);
      PushIsGreedy(lim, q, ms[0], ms[1..]);
      MoveFirst(q.pending, ms);
      CompletePushAll(lim, q, ms);
    }
  }

  lemma CompletePushAll(lim: Limits, q: Queue, ms: seq<Message>)
    requires ms != []
    ensures var first := PushStep(lim, q, ms[0]);
            Complete(PushAll(lim, q, ms)) == first.batches + Complete(PushAll(lim, first.queue, ms[1..]))
  {
  }

  /**
   * Greedy optimality of the batcher: pushing messages and flushing segments them into no more
   * batches than any other order-preserving segmentation `parts` within the limits.
   */
  lemma BatcherIsOptimal(lim: Limits, parts: seq<seq<Message>>)
    requires 1 <= lim.count
    requires AllFeasible(lim, parts)
    ensures var all := Complete(PushAll(lim, EMPTY, Flatten(parts)));
            && |all| <= |parts|
            && Flatten(all) == Flatten(parts)
            && AllFeasible(lim, all)
  {
    var ms := Flatten(parts);
    OnlineIsGreedy(lim, EMPTY, ms);
    assert EMPTY.pending + ms == ms;
    GreedyIsOptimal(lim, parts);
    GreedyIsPartition(lim, ms);
  }
}
