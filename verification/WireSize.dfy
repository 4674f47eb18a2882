/**
 * How large a request gets (internal/core/message.go:72-126, internal/core/analytics.go:412-417).
 * The limit on a request is documented as 500 KB (ARCH.md:430); the constant is 500000 bytes.
 */
module WireSize {
  import opened Messages
  import opened Batching
  import opened EventTrace

  /** The limits a client with this batch size runs with. */
  function ClientLimits(batchSize: nat, sentAt: Bytes): Limits {
    Limits(batchSize, MaxBatchBytes(sentAt))
  }

  /** Every message of the batch passed `MakeMessage`. */
  predicate Sized(ms: seq<Message>) {
    forall i :: 0 <= i < |ms| ==> |ms[i].json| <= MAX_MESSAGE_BYTES
  }

  lemma {:induction false} SizedTotal(ms: seq<Message>)
    requires Sized(ms)
    ensures TotalLength(ms) <= MAX_MESSAGE_BYTES * |ms|
  {
    if ms != [] { SizedTotal(ms[..|ms| - 1]); }
  }

  lemma {:induction false} KeptIsSized(trace: seq<Event>)
    ensures Sized(Kept(trace))
  {
    if trace != [] { KeptIsSized(trace[..|trace| - 1]); }
  }

  lemma {:induction false} PartOfSized(parts: seq<seq<Message>>, i: nat)
    requires i < |parts|
    requires Sized(Flatten(parts))
    ensures Sized(parts[i])
  {
    var n := |parts| - 1;
    var init := Flatten(parts[..n]);
    assert Flatten(parts) == init + parts[n];
    if i == n {
      assert forall j :: 0 <= j < |parts[n]| ==> parts[n][j] == Flatten(parts)[|init| + j];
    } else {
      assert forall j :: 0 <= j < |init| ==> init[j] == Flatten(parts)[j];
      PartOfSized(parts[..n], i);
    }
  }

  /** The bound a batch of `n` messages really has: three bytes under 500000, then one byte more per message. */
  lemma WireBound(batchSize: nat, estimateAt: Bytes, sentAt: Bytes, ms: seq<Message>)
    requires |estimateAt| == |sentAt| == SENT_AT_LENGTH
    requires Feasible(ClientLimits(batchSize, estimateAt), ms) && Sized(ms)
    ensures |MarshalBatch(sentAt, Some(ms))| <= 500000 + |ms| - 4
    ensures |ms| <= 15 ==> |MarshalBatch(sentAt, Some(ms))| <= 500000
  {
    PayloadLength(sentAt, ms);
    PayloadLength(estimateAt, ms);
    SizedTotal(ms);
  }

  /** Every request of every run of the batcher respects the documented limit. */
  ghost predicate DocumentedLimitHolds(lim: Limits) {
    forall trace, i, sentAt: Bytes ::
      0 <= i < |Run(lim, trace).batches| && |sentAt| == SENT_AT_LENGTH
      ==> |MarshalBatch(sentAt, Some(Run(lim, trace).batches[i]))| <= 500000
  }

  lemma BatchIsSized(lim: Limits, trace: seq<Event>, i: nat)
    requires 1 <= lim.count
    requires i < |Run(lim, trace).batches|
    ensures Feasible(lim, Run(lim, trace).batches[i])
    ensures Sized(Run(lim, trace).batches[i])
  {
    var o := Run(lim, trace);
    RunKeepsOrder(lim, trace);
    KeptIsSized(trace);
    var kept := Kept(trace);
    assert forall j :: 0 <= j < |Flatten(o.batches)| ==> Flatten(o.batches)[j] == kept[j];
    PartOfSized(o.batches, i);
  }

  // ----- The bound is attained -----

  /** An alias message as the client encodes it, with a message id that makes it `n` bytes long. */
  function AliasJson(n: nat): (r: Bytes)
    requires 200 <= n
    ensures |r| == n
  {
    AliasHead() + seq(n - |AliasHead()| - |AliasTail()|, _ => 'x') + AliasTail()
  }

  function AliasHead(): (r: Bytes)
    ensures |r| == 29
  {
    "{\"type\":\"alias\",\"messageId\":\""
  }

  function AliasTail(): (r: Bytes)
    ensures |r| == 129
  {
    AliasIds() + AliasTime() + AliasLibrary() + AliasVersion()
  }

  function AliasIds(): Bytes { "\",\"previousId\":\"A\",\"userId\":\"B\"," }
  function AliasTime(): Bytes { "\"timestamp\":\"2009-11-10T23:00:00Z\"," }
  function AliasLibrary(): Bytes { "\"context\":{\"library\":{\"name\":\"" }
  function AliasVersion(): Bytes { "origamy-go\",\"version\":\"3.0.0\"}}}" }

  /** Fifteen messages of the largest size and one of 19949 bytes. */
  function Sizes(): seq<nat> {
    [32000, 32000, 32000, 32000, 32000, 32000, 32000, 32000,
     32000, 32000, 32000, 32000, 32000, 32000, 32000, 19949]
  }

  predicate LongEnough(sizes: seq<nat>) {
    forall i :: 0 <= i < |sizes| ==> 200 <= sizes[i] <= MAX_MESSAGE_BYTES
  }

  function MessagesOf(sizes: seq<nat>): (r: seq<Message>)
    requires LongEnough(sizes)
    ensures |r| == |sizes|
    ensures forall i :: 0 <= i < |sizes| ==> |r[i].json| == sizes[i] && r[i].msg == Msg(i, Encoded(r[i].json))
  {
    seq(|sizes|, i requires 0 <= i < |sizes| => Message(Msg(i, Encoded(AliasJson(sizes[i]))), AliasJson(sizes[i])))
  }

  function Sum(sizes: seq<nat>): nat {
    if sizes == [] then 0 else Sum(sizes[..|sizes| - 1]) + sizes[|sizes| - 1]
  }

  lemma {:induction false} TotalOf(sizes: seq<nat>)
    requires LongEnough(sizes)
    ensures TotalLength(MessagesOf(sizes)) == Sum(sizes)
  {
    if sizes != [] {
      var init := sizes[..|sizes| - 1];
      TotalOf(init);
      assert MessagesOf(sizes)[..|sizes| - 1] == MessagesOf(init);
    }
  }

  lemma {:induction false} SumRepeat(n: nat, x: nat)
    ensures Sum(seq(n, _ => x)) == n * x
  {
    if n > 0 {
      SumRepeat(n - 1, x);
      assert seq(n, _ => x)[..n - 1] == seq(n - 1, _ => x);
    }
  }

  /** The trace that receives these messages and then ticks. */
  function TraceOf(ms: seq<Message>): (r: seq<Event>)
    ensures |r| == |ms|
  {
    seq(|ms|, i requires 0 <= i < |ms| => Got(ms[i].msg))
  }

  lemma {:induction false} KeptOfTrace(sizes: seq<nat>, n: nat)
    requires n <= |sizes| && LongEnough(sizes)
    ensures Segments(TraceOf(MessagesOf(sizes))[..n]) == [MessagesOf(sizes)[..n]]
  {
    hide MessagesOf, KeptOf;
    var ms := MessagesOf(sizes);
    var trace := TraceOf(ms);
    if n > 0 {
      KeptOfTrace(sizes, n - 1);
      AllKept(sizes, n - 1);
      assert trace[..n][..n - 1] == trace[..n - 1];
      assert ms[..n] == ms[..n - 1] + [ms[n - 1]];
    }
  }

  lemma AllKept(sizes: seq<nat>, i: nat)
    requires LongEnough(sizes) && i < |sizes|
    ensures TraceOf(MessagesOf(sizes))[i].Got?
    ensures KeptOf(TraceOf(MessagesOf(sizes))[i]) == [MessagesOf(sizes)[i]]
  {
  }

  /** With room for sixteen messages a run makes one request of 500012 bytes, the bound for sixteen. */
  lemma BoundIsAttained(lim: Limits, sentAt: Bytes)
    returns (trace: seq<Event>)
    requires 16 <= lim.count
    requires |sentAt| == SENT_AT_LENGTH && lim.bytes == MaxBatchBytes(sentAt)
    ensures |Run(lim, trace).batches| == 1
    ensures var b := Run(lim, trace).batches[0];
            && |b| == 16
            && |MarshalBatch(sentAt, Some(b))| == 500000 + |b| - 4
            && |MarshalBatch(sentAt, Some(b))| > 500000
  {
    SixteenMessages();
    PayloadLength(sentAt, MessagesOf(Sizes()));
    trace := OneBatchTrace(lim, sentAt, Sizes());
  }

  /** Messages whose sizes fit one batch make, received without a tick, one batch of that total. */
  lemma OneBatchTrace(lim: Limits, sentAt: Bytes, sizes: seq<nat>) returns (trace: seq<Event>)
    requires LongEnough(sizes)
    requires 1 <= |sizes| <= lim.count && TotalLength(MessagesOf(sizes)) + 1 <= lim.bytes
    requires |sentAt| == SENT_AT_LENGTH
    ensures |Run(lim, trace).batches| == 1
    ensures var b := Run(lim, trace).batches[0];
            |b| == |sizes| && |MarshalBatch(sentAt, Some(b))| == 47 + TotalLength(MessagesOf(sizes)) + |b|
  {
    var ms := MessagesOf(sizes);
    trace := TraceOf(ms) + [Tick];
    KeptOfTrace(sizes, |sizes|);
    assert TraceOf(ms)[..|ms|] == TraceOf(ms) && ms[..|ms|] == ms;
    OneSegment(lim, TraceOf(ms), ms);
    PayloadLength(sentAt, ms);
  }

  lemma SixteenMessages()
    ensures TotalLength(MessagesOf(Sizes())) == 499949
  {
    TotalOf(Sizes());
    assert Sizes()[..15] == seq(15, _ => 32000);
    SumRepeat(15, 32000);
  }

  /** Messages that fit one batch, received without a tick, make one batch. */
  lemma OneSegment(lim: Limits, trace: seq<Event>, ms: seq<Message>)
    requires Feasible(lim, ms)
    requires Segments(trace) == [ms]
    ensures Run(lim, trace + [Tick]).batches == [ms]
  {
    BatchesAreGreedyBetweenTicks(lim, trace);
    GreedySingle(lim, ms);
    assert [ms][..0] == [];
    assert GreedyEach(lim, [ms]) == GreedyEach(lim, []) + [ms];
  }

  /** The documented limit holds of every run exactly when the batch size is at most fifteen. */
  lemma DocumentedLimitHoldsIff(batchSize: nat, estimateAt: Bytes)
    requires 1 <= batchSize
    requires |estimateAt| == SENT_AT_LENGTH
    ensures DocumentedLimitHolds(ClientLimits(batchSize, estimateAt)) <==> batchSize <= 15
  {
    var lim := ClientLimits(batchSize, estimateAt);
    if batchSize <= 15 {
      forall trace, i, sentAt: Bytes | 0 <= i < |Run(lim, trace).batches| && |sentAt| == SENT_AT_LENGTH
        ensures |MarshalBatch(sentAt, Some(Run(lim, trace).batches[i]))| <= 500000
      {
        BatchIsSized(lim, trace, i);
        WireBound(batchSize, estimateAt, sentAt, Run(lim, trace).batches[i]);
      }
    } else {
      var trace := BoundIsAttained(lim, estimateAt);
      assert |MarshalBatch(estimateAt, Some(Run(lim, trace).batches[0]))| > 500000;
    }
  }

  // ----- Accumulating the commas would restore the limit -----

  /** `push` with one change: the bytes kept are the sum of the sizes, commas included, that the test uses. */
  function CommaStep(lim: Limits, q: Queue, m: Message): Outcome {
    var overflow := q.bytes + Size(m) > lim.bytes;
    var b := if overflow then Flushed(q) else [];
    var q1 := if overflow then EMPTY else q;
    var q2 := Queue(q1.pending + [m], q1.bytes + Size(m));
    if b == [] && |q2.pending| == lim.count then Outcome([q2.pending], EMPTY) else Outcome(b, q2)
  }

  function CommaEvent(lim: Limits, q: Queue, e: Event): Outcome {
    if e.Tick? then Outcome(Flushed(q), EMPTY)
    else if KeptOf(e) == [] then Outcome([], q)
    else CommaStep(lim, q, KeptOf(e)[0])
  }

  /** As `Run`, with the changed `push`. */
  function CommaRun(lim: Limits, trace: seq<Event>): Outcome {
    if trace == [] then Outcome([], EMPTY)
    else
      var before := CommaRun(lim, trace[..|trace| - 1]);
      var last := CommaEvent(lim, before.queue, trace[|trace| - 1]);
      Outcome(before.batches + last.batches, last.queue)
  }

  /** A batch whose sizes fit the budget, or a single message. */
  predicate CommasFit(lim: Limits, ms: seq<Message>) {
    1 <= |ms| <= lim.count && Sized(ms) && (|ms| == 1 || TotalLength(ms) + |ms| <= lim.bytes)
  }

  predicate CommaValid(lim: Limits, q: Queue) {
    && q.bytes == TotalLength(q.pending) + |q.pending|
    && |q.pending| < lim.count
    && (q.pending != [] ==> CommasFit(lim, q.pending))
  }

  predicate GoodCommaStep(lim: Limits, q: Queue, kept: seq<Message>, o: Outcome) {
    && CommaValid(lim, o.queue)
    && |o.batches| <= 1
    && (o.batches != [] ==> CommasFit(lim, o.batches[0]))
    && (if o.batches == [] then [] else o.batches[0]) + o.queue.pending == q.pending + kept
  }

  lemma CommaStepIsGood(lim: Limits, q: Queue, m: Message)
    requires 1 <= lim.count && CommaValid(lim, q) && |m.json| <= MAX_MESSAGE_BYTES
    ensures GoodCommaStep(lim, q, [m], CommaStep(lim, q, m))
  {
    hide CommasFit, Sized;
    var all := q.pending + [m];
    assert [] + [m] == [m];
    if Overflows(lim, q, m) {
      CommasFitAlone(lim, m);
    } else {
      CommasFitAppended(lim, q, m);
      if |all| == lim.count { assert all + [] == all; } else { assert [] + all == all; }
    }
  }

  lemma CommasFitAlone(lim: Limits, m: Message)
    requires 1 <= lim.count && |m.json| <= MAX_MESSAGE_BYTES
    ensures CommasFit(lim, [m]) && TotalLength([m]) == |m.json|
  {
    TotalLengthSnoc([], m);
    assert [] + [m] == [m];
  }

  lemma CommasFitAppended(lim: Limits, q: Queue, m: Message)
    requires 1 <= lim.count && CommaValid(lim, q) && |m.json| <= MAX_MESSAGE_BYTES
    requires q.pending == [] || q.bytes + Size(m) <= lim.bytes
    ensures CommasFit(lim, q.pending + [m])
    ensures TotalLength(q.pending + [m]) == TotalLength(q.pending) + |m.json|
  {
    TotalLengthSnoc(q.pending, m);
  }

  lemma CommaEventIsGood(lim: Limits, q: Queue, e: Event)
    requires 1 <= lim.count && CommaValid(lim, q)
    ensures GoodCommaStep(lim, q, KeptOf(e), CommaEvent(lim, q, e))
  {
    if KeptOf(e) != [] {
      CommaStepIsGood(lim, q, KeptOf(e)[0]);
    } else {
      assert q.pending + [] == q.pending && [] + q.pending == q.pending;
    }
  }

  lemma {:induction false} CommaRunIsGood(lim: Limits, trace: seq<Event>)
    requires 1 <= lim.count
    ensures var o := CommaRun(lim, trace);
            && CommaValid(lim, o.queue)
            && AllCommasFit(lim, o.batches)
            && Flatten(o.batches) + o.queue.pending == Kept(trace)
  {
    if trace != [] {
      var before, e := trace[..|trace| - 1], trace[|trace| - 1];
      CommaRunIsGood(lim, before);
      CommaEventIsGood(lim, CommaRun(lim, before).queue, e);
      CommaThen(lim, CommaRun(lim, before), Kept(before), KeptOf(e), CommaEvent(lim, CommaRun(lim, before).queue, e));
    }
  }

  predicate AllCommasFit(lim: Limits, batches: seq<seq<Message>>) {
    forall i :: 0 <= i < |batches| ==> CommasFit(lim, batches[i])
  }

  lemma CommaThen(lim: Limits, o: Outcome, sofar: seq<Message>, kept: seq<Message>, last: Outcome)
    requires AllCommasFit(lim, o.batches) && Flatten(o.batches) + o.queue.pending == sofar
    requires GoodCommaStep(lim, o.queue, kept, last)
    ensures AllCommasFit(lim, o.batches + last.batches)
    ensures Flatten(o.batches + last.batches) + last.queue.pending == sofar + kept
  {
    hide CommasFit, CommaValid, Flatten;
    FlattenConcat(o.batches, last.batches);
    FlattenAtMostOne(last.batches);
    Regroup(Flatten(o.batches), Flatten(last.batches), last.queue.pending, o.queue.pending, kept);
  }

  /**
   * Had `push` accumulated the size with its comma, every request of every run would respect the
   * limit, whatever the batch size, and still no message be lost or reordered.
   */
  lemma CountingCommasWouldFit(batchSize: nat, estimateAt: Bytes, sentAt: Bytes, trace: seq<Event>)
    requires 1 <= batchSize
    requires |estimateAt| == |sentAt| == SENT_AT_LENGTH
    ensures var o := CommaRun(ClientLimits(batchSize, estimateAt), trace);
            && (forall i :: 0 <= i < |o.batches| ==> |MarshalBatch(sentAt, Some(o.batches[i]))| <= 500000)
            && Flatten(o.batches) + o.queue.pending == Kept(trace)
  {
    var lim := ClientLimits(batchSize, estimateAt);
    var o := CommaRun(lim, trace);
    CommaRunIsGood(lim, trace);
    forall i | 0 <= i < |o.batches| ensures |MarshalBatch(sentAt, Some(o.batches[i]))| <= 500000 {
      PayloadLength(sentAt, o.batches[i]);
      PayloadLength(estimateAt, o.batches[i]);
      SizedTotal(o.batches[i]);
    }
  }
}
