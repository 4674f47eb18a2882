/**
 * The batching side of the event loop, run over the turns its `select` takes: messages and ticks
 * until `quit`, then the drain and the last flush (internal/core/analytics.go:339-396).
 */
module EventLoops {
  import opened Messages
  import opened Batching
  import opened EventTrace
  import opened MessageQueues

  /** The batches handed off and the batcher, with the failures notified so far. */
  datatype LoopState = LoopState(outcome: Outcome, failed: seq<Note>)

  function Handle(lim: Limits, st: LoopState, e: Event): LoopState {
    LoopState(Then(lim, st.outcome, e), st.failed + DroppedOf(e))
  }

  /** The state after the turns from the `i`-th on. */
  function HandleFrom(lim: Limits, st: LoopState, turns: seq<Event>, i: nat): LoopState
    requires i <= |turns|
    decreases |turns| - i
  {
    if i == |turns| then st else HandleFrom(lim, Handle(lim, st, turns[i]), turns, i + 1)
  }

  /** The loop's state over a whole trace. */
  function StateAfter(lim: Limits, trace: seq<Event>): LoopState {
    LoopState(Run(lim, trace), Dropped(trace))
  }

  lemma {:induction false} HandleFromIsRun(lim: Limits, before: seq<Event>, turns: seq<Event>, i: nat)
    requires i <= |turns|
    ensures HandleFrom(lim, StateAfter(lim, before + turns[..i]), turns, i) == StateAfter(lim, before + turns)
    decreases |turns| - i
  {
    if i == |turns| {
      assert turns[..i] == turns;
    } else {
      HandleFromIsRun(lim, before, turns, i + 1);
      OneMore(lim, before + turns[..i], turns[i]);
      assert before + turns[..i + 1] == before + turns[..i] + [turns[i]];
    }
  }

  lemma OneMore(lim: Limits, trace: seq<Event>, e: Event)
    ensures StateAfter(lim, trace + [e]) == Handle(lim, StateAfter(lim, trace), e)
  {
    RunSnoc(lim, trace, e);
    TraceSnoc(trace, e);
  }

  class EventLoop {
    const mq: MessageQueue
    /** The slices given to `sendAsync`, in order. */
    var sent: seq<Slice>
    /** The failures notified by the loop itself. */
    var failed: seq<Note>
    /** What each slice held when it was handed off. */
    ghost var batches: seq<seq<Message>>

    ghost predicate Valid()
      reads this, mq, mq.handedOff
    {
      mq.Shape() && Intact()
    }

    ghost function Abs(): LoopState
      requires mq.pending.Valid()
      reads this, mq, mq.pending.Buffer()
    {
      LoopState(Outcome(batches, mq.Abs()), failed)
    }

    /** Every slice still holds what it held when it was handed off. */
    ghost predicate Intact()
      reads this, mq, mq.handedOff
    {
      && |sent| == |batches|
      && forall i :: 0 <= i < |sent| ==>
           sent[i].Slice? && sent[i].Valid() && sent[i].buf in mq.handedOff && sent[i].Elements() == batches[i]
    }

    constructor (maxBatchSize: nat, maxBatchBytes: int)
      requires 1 <= maxBatchSize
      ensures Valid() && Abs() == StateAfter(mq.Lim(), []) && fresh(mq)
      ensures mq.Lim() == Limits(maxBatchSize, maxBatchBytes) && mq.pending.Nil?
    {
      mq := new MessageQueue(maxBatchSize, maxBatchBytes);
      sent, failed, batches := [], [], [];
    }

    /** `sendAsync` as the batcher sees it: the slice is given away. */
    method SendAsync(b: Slice)
      requires Intact()
      requires b.Slice? && b.Valid() && b.buf in mq.handedOff
      modifies this`sent, this`batches
      ensures Intact()
      ensures sent == old(sent) + [b] && batches == old(batches) + [b.Elements()]
    {
      sent, batches := sent + [b], batches + [b.Elements()];
    }

    /** The batching half of `client.push`. */
    method Batch(msg: Message)
      requires Valid()
      modifies this`sent, this`batches, mq, mq.pending.Buffer()
      ensures Valid() && fresh(mq.pending.Buffer() - old(mq.pending.Buffer()))
      ensures var pushed := PushStep(mq.Lim(), old(mq.Abs()), msg);
              batches == old(batches) + pushed.batches && mq.Abs() == pushed.queue
    {
      var b := mq.Push(msg);
      assert Intact();
      if b.Slice? {
        SendAsync(b);
      } else {
        assert batches + [] == batches;
      }
    }

    /** `client.push`: a message that does not encode or fit is reported, any other one batched. */
    method Push(m: Msg)
      requires Valid()
      modifies this, mq, mq.pending.Buffer()
      ensures Valid()
      ensures Abs() == Handle(mq.Lim(), old(Abs()), Got(m))
      ensures fresh(mq.pending.Buffer() - old(mq.pending.Buffer()))
    {
      match MakeMessage(m, MAX_MESSAGE_BYTES) {
        case Err(e) =>
          failed := failed + [Note(m, Failure(e))];
          assert batches + [] == batches;
        case Ok(msg) =>
          Batch(msg);
          assert failed + [] == failed;
      }
    }

    /** `client.flush`. */
    method Flush()
      requires Valid()
      modifies this, mq
      ensures Valid() && mq.pending.Nil?
      ensures Abs() == Handle(mq.Lim(), old(Abs()), Tick)
    {
      var b := mq.Flush();
      if b.Slice? {
        SendAsync(b);
      }
    }

    /** The turns of the `select` until the client is closed. */
    method Turns(turns: seq<Event>)
      requires Valid()
      modifies this, mq, mq.pending.Buffer()
      ensures Valid() && fresh(mq.pending.Buffer() - old(mq.pending.Buffer()))
      ensures Abs() == HandleFrom(mq.Lim(), old(Abs()), turns, 0)
    {
      for i := 0 to |turns|
        invariant Valid() && fresh(mq.pending.Buffer() - old(mq.pending.Buffer()))
        invariant HandleFrom(mq.Lim(), Abs(), turns, i) == HandleFrom(mq.Lim(), old(Abs()), turns, 0)
      {
        match turns[i] {
          case Got(m) => Push(m);
          case Tick => Flush();
        }
      }
    }

    /** What is left in the queue, message by message. */
    method Drain(left: seq<Msg>)
      requires Valid()
      modifies this, mq, mq.pending.Buffer()
      ensures Valid() && fresh(mq.pending.Buffer() - old(mq.pending.Buffer()))
      ensures Abs() == HandleFrom(mq.Lim(), old(Abs()), Drained(left), 0)
    {
      for i := 0 to |left|
        invariant Valid() && fresh(mq.pending.Buffer() - old(mq.pending.Buffer()))
        invariant HandleFrom(mq.Lim(), Abs(), Drained(left), i) == HandleFrom(mq.Lim(), old(Abs()), Drained(left), 0)
      {
        Push(left[i]);
      }
    }

    /**
     * The loop from start to exit: `turns` until the client is closed, then what is `left` in the
     * queue, then the last flush. The batches are the greedy ones between the ticks, and they
     * still hold, when the loop exits, what they held when they were handed off.
     */
    method Loop(turns: seq<Event>, left: seq<Msg>)
      requires Valid() && Abs() == StateAfter(mq.Lim(), [])
      modifies this, mq, mq.pending.Buffer()
      ensures Valid() && mq.Valid() && mq.pending.Nil?
      ensures batches == GreedyEach(mq.Lim(), Segments(turns + Drained(left)))
      ensures failed == Dropped(turns + Drained(left))
    {
      Turns(turns);
      Drain(left);
      Flush();
      LoopIsGreedy(mq.Lim(), turns, left);
    }
  }

  lemma LoopIsGreedy(lim: Limits, turns: seq<Event>, left: seq<Msg>)
    requires 1 <= lim.count
    ensures var st := HandleFrom(lim, HandleFrom(lim, StateAfter(lim, []), turns, 0), Drained(left), 0);
            && Handle(lim, st, Tick).outcome.batches == GreedyEach(lim, Segments(turns + Drained(left)))
            && Handle(lim, st, Tick).failed == Dropped(turns + Drained(left))
  {
    var all := turns + Drained(left);
    HandleFromIsRun(lim, [], turns, 0);
    assert [] + turns[..0] == [] && [] + turns == turns;
    HandleFromIsRun(lim, turns, Drained(left), 0);
    assert turns + Drained(left)[..0] == turns;
    OneMore(lim, all, Tick);
    BatchesAreGreedyBetweenTicks(lim, all);
  }

  /** The turns of the drain loop. */
  function Drained(left: seq<Msg>): (r: seq<Event>)
    ensures |r| == |left|
    ensures forall i :: 0 <= i < |left| ==> r[i] == Got(left[i])
  {
    seq(|left|, i requires 0 <= i < |left| => Got(left[i]))
  }
}
