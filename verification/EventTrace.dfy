/**
 * The event loop's input as a trace, and what the loop makes of it
 * (internal/core/analytics.go:347-396).
 */
module EventTrace {
  import opened Messages
  import opened Batching
  import opened Sequences

  /** What one turn of the loop handles: a message taken from the queue, or a flush. */
  datatype Event = Got(m: Msg) | Tick

  /** One callback: the message and the error it failed with, if it failed. */
  datatype Note = Note(m: Msg, verdict: Verdict)
  datatype Verdict = Success | Failure(error: Error)

  function Subjects(notes: seq<Note>): (r: seq<Msg>)
    ensures |r| == |notes|
    ensures forall i :: 0 <= i < |notes| ==> r[i] == notes[i].m
  {
    seq(|notes|, i requires 0 <= i < |notes| => notes[i].m)
  }

  function StepEvent(lim: Limits, q: Queue, e: Event): Outcome {
    match e
    case Tick => Outcome(Flushed(q), EMPTY)
    case Got(m) =>
      match MakeMessage(m, MAX_MESSAGE_BYTES)
      case Ok(msg) => PushStep(lim, q, msg)
      case Err(_) => Outcome([], q)
  }

  /** One more event after what has happened so far. */
  function Then(lim: Limits, o: Outcome, e: Event): Outcome {
    var last := StepEvent(lim, o.queue, e);
    Outcome(o.batches + last.batches, last.queue)
  }

  /** The batches handed to `sendAsync` over a trace, and the batcher's state after it. */
  function Run(lim: Limits, trace: seq<Event>): Outcome {
    if trace == [] then Outcome([], EMPTY)
    else Then(lim, Run(lim, trace[..|trace| - 1]), trace[|trace| - 1])
  }

  lemma RunSnoc(lim: Limits, trace: seq<Event>, e: Event)
    ensures Run(lim, trace + [e]) == Then(lim, Run(lim, trace), e)
  {
    assert (trace + [e])[..|trace|] == trace;
  }

  /** The messages of a trace, in order. */
  function Received(trace: seq<Event>): seq<Msg> {
    if trace == [] then []
    else
      var before := Received(trace[..|trace| - 1]);
      match trace[|trace| - 1]
      case Tick => before
      case Got(m) => before + [m]
  }

  function KeptOf(e: Event): seq<Message> {
    if e.Got? && MakeMessage(e.m, MAX_MESSAGE_BYTES).Ok?
    then [MakeMessage(e.m, MAX_MESSAGE_BYTES).value] else []
  }

  function DroppedOf(e: Event): seq<Note> {
    if e.Got? && MakeMessage(e.m, MAX_MESSAGE_BYTES).Err?
    then [Note(e.m, Failure(MakeMessage(e.m, MAX_MESSAGE_BYTES).error))] else []
  }

  /** The messages of a trace that encode and fit, in order. */
  function Kept(trace: seq<Event>): seq<Message> {
    if trace == [] then [] else Kept(trace[..|trace| - 1]) + KeptOf(trace[|trace| - 1])
  }

  /** The failures reported for the others. */
  function Dropped(trace: seq<Event>): seq<Note> {
    if trace == [] then [] else Dropped(trace[..|trace| - 1]) + DroppedOf(trace[|trace| - 1])
  }

  lemma TraceSnoc(trace: seq<Event>, e: Event)
    ensures Received(trace + [e]) == Received(trace) + (if e.Got? then [e.m] else [])
    ensures Kept(trace + [e]) == Kept(trace) + KeptOf(e)
    ensures Dropped(trace + [e]) == Dropped(trace) + DroppedOf(e)
  {
    assert (trace + [e])[..|trace|] == trace;
  }

  /**
   * Over any trace: the batches handed out, then the pending messages, are the kept messages in
   * the order they were received; every batch is within the limits; the state is valid.
   */
  lemma {:induction false} RunKeepsOrder(lim: Limits, trace: seq<Event>)
    requires 1 <= lim.count
    ensures ValidQueue(lim, Run(lim, trace).queue)
    ensures AllFeasible(lim, Run(lim, trace).batches)
    ensures Flatten(Run(lim, trace).batches) + Run(lim, trace).queue.pending == Kept(trace)
  {
    if trace != [] {
      var before, e := trace[..|trace| - 1], trace[|trace| - 1];
      RunKeepsOrder(lim, before);
      StepKeepsOrder(lim, Run(lim, before).queue, e);
      var last := StepEvent(lim, Run(lim, before).queue, e);
      FlattenConcat(Run(lim, before).batches, last.batches);
      Regroup(Flatten(Run(lim, before).batches), Flatten(last.batches), last.queue.pending,
              Run(lim, before).queue.pending, KeptOf(e));
    }
  }

  lemma Regroup<T>(done: seq<T>, now: seq<T>, after: seq<T>, before: seq<T>, extra: seq<T>)
    requires now + after == before + extra
    ensures (done + now) + after == (done + before) + extra
  {
    assert (done + now) + after == done + (now + after);
    assert (done + before) + extra == done + (before + extra);
  }

  lemma StepKeepsOrder(lim: Limits, q: Queue, e: Event)
    requires 1 <= lim.count
    requires ValidQueue(lim, q)
    ensures var o := StepEvent(lim, q, e);
            && ValidQueue(lim, o.queue)
            && AllFeasible(lim, o.batches)
            && Flatten(o.batches) + o.queue.pending == q.pending + KeptOf(e)
            && |o.batches| <= 1
  {
    if KeptOf(e) != [] {
      PushKeepsValid(lim, q, KeptOf(e)[0]);
      FlattenAtMostOne(PushStep(lim, q, KeptOf(e)[0]).batches);
    } else {
      FlattenAtMostOne(StepEvent(lim, q, e).batches);
      assert q.pending + [] == q.pending && [] + q.pending == q.pending;
    }
  }

  lemma FlattenAtMostOne<T>(parts: seq<seq<T>>)
    requires |parts| <= 1
    ensures Flatten(parts) == if parts == [] then [] else parts[0]
  {
    if parts != [] {
      assert parts[..0] == [];
      assert [] + parts[0] == parts[0];
    }
  }

  /** Every received message is either kept or reported as failed, exactly once. */
  lemma {:induction false} ReceivedSplits(trace: seq<Event>)
    ensures multiset(Received(trace))
            == multiset(Subjects(Dropped(trace))) + multiset(Originals(Kept(trace)))
  {
    if trace != [] {
      var before, e := trace[..|trace| - 1], trace[|trace| - 1];
      ReceivedSplits(before);
      SubjectsConcat(Dropped(before), DroppedOf(e));
      OriginalsConcat(Kept(before), KeptOf(e));
      EventSplits(e);
    }
  }

  lemma EventSplits(e: Event)
    ensures (if e.Got? then multiset{e.m} else multiset{})
            == multiset(Subjects(DroppedOf(e))) + multiset(Originals(KeptOf(e)))
  {
    if KeptOf(e) != [] { assert Originals(KeptOf(e)) == [e.m]; }
    if DroppedOf(e) != [] { assert Subjects(DroppedOf(e)) == [e.m]; }
  }

  lemma SubjectsConcat(a: seq<Note>, b: seq<Note>)
    ensures Subjects(a + b) == Subjects(a) + Subjects(b)
  {
  }

  lemma OriginalsConcat(a: seq<Message>, b: seq<Message>)
    ensures Originals(a + b) == Originals(a) + Originals(b)
  {
  }

  // ----- Which messages are kept, said of their encodings -----

  /** The message encodes, in at most 32000 bytes. */
  predicate Fits(m: Msg) {
    m.encoding.Encoded? && |m.encoding.json| <= 32000
  }

  /** Why a message that does not fit is refused. */
  function Reason(m: Msg): Error {
    if m.encoding.Unencodable? then NotEncodable else MessageTooBig
  }

  /** The messages that fit, or those that do not, in order. */
  function OnlyFitting(msgs: seq<Msg>, fitting: bool): seq<Msg> {
    if msgs == [] then []
    else
      var m := msgs[|msgs| - 1];
      OnlyFitting(msgs[..|msgs| - 1], fitting) + (if Fits(m) == fitting then [m] else [])
  }

  /** Every kept message carries its own encoding. */
  predicate Carried(kept: seq<Message>) {
    forall i :: 0 <= i < |kept| ==> Fits(kept[i].msg) && kept[i].json == kept[i].msg.encoding.json
  }

  /** Every failure names the reason of a message that does not fit. */
  predicate Reasoned(notes: seq<Note>) {
    forall i :: 0 <= i < |notes| ==> !Fits(notes[i].m) && notes[i].verdict == Failure(Reason(notes[i].m))
  }

  /**
   * The kept messages are exactly those that encode in at most 32000 bytes, with their encodings,
   * and the dropped ones exactly the others, each with its reason, both in the order received.
   */
  lemma {:induction false} KeptExactly(trace: seq<Event>)
    ensures Originals(Kept(trace)) == OnlyFitting(Received(trace), true) && Carried(Kept(trace))
    ensures Subjects(Dropped(trace)) == OnlyFitting(Received(trace), false) && Reasoned(Dropped(trace))
  {
    if trace != [] {
      var before, e := trace[..|trace| - 1], trace[|trace| - 1];
      KeptExactly(before);
      OriginalsConcat(Kept(before), KeptOf(e));
      SubjectsConcat(Dropped(before), DroppedOf(e));
      if e.Got? {
        OneKeptExactly(e);
        InitOfSnoc(Received(before), e.m);
      }
    }
  }

  lemma OneKeptExactly(e: Event)
    requires e.Got?
    ensures Originals(KeptOf(e)) == (if Fits(e.m) then [e.m] else []) && Carried(KeptOf(e))
    ensures Subjects(DroppedOf(e)) == (if Fits(e.m) then [] else [e.m]) && Reasoned(DroppedOf(e))
  {
  }

  // ----- The exact batches: greedy between flushes -----

  /** The kept messages between consecutive flushes. */
  function Segments(trace: seq<Event>): (r: seq<seq<Message>>)
    ensures r != []
  {
    if trace == [] then [[]]
    else
      var before := Segments(trace[..|trace| - 1]);
      var e := trace[|trace| - 1];
      var n := |before| - 1;
      if e.Tick? then before + [[]] else before[..n] + [before[n] + KeptOf(e)]
  }

  /** The greedy segmentation of each segment, one after the other. */
  function GreedyEach(lim: Limits, segments: seq<seq<Message>>): seq<seq<Message>>
    requires 1 <= lim.count
  {
    if segments == [] then []
    else GreedyEach(lim, segments[..|segments| - 1]) + Greedy(lim, segments[|segments| - 1])
  }

  lemma {:induction false} PushAllSnoc(lim: Limits, q: Queue, ms: seq<Message>, m: Message)
    ensures var before := PushAll(lim, q, ms);
            var last := PushStep(lim, before.queue, m);
            PushAll(lim, q, ms + [m]) == Outcome(before.batches + last.batches, last.queue)
    decreases |ms|
  {
    if ms == [] {
      assert ([] + [m])[1..] == [];
      assert PushAll(lim, q, [] + [m]).batches == PushStep(lim, q, m).batches + [];
    } else {
      assert (ms + [m])[1..] == ms[1..] + [m];
      PushAllSnoc(lim, PushStep(lim, q, ms[0]).queue, ms[1..], m);
    }
  }

  ghost predicate RunMatches(lim: Limits, trace: seq<Event>)
    requires 1 <= lim.count
  {
    var segs := Segments(trace);
    var current := PushAll(lim, EMPTY, segs[|segs| - 1]);
    && Run(lim, trace).queue == current.queue
    && Run(lim, trace).batches == GreedyEach(lim, segs[..|segs| - 1]) + current.batches
  }

  lemma {:induction false} RunIsGreedyBetweenTicks(lim: Limits, trace: seq<Event>)
    requires 1 <= lim.count
    ensures RunMatches(lim, trace)
  {
    if trace != [] {
      var before, e := trace[..|trace| - 1], trace[|trace| - 1];
      RunIsGreedyBetweenTicks(lim, before);
      if e.Tick? { MatchTick(lim, trace); } else { MatchMessage(lim, trace); }
    }
  }

  lemma MatchTick(lim: Limits, trace: seq<Event>)
    requires 1 <= lim.count
    requires trace != [] && trace[|trace| - 1].Tick?
    requires RunMatches(lim, trace[..|trace| - 1])
    ensures RunMatches(lim, trace)
  {
    var before := trace[..|trace| - 1];
    var segs := Segments(before);
    LastIn(segs, []);
    SegmentDone(lim, segs[..|segs| - 1], segs[|segs| - 1]);
    assert segs == segs[..|segs| - 1] + [segs[|segs| - 1]];
  }

  lemma LastIn<T>(segs: seq<seq<T>>, last: seq<T>)
    ensures (segs + [last])[..|segs + [last]| - 1] == segs
    ensures (segs + [last])[|segs + [last]| - 1] == last
  {
  }

  /** A flush completes the current segment. */
  lemma SegmentDone(lim: Limits, done: seq<seq<Message>>, current: seq<Message>)
    requires 1 <= lim.count
    ensures GreedyEach(lim, done) + Complete(PushAll(lim, EMPTY, current)) == GreedyEach(lim, done + [current])
  {
    OnlineIsGreedy(lim, EMPTY, current);
    assert EMPTY.pending + current == current;
    LastIn(done, current);
  }

  lemma MatchMessage(lim: Limits, trace: seq<Event>)
    requires 1 <= lim.count
    requires trace != [] && trace[|trace| - 1].Got?
    requires RunMatches(lim, trace[..|trace| - 1])
    ensures RunMatches(lim, trace)
  {
    var e := trace[|trace| - 1];
    var segs := Segments(trace[..|trace| - 1]);
    var done, current := segs[..|segs| - 1], segs[|segs| - 1];
    LastIn(done, current + KeptOf(e));
    StepCurrent(lim, current, e);
    Associative(GreedyEach(lim, done), PushAll(lim, EMPTY, current).batches,
                StepEvent(lim, PushAll(lim, EMPTY, current).queue, e).batches);
  }

  /** A message extends the segment it falls in. */
  lemma StepCurrent(lim: Limits, current: seq<Message>, e: Event)
    requires e.Got?
    ensures PushAll(lim, EMPTY, current + KeptOf(e)) == Then(lim, PushAll(lim, EMPTY, current), e)
  {
    if KeptOf(e) == [] {
      assert current + [] == current;
    } else {
      PushAllSnoc(lim, EMPTY, current, KeptOf(e)[0]);
    }
  }

  /**
   * The whole run in one equation: with a last flush, the batches are exactly the greedy
   * segmentation of the kept messages between any two flushes.
   */
  lemma BatchesAreGreedyBetweenTicks(lim: Limits, trace: seq<Event>)
    requires 1 <= lim.count
    ensures Run(lim, trace + [Tick]).batches == GreedyEach(lim, Segments(trace))
    ensures Run(lim, trace + [Tick]).queue == EMPTY
  {
    RunIsGreedyBetweenTicks(lim, trace + [Tick]);
    assert (trace + [Tick])[..|trace|] == trace;
    var segs := Segments(trace);
    assert (segs + [[]])[..|segs|] == segs;
  }
}
