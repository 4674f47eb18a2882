/** What the client promises, over every run of every interleaving. */
module PipelineTheorems {
  import opened Messages
  import opened Batching
  import opened EventTrace
  import opened Sequences
  import opened Pipeline
  import opened TaskSums
  import opened PipelineInvariant
  import opened PipelineLoopSteps

  // ----- Order -----

  /** The messages that encode and fit, in order. */
  function Fitting(msgs: seq<Msg>): seq<Message> {
    if msgs == [] then []
    else Fitting(msgs[..|msgs| - 1]) + KeptOf(Got(msgs[|msgs| - 1]))
  }

  lemma {:induction false} FittingConcat(a: seq<Msg>, b: seq<Msg>)
    ensures Fitting(a + b) == Fitting(a) + Fitting(b)
  {
    if b == [] {
      assert a + b == a;
    } else {
      InitOfConcat(a, b);
      FittingConcat(a, b[..|b| - 1]);
      Associative(Fitting(a), Fitting(b[..|b| - 1]), KeptOf(Got(b[|b| - 1])));
    }
  }

  lemma {:induction false} KeptIsFitting(trace: seq<Event>)
    ensures Kept(trace) == Fitting(Received(trace))
  {
    if trace != [] {
      var before, e := trace[..|trace| - 1], trace[|trace| - 1];
      KeptIsFitting(before);
      if e.Got? { InitOfSnoc(Received(before), e.m); }
    }
  }

  /**
   * In every state the batches handed to `sendAsync`, in hand-off order, then the pending
   * messages, then what the loop holds and the queue, are the accepted messages in order of
   * acceptance, less those that do not encode or fit. Every batch is within the limits.
   */
  lemma OrderPreserved(c: Conf, b: Behavior, i: nat)
    requires IsRun(c, b) && i < |b.states|
    ensures var s := b.states[i];
            && Fitting(s.accepted)
               == Flatten(Batches(s.tasks) + OnItsWay(s.pc)) + s.mq.pending + Fitting(InHand(s.pc)) + Fitting(s.chan.buf)
            && AllFeasible(c.batch, Batches(s.tasks) + OnItsWay(s.pc))
            && ValidQueue(c.batch, s.mq)
  {
    hide Staged, CallsOk, ClosersOk, TasksOk, Linked, Locked, Counted, Logged;
    InvAlways(c, b, i);
    OrderIn(c, b.states[i]);
  }

  lemma OrderIn(c: Conf, s: State)
    requires Traced(c, s) && 1 <= c.batch.count
    ensures Fitting(s.accepted)
            == Flatten(Batches(s.tasks) + OnItsWay(s.pc)) + s.mq.pending + Fitting(InHand(s.pc)) + Fitting(s.chan.buf)
    ensures AllFeasible(c.batch, Batches(s.tasks) + OnItsWay(s.pc))
    ensures ValidQueue(c.batch, s.mq)
  {
    RunKeepsOrder(c.batch, s.trace);
    KeptIsFitting(s.trace);
    FittingConcat(Received(s.trace) + InHand(s.pc), s.chan.buf);
    FittingConcat(Received(s.trace), InHand(s.pc));
  }

  /**
   * Once the client has shut down, the batches it made are exactly the greedy segmentation of
   * what it received between the flushes, and it received every accepted message.
   */
  lemma BatchesAtShutdown(c: Conf, b: Behavior, i: nat)
    requires IsRun(c, b) && i < |b.states| && b.states[i].shutdown
    ensures var s := b.states[i];
            && Received(s.trace) == s.accepted
            && Batches(s.tasks) == GreedyEach(c.batch, Segments(s.trace))
  {
    hide CallsOk, ClosersOk, TasksOk, Linked, Locked, Counted, Logged;
    InvAlways(c, b, i);
    var s := b.states[i];
    assert Received(s.trace) + [] + [] == Received(s.trace);
    assert Batches(s.tasks) + [] == Batches(s.tasks);
    NothingPending(c.batch, s.trace);
  }

  lemma NothingPending(lim: Limits, trace: seq<Event>)
    requires 1 <= lim.count
    requires Run(lim, trace).queue.pending == []
    ensures Run(lim, trace).batches == GreedyEach(lim, Segments(trace))
  {
    var segs := Segments(trace);
    RunIsGreedyBetweenTicks(lim, trace);
    OnlineIsGreedy(lim, EMPTY, segs[|segs| - 1]);
    assert EMPTY.pending + segs[|segs| - 1] == segs[|segs| - 1];
  }

  // ----- Conservation -----

  function Whole(t: Task): multiset<Msg> {
    multiset(Originals(t.msgs))
  }

  /** The messages of a batch without a callback yet. */
  function Unresolved(t: Task): multiset<Msg> {
    if t.notified <= |t.msgs| then multiset(Originals(t.msgs)[t.notified..]) else multiset{}
  }

  /** On the way into the executor or in its buffer. */
  function Submitted(t: Task): multiset<Msg> {
    if t.pc.Offered? || t.pc.Queued? then Unresolved(t) else multiset{}
  }

  /** In the hands of a running task, or of the loop failing a refused batch. */
  function InFlight(t: Task): multiset<Msg> {
    if Busy(t.pc) || t.pc.Turned? then Unresolved(t) else multiset{}
  }

  /** Left behind by a task that panicked. */
  function Lost(t: Task): multiset<Msg> {
    if After(t.pc) then Unresolved(t) else multiset{}
  }

  lemma TaskSplits(t: Task)
    requires t.notified <= |t.msgs|
    ensures Whole(t) == Notified(t) + Unresolved(t)
    ensures t.notified == |t.msgs| ==> Unresolved(t) == multiset{}
  {
    SplitAt(Originals(t.msgs), t.notified);
  }

  lemma UnresolvedSplits(t: Task)
    ensures Unresolved(t) == Submitted(t) + Rest(t)
    ensures Rest(t) == InFlight(t) + Lost(t)
  {
    hide Unresolved;
  }

  lemma {:induction false} GatherWhole(tasks: seq<Task>)
    ensures Gather(tasks, Whole) == multiset(Originals(Flatten(Batches(tasks))))
  {
    if tasks != [] {
      var n := |tasks| - 1;
      GatherWhole(tasks[..n]);
      assert Batches(tasks)[..n] == Batches(tasks[..n]);
      OriginalsConcat(Flatten(Batches(tasks[..n])), tasks[n].msgs);
    }
  }

  /** Every accepted message is in exactly one place. */
  ghost predicate Conserved(s: State) {
    multiset(s.accepted)
    == multiset(s.chan.buf)
       + multiset(InHand(s.pc))
       + multiset(Originals(s.mq.pending))
       + multiset(Originals(Flatten(OnItsWay(s.pc))))
       + Gather(s.tasks, Submitted)
       + Gather(s.tasks, InFlight)
       + multiset(Subjects(s.log))
       + Gather(s.tasks, Lost)
  }

  lemma ConservedIn(c: Conf, s: State)
    requires Traced(c, s) && TasksOk(s) && Logged(s) && 1 <= c.batch.count
    ensures Conserved(s)
  {
    RunKeepsOrder(c.batch, s.trace);
    ReceivedSplits(s.trace);
    FlattenConcat(Batches(s.tasks), OnItsWay(s.pc));
    OriginalsConcat(Flatten(Batches(s.tasks) + OnItsWay(s.pc)), s.mq.pending);
    OriginalsConcat(Flatten(Batches(s.tasks)), Flatten(OnItsWay(s.pc)));
    GatherWhole(s.tasks);
    TasksSplit(s);
  }

  lemma TasksSplit(s: State)
    requires TasksOk(s)
    ensures Gather(s.tasks, Whole)
            == Gather(s.tasks, Notified) + (Gather(s.tasks, Submitted) + (Gather(s.tasks, InFlight) + Gather(s.tasks, Lost)))
  {
    forall i | 0 <= i < |s.tasks|
      ensures Whole(s.tasks[i]) == Notified(s.tasks[i]) + Unresolved(s.tasks[i])
      ensures Unresolved(s.tasks[i]) == Submitted(s.tasks[i]) + Rest(s.tasks[i])
      ensures Rest(s.tasks[i]) == InFlight(s.tasks[i]) + Lost(s.tasks[i])
    {
      assert TaskOk(s.tasks[i], s.quit);
      TaskSplits(s.tasks[i]);
      UnresolvedSplits(s.tasks[i]);
    }
    GatherSplit(s.tasks, Whole, Notified, Unresolved);
    GatherSplit(s.tasks, Unresolved, Submitted, Rest);
    GatherSplit(s.tasks, Rest, InFlight, Lost);
  }

  function Rest(t: Task): multiset<Msg> {
    InFlight(t) + Lost(t)
  }

  /** In every state of every run no accepted message is missing or in two places. */
  lemma Conservation(c: Conf, b: Behavior, i: nat)
    requires IsRun(c, b) && i < |b.states|
    ensures Conserved(b.states[i])
  {
    hide Staged, CallsOk, ClosersOk, Traced, TasksOk, Linked, Locked, Counted, Logged;
    InvAlways(c, b, i);
    ConservedIn(c, b.states[i]);
  }

  // ----- Exactly once -----

  /** How often the message has had a callback. */
  function Callbacks(s: State, m: Msg): nat {
    multiset(Subjects(s.log))[m]
  }

  lemma {:induction false} NoRepeats(msgs: seq<Msg>, m: Msg)
    requires forall i, j :: 0 <= i < j < |msgs| ==> msgs[i] != msgs[j]
    ensures multiset(msgs)[m] == if m in msgs then 1 else 0
  {
    if msgs != [] {
      var n := |msgs| - 1;
      assert msgs == msgs[..n] + [msgs[n]];
      NoRepeats(msgs[..n], m);
    }
  }

  /** No message ever has two callbacks, and none has one that was not accepted. */
  lemma AtMostOnce(c: Conf, b: Behavior, i: nat, m: Msg)
    requires IsRun(c, b) && i < |b.states|
    ensures Callbacks(b.states[i], m) <= if m in b.states[i].accepted then 1 else 0
  {
    hide Staged, ClosersOk, Traced, TasksOk, Linked, Locked, Counted, Logged;
    Conservation(c, b, i);
    InvAlways(c, b, i);
    NoRepeats(b.states[i].accepted, m);
  }

  /** Nothing is under way any more. */
  ghost predicate Drained(s: State) {
    && s.chan.buf == [] && s.mq.pending == [] && s.wg == 0
    && (forall i :: 0 <= i < |s.tasks| ==>
          var t := s.tasks[i];
          && (t.pc.Finishing? || t.pc.Decrementing? || t.pc.Releasing? || t.pc.Done? || t.pc.Turned?)
          && (t.panicked || t.notified == |t.msgs|))
  }

  lemma ShutdownDrains(c: Conf, s: State)
    requires Staged(c, s) && TasksOk(s) && Linked(s) && Counted(c, s) && s.shutdown
    ensures Drained(s)
  {
    forall i | 0 <= i < |s.tasks|
      ensures var t := s.tasks[i];
              && (t.pc.Finishing? || t.pc.Decrementing? || t.pc.Releasing? || t.pc.Done? || t.pc.Turned?)
              && (t.panicked || t.notified == |t.msgs|)
    {
      TotalAtLeast(s.tasks, i, Open);
      assert TaskOk(s.tasks[i], s.quit);
    }
  }

  /**
   * Once shut down, every accepted message has had exactly one callback, unless its task
   * panicked; then it has had at most one and is accounted for as lost.
   */
  lemma ExactlyOnce(c: Conf, b: Behavior, i: nat, m: Msg)
    requires IsRun(c, b) && i < |b.states| && b.states[i].shutdown && m in b.states[i].accepted
    ensures Callbacks(b.states[i], m) + Gather(b.states[i].tasks, Lost)[m] == 1
    ensures (forall j :: 0 <= j < |b.states[i].tasks| ==> !b.states[i].tasks[j].panicked)
            ==> Callbacks(b.states[i], m) == 1
  {
    hide Traced, ClosersOk, Logged, CallsOk, Conserved, Drained;
    InvAlways(c, b, i);
    Conservation(c, b, i);
    ShutdownDrains(c, b.states[i]);
    AcceptedOnce(b.states[i], m);
    NothingInFlight(c, b.states[i]);
    WhatIsLeft(c, b.states[i]);
  }

  lemma AcceptedOnce(s: State, m: Msg)
    requires CallsOk(s) && m in s.accepted
    ensures multiset(s.accepted)[m] == 1
  {
    NoRepeats(s.accepted, m);
  }

  lemma WhatIsLeft(c: Conf, s: State)
    requires Conserved(s) && Drained(s) && Staged(c, s) && s.shutdown
    requires Gather(s.tasks, Submitted) == multiset{} && Gather(s.tasks, InFlight) == multiset{}
    ensures multiset(s.accepted) == multiset(Subjects(s.log)) + Gather(s.tasks, Lost)
  {
    assert s.pc.Exited?;
    assert Flatten<Message>([]) == [] && Originals([]) == [];
  }

  lemma NothingInFlight(c: Conf, s: State)
    requires TasksOk(s) && Drained(s)
    ensures Gather(s.tasks, Submitted) == multiset{}
    ensures Gather(s.tasks, InFlight) == multiset{}
    ensures (forall j :: 0 <= j < |s.tasks| ==> !s.tasks[j].panicked) ==> Gather(s.tasks, Lost) == multiset{}
  {
    forall i | 0 <= i < |s.tasks|
      ensures Submitted(s.tasks[i]) == multiset{} && InFlight(s.tasks[i]) == multiset{}
      ensures !s.tasks[i].panicked ==> Lost(s.tasks[i]) == multiset{}
    {
      assert TaskOk(s.tasks[i], s.quit);
      TaskSplits(s.tasks[i]);
    }
    GatherEmpty(s.tasks, Submitted);
    GatherEmpty(s.tasks, InFlight);
    if forall j :: 0 <= j < |s.tasks| ==> !s.tasks[j].panicked { GatherEmpty(s.tasks, Lost); }
  }
}
