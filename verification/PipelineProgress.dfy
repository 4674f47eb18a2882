/** What the client can always still do: receive, flush, deliver, and finish everything it accepted. */
module PipelineProgress {
  import opened Messages
  import opened Batching
  import opened EventTrace
  import opened Retry
  import opened Pipeline
  import opened TaskSums
  import opened PipelineInvariant
  import opened PipelineLoopSteps
  import opened PipelineTheorems
  import opened PipelineSafety
  import opened PipelineLiveness
  import opened PipelineHistory
  import PipelineSteps
  import Channels

  // ----- Stretches of the client's own steps -----

  /** The client can go from `s` to `e` by itself, without a panic. */
  ghost predicate IsStretch(c: Conf, s: State, r: Behavior, e: State) {
    && Follows(c, r)
    && r.states != [] && r.states[0] == s && Last(r) == e
    && forall i :: 0 <= i < |r.steps| ==> Calm(r.steps[i])
  }

  lemma NoStep(c: Conf, s: State) returns (r: Behavior)
    ensures IsStretch(c, s, r, s)
  {
    r := StartOf(c, s);
  }

  lemma StepThen(c: Conf, s: State, k: Step, r: Behavior, e: State) returns (r': Behavior)
    requires Enabled(c, s, k) && Calm(k) && IsStretch(c, Stepped(c, s, k), r, e)
    ensures IsStretch(c, s, r', e)
  {
    hide Enabled, Stepped, Calm;
    r' := Behavior([s] + r.states, [k] + r.steps);
    assert Follows(c, r') by {
      forall i | 0 <= i < |r'.steps|
        ensures Enabled(c, r'.states[i], r'.steps[i]) && r'.states[i + 1] == Stepped(c, r'.states[i], r'.steps[i])
      {
        if i > 0 { assert r'.states[i] == r.states[i - 1] && r'.steps[i] == r.steps[i - 1]; }
      }
    }
  }

  // ----- An open client receives and flushes -----

  /** Whenever the loop is at its select, open or closing, the queue's first message can be received. */
  lemma CanReceive(c: Conf, b: Behavior, i: nat) returns (r: Behavior, e: State)
    requires IsRun(c, b) && i < |b.states| && b.states[i].pc.Select? && b.states[i].chan.buf != []
    ensures IsStretch(c, b.states[i], r, e)
    ensures e.trace == b.states[i].trace + [Got(b.states[i].chan.buf[0])]
    ensures e.chan.buf == b.states[i].chan.buf[1..] && e.quit == b.states[i].quit
  {
    hide Follows, StepEvent, DroppedOf, IsStretch;
    var s := b.states[i];
    var s1 := Stepped(c, s, ByLoop(TakeMessage));
    e := Stepped(c, s1, ByLoop(Proceed));
    r := NoStep(c, e);
    r := StepThen(c, s1, ByLoop(Proceed), r, e);
    r := StepThen(c, s, ByLoop(TakeMessage), r, e);
  }

  /** Whenever the loop is at its select and messages are pending, they can be made a task. */
  lemma CanFlush(c: Conf, b: Behavior, i: nat) returns (r: Behavior, e: State)
    requires IsRun(c, b) && i < |b.states| && b.states[i].pc.Select? && b.states[i].mq.pending != []
    ensures IsStretch(c, b.states[i], r, e)
    ensures e.mq.pending == [] && e.quit == b.states[i].quit
    ensures e.tasks == b.states[i].tasks + [NewTask(b.states[i].mq.pending)]
  {
    hide IsStretch;
    r, e := FlushFrom(c, b.states[i]);
  }

  lemma FlushFrom(c: Conf, s: State) returns (r: Behavior, e: State)
    requires s.pc.Select? && s.mq.pending != []
    ensures IsStretch(c, s, r, e)
    ensures e.mq.pending == [] && e.quit == s.quit && e.tasks == s.tasks + [NewTask(s.mq.pending)]
  {
    hide IsStretch;
    FlushSteps(c, s);
    var s1 := Stepped(c, s, ByLoop(TakeTick));
    e := Stepped(c, s1, ByLoop(Proceed));
    r := NoStep(c, e);
    r := StepThen(c, s1, ByLoop(Proceed), r, e);
    r := StepThen(c, s, ByLoop(TakeTick), r, e);
  }

  lemma FlushSteps(c: Conf, s: State)
    requires s.pc.Select? && s.mq.pending != []
    ensures Enabled(c, s, ByLoop(TakeTick))
    ensures var s1 := Stepped(c, s, ByLoop(TakeTick));
            && Enabled(c, s1, ByLoop(Proceed))
            && var e := Stepped(c, s1, ByLoop(Proceed));
            && s1 == Process(c, s, Tick, FromSelect) && s1.pc.Adding?
            && e == AddStepped(s1)
            && e.mq.pending == [] && e.quit == s.quit && e.tasks == s.tasks + [NewTask(s.mq.pending)]
  {
  }

  // ----- A valid message gets in while there is room -----

  /**
   * Whoever calls `Enqueue` with a valid message, at any moment before the queue's flag is stored
   * and with room in the queue, can have it accepted by three steps of the call.
   */
  lemma CanEnqueue(c: Conf, b: Behavior, i: nat, id: nat, msg: Msg) returns (r: Behavior)
    requires IsRun(c, b) && i < |b.states|
    requires id !in b.states[i].calls && msg.call == id
    requires !b.states[i].chan.flag && |b.states[i].chan.buf| < c.queueCap
    ensures Follows(c, r) && r.states != [] && r.states[0] == b.states[i]
    ensures r.steps == [ByProducer(id, StartEnqueue(msg, true)), ByProducer(id, CheckFlag), ByProducer(id, SendMessage)]
    ensures Last(r) == b.states[i].(calls := b.states[i].calls[id := CallReturned(msg, Accepted)],
                                    chan := Channels.Sent(b.states[i].chan, msg),
                                    accepted := b.states[i].accepted + [msg])
  {
    hide CallsOk, ClosersOk, Traced, Logged, TasksOk, Linked, Locked, Counted;
    InvAlways(c, b, i);
    r := EnqueueFrom(c, b.states[i], id, msg);
  }

  lemma EnqueueFrom(c: Conf, s: State, id: nat, msg: Msg) returns (r: Behavior)
    requires id !in s.calls && msg.call == id && !s.chan.flag && !s.chan.closed && |s.chan.buf| < c.queueCap
    ensures Follows(c, r) && r.states != [] && r.states[0] == s
    ensures r.steps == [ByProducer(id, StartEnqueue(msg, true)), ByProducer(id, CheckFlag), ByProducer(id, SendMessage)]
    ensures Last(r) == s.(calls := s.calls[id := CallReturned(msg, Accepted)],
                          chan := Channels.Sent(s.chan, msg), accepted := s.accepted + [msg])
  {
    var s1 := s.(calls := s.calls[id := CallChecking(msg)]);
    var s2 := s.(calls := s.calls[id := CallSending(msg)]);
    var s3 := s.(calls := s.calls[id := CallReturned(msg, Accepted)],
                 chan := Channels.Sent(s.chan, msg), accepted := s.accepted + [msg]);
    var k1, k2, k3 := ByProducer(id, StartEnqueue(msg, true)), ByProducer(id, CheckFlag), ByProducer(id, SendMessage);
    assert s1.calls[id := CallSending(msg)] == s2.calls;
    assert s2.calls[id := CallReturned(msg, Accepted)] == s3.calls;
    assert Enabled(c, s, k1) && s1 == Stepped(c, s, k1);
    assert Enabled(c, s1, k2) && s2 == Stepped(c, s1, k2);
    assert Enabled(c, s2, k3) && s3 == Stepped(c, s2, k3);
    r := Behavior([s, s1, s2, s3], [k1, k2, k3]);
  }

  /** Whoever calls `Enqueue` once the flag is stored gets `ErrClosed` in three steps, and changes nothing else. */
  lemma CanEnqueueLate(c: Conf, s: State, id: nat, msg: Msg) returns (r: Behavior)
    requires id !in s.calls && msg.call == id && s.chan.flag
    ensures Follows(c, r) && r.states != [] && r.states[0] == s
    ensures r.steps == [ByProducer(id, StartEnqueue(msg, true)), ByProducer(id, CheckFlag), ByProducer(id, AskClosed)]
    ensures Last(r) == s.(calls := s.calls[id := CallReturned(msg, ErrClosed)])
  {
    var s1 := s.(calls := s.calls[id := CallChecking(msg)]);
    var s2 := s.(calls := s.calls[id := CallFailed(msg)]);
    var s3 := s.(calls := s.calls[id := CallReturned(msg, ErrClosed)]);
    var k1, k2, k3 := ByProducer(id, StartEnqueue(msg, true)), ByProducer(id, CheckFlag), ByProducer(id, AskClosed);
    assert s1.calls[id := CallFailed(msg)] == s2.calls;
    assert s2.calls[id := CallReturned(msg, ErrClosed)] == s3.calls;
    assert Enabled(c, s, k1) && s1 == Stepped(c, s, k1);
    assert Enabled(c, s1, k2) && s2 == Stepped(c, s1, k2);
    assert Enabled(c, s2, k3) && s3 == Stepped(c, s2, k3);
    r := Behavior([s, s1, s2, s3], [k1, k2, k3]);
  }

  /** An invalid message is refused at any moment, by the call's first step. */
  lemma CanBeInvalid(c: Conf, s: State, id: nat, msg: Msg)
    requires id !in s.calls && msg.call == id
    ensures var k := ByProducer(id, StartEnqueue(msg, false));
            Enabled(c, s, k) && Stepped(c, s, k) == s.(calls := s.calls[id := CallInvalid(msg)])
  {
  }

  /** Whoever calls `Close`, at any moment, closes `quit` or gets `ErrClosed`, in two steps. */
  lemma CanClose(c: Conf, s: State, id: nat) returns (r: Behavior)
    requires id !in s.closers
    ensures Follows(c, r) && r.states != [] && r.states[0] == s
    ensures r.steps == [ByCloser(id, StartClose), ByCloser(id, CloseQuit)]
    ensures Last(r) == s.(closers := s.closers[id := if s.quit then ClosedErr else Awaiting], quit := true)
  {
    hide Follows;
    r := Extended(c, StartOf(c, s), ByCloser(id, StartClose));
    r := Extended(c, r, ByCloser(id, CloseQuit));
    assert s.closers[id := Closing][id := if s.quit then ClosedErr else Awaiting]
           == s.closers[id := if s.quit then ClosedErr else Awaiting];
  }

  // ----- Everything accepted can be finished -----

  /** Nothing is under way: the loop waits for input or has exited, and every task is at its end. */
  ghost predicate Resolved(s: State) {
    && (s.pc.Select? || s.pc.Exited?)
    && s.chan.buf == [] && s.mq.pending == []
    && AllDone(s.tasks)
  }

  ghost predicate AllDone(tasks: seq<Task>) {
    forall i :: 0 <= i < |tasks| ==> tasks[i].pc.Done? || tasks[i].pc.Turned?
  }

  /** No task panicked that had not before. */
  predicate NoNewPanic(s: State, s': State) {
    forall i :: 0 <= i < |s'.tasks| && s'.tasks[i].panicked ==> i < |s.tasks| && s.tasks[i].panicked
  }

  lemma CalmStep(c: Conf, s: State, k: Step, s': State)
    requires Linked(s) && Enabled(c, s, k) && s' == Stepped(c, s, k) && Calm(k)
    ensures NoNewPanic(s, s') && s'.accepted == s.accepted
  {
    hide Linked, LoopStepped, LoopEnabled;
    forall i: nat | i < |s'.tasks| && s'.tasks[i].panicked ensures i < |s.tasks| && s.tasks[i].panicked {
      if Own(k, i) {
        OwnStepTask(c, s, k, s', i);
      } else {
        OthersLeaveTask(c, s, k, s', i);
      }
    }
    if k.ByLoop? { LoopLeavesCalls(c, s, k.l); }
  }

  lemma CalmTakes(c: Conf, s: State, k: Step, s': State)
    requires Inv(c, s) && Enabled(c, s, k) && s' == Stepped(c, s, k) && Calm(k)
    ensures Inv(c, s') && NoNewPanic(s, s') && s'.accepted == s.accepted
  {
    hide Staged, CallsOk, ClosersOk, Traced, TasksOk, Linked, Locked, Counted, Logged, Enabled, Stepped, Calm;
    StepKeepsInv(c, s, k, s');
    CalmStep(c, s, k, s');
  }

  /** There is a calm step that is no tick, unless only pending messages are left to be flushed. */
  lemma CalmNext(c: Conf, s: State) returns (k: Step)
    requires Staged(c, s) && TasksOk(s) && Linked(s) && Locked(s) && Counted(c, s)
    requires !Resolved(s) && !(s.pc.Select? && s.chan.buf == [] && s.mq.pending != [])
    ensures Enabled(c, s, k) && Calm(k) && !IsTick(k)
  {
    hide TasksOk, Linked, Locked, Counted;
    if s.pc.Select? && s.chan.buf != [] {
      k := ByLoop(TakeMessage);
    } else if s.pc.Select? || s.pc.Exited? {
      var id :| 0 <= id < |s.tasks| && !s.tasks[id].pc.Done? && !s.tasks[id].pc.Turned?;
      k := UnfinishedCanMove(s, id);
    } else {
      k := LoopCanMove(c, s);
    }
  }

  /** The tick and the task it makes lower the measure together. */
  lemma FlushRank(c: Conf, s: State)
    requires s.pc.Select? && s.mq.pending != []
    ensures Rank(AddStepped(Process(c, s, Tick, FromSelect))) < Rank(s)
  {
    TotalSnoc(s.tasks, NewTask(s.mq.pending), TaskRank);
  }

  /** From any state the invariant allows, the client can finish by itself. */
  lemma {:induction false} FinishFrom(c: Conf, s: State) returns (r: Behavior, e: State)
    requires Inv(c, s)
    ensures IsStretch(c, s, r, e) && Inv(c, e) && Resolved(e) && e.accepted == s.accepted && NoNewPanic(s, e)
    decreases Rank(s)
  {
    hide Staged, CallsOk, ClosersOk, Traced, TasksOk, Linked, Locked, Counted, Logged, Rank, Enabled, Stepped, IsStretch, Resolved, Follows;
    if Resolved(s) {
      e := s;
      r := NoStep(c, s);
    } else if s.pc.Select? && s.chan.buf == [] && s.mq.pending != [] {
      var tick, add := ByLoop(TakeTick), ByLoop(Proceed);
      FlushSteps(c, s);
      FlushRank(c, s);
      var s1 := Stepped(c, s, tick);
      var s2 := Stepped(c, s1, add);
      CalmTakes(c, s, tick, s1);
      CalmTakes(c, s1, add, s2);
      r, e := FinishFrom(c, s2);
      r := StepThen(c, s1, add, r, e);
      r := StepThen(c, s, tick, r, e);
    } else {
      var k := CalmNext(c, s);
      var s1 := Stepped(c, s, k);
      CalmTakes(c, s, k, s1);
      StepRank(c, s, k, s1);
      r, e := FinishFrom(c, s1);
      r := StepThen(c, s, k, r, e);
    }
  }

  /** At rest every accepted message has been notified once, or was lost to a panic. */
  lemma RestIsResolved(c: Conf, e: State, m: Msg)
    requires Inv(c, e) && Resolved(e) && m in e.accepted
    ensures Callbacks(e, m) + Gather(e.tasks, Lost)[m] == 1
    ensures (forall j :: 0 <= j < |e.tasks| ==> !e.tasks[j].panicked) ==> Callbacks(e, m) == 1
  {
    hide Traced, ClosersOk, Logged, CallsOk, Conserved, Locked;
    RestIsDrained(c, e);
    ConservedIn(c, e);
    AcceptedOnce(e, m);
    NothingInFlight(c, e);
    WhatRests(e);
  }

  lemma RestIsDrained(c: Conf, e: State)
    requires TasksOk(e) && Linked(e) && Counted(c, e) && Resolved(e)
    ensures Drained(e)
  {
    if e.wg != 0 {
      var id := TotalWitness(e.tasks, Open);
      assert false;
    }
    forall i | 0 <= i < |e.tasks| ensures e.tasks[i].panicked || e.tasks[i].notified == |e.tasks[i].msgs| {
      assert TaskOk(e.tasks[i], e.quit);
    }
  }

  lemma WhatRests(e: State)
    requires Conserved(e) && Resolved(e)
    requires Gather(e.tasks, Submitted) == multiset{} && Gather(e.tasks, InFlight) == multiset{}
    ensures multiset(e.accepted) == multiset(Subjects(e.log)) + Gather(e.tasks, Lost)
  {
    assert Flatten<Message>([]) == [] && Originals([]) == [];
  }

  /**
   * Nothing accepted is ever stuck: from every reachable state, open or closing, the client can by
   * its own steps, none of them a panic, come to a state in which every message accepted so far has
   * had its one callback, but for those lost to tasks that had panicked before.
   */
  lemma EverythingCanResolve(c: Conf, b: Behavior, i: nat) returns (r: Behavior, e: State)
    requires IsRun(c, b) && i < |b.states|
    ensures IsStretch(c, b.states[i], r, e) && e.accepted == b.states[i].accepted
    ensures forall m :: m in b.states[i].accepted ==> Callbacks(e, m) + Gather(e.tasks, Lost)[m] == 1
    ensures (forall j :: 0 <= j < |b.states[i].tasks| ==> !b.states[i].tasks[j].panicked) ==>
              forall m :: m in b.states[i].accepted ==> Callbacks(e, m) == 1
  {
    hide Staged, CallsOk, ClosersOk, Traced, TasksOk, Linked, Locked, Counted, Logged, IsStretch, Resolved, Callbacks;
    InvAlways(c, b, i);
    r, e := FinishFrom(c, b.states[i]);
    forall m | m in b.states[i].accepted
      ensures Callbacks(e, m) + Gather(e.tasks, Lost)[m] == 1
      ensures (forall j :: 0 <= j < |e.tasks| ==> !e.tasks[j].panicked) ==> Callbacks(e, m) == 1
    {
      RestIsResolved(c, e, m);
    }
  }

  // ----- Every fate of a batch is possible -----

  /** Answers `send` can come to: refused but for a last delivery, ten of them, or cut short by the close. */
  predicate Fate(answers: seq<SendResult>, quit: bool) {
    && 1 <= |answers| <= 10
    && (forall i :: 0 <= i < |answers| - 1 ==> answers[i].Refused?)
    && (answers[|answers| - 1].Delivered? || |answers| == 10 || quit)
  }

  /** The task has left `send` in the ordinary way, with these answers. */
  predicate LeftWith(t: Task, answers: seq<SendResult>) {
    t.pc.Leaving? && !t.panicked && t.notified == |t.msgs| && Results(t.attempts) == answers
  }

  lemma WorkerThen(c: Conf, s: State, id: nat, w: WorkerStep, r: Behavior, e: State) returns (r': Behavior)
    requires WorkerEnabled(s, id, w) && !w.Panic? && IsStretch(c, WorkerStepped(s, id, w), r, e)
    ensures IsStretch(c, s, r', e)
  {
    hide IsStretch, WorkerEnabled, WorkerStepped;
    r' := StepThen(c, s, ByWorker(id, w), r, e);
  }

  lemma WorkerDoes(s: State, id: nat, w: WorkerStep)
    requires id < |s.tasks| && (if w.Lock? then false else PipelineSteps.TaskReady(s.tasks[id], w, s.quit))
    ensures WorkerEnabled(s, id, w)
    ensures var s' := WorkerStepped(s, id, w);
            |s'.tasks| == |s.tasks| && s'.tasks[id] == WorkerTask(s.tasks[id], w) && s'.quit == s.quit
  {
  }

  lemma {:induction false} NotifyAll(c: Conf, s: State, id: nat) returns (r: Behavior, e: State)
    requires id < |s.tasks| && s.tasks[id].pc.Notifying? && s.tasks[id].notified <= |s.tasks[id].msgs|
    ensures IsStretch(c, s, r, e) && |e.tasks| == |s.tasks|
    ensures e.tasks[id] == s.tasks[id].(pc := Leaving, notified := |s.tasks[id].msgs|)
    decreases |s.tasks[id].msgs| - s.tasks[id].notified
  {
    hide IsStretch, WorkerEnabled, WorkerStepped;
    if s.tasks[id].notified == |s.tasks[id].msgs| {
      WorkerDoes(s, id, EndSend);
      e := WorkerStepped(s, id, EndSend);
      r := NoStep(c, e);
      r := WorkerThen(c, s, id, EndSend, r, e);
    } else {
      WorkerDoes(s, id, NotifyNext);
      r, e := NotifyAll(c, WorkerStepped(s, id, NotifyNext), id);
      r := WorkerThen(c, s, id, NotifyNext, r, e);
    }
  }

  lemma {:induction false} CallOn(c: Conf, s: State, id: nat, answers: seq<SendResult>, k: nat) returns (r: Behavior, e: State)
    requires id < |s.tasks| && s.tasks[id].pc.Calling? && s.tasks[id].notified <= |s.tasks[id].msgs|
    requires !s.tasks[id].panicked && Fate(answers, s.quit)
    requires k < |answers| && Results(s.tasks[id].attempts) == answers[..k]
    ensures IsStretch(c, s, r, e) && |e.tasks| == |s.tasks| && LeftWith(e.tasks[id], answers)
    decreases |answers| - k
  {
    hide IsStretch, WorkerEnabled, WorkerStepped, NotesOf;
    var w := Answer(answers[k]);
    WorkerDoes(s, id, w);
    var s1 := WorkerStepped(s, id, w);
    ResultsSnoc(s.tasks[id].attempts, Attempt(s.tasks[id].payload, answers[k]));
    assert answers[..k + 1] == answers[..k] + [answers[k]];
    assert k == |answers| - 1 ==> answers[..k + 1] == answers;
    if answers[k].Delivered? {
      r, e := NotifyAll(c, s1, id);
    } else {
      var w1 := if |answers| < 10 && k == |answers| - 1 then SeeQuit else TimerFires;
      WorkerDoes(s1, id, w1);
      var s2 := WorkerStepped(s1, id, w1);
      if k == |answers| - 1 {
        r, e := NotifyAll(c, s2, id);
      } else {
        r, e := CallOn(c, s2, id, answers, k + 1);
      }
      r := WorkerThen(c, s1, id, w1, r, e);
    }
    r := WorkerThen(c, s, id, w, r, e);
  }

  /**
   * `send` is as free as the code: from every reachable state in which a task is about to marshal,
   * the task can get any sequence of answers that is refused but for a last delivery, stops at ten,
   * or is cut short when the client is closed; and its marshalling can fail. The other goroutines
   * need not take a step.
   */
  lemma EveryFateIsPossible(c: Conf, b: Behavior, i: nat, id: nat, sentAt: Bytes, ok: bool, answers: seq<SendResult>)
    returns (r: Behavior, e: State)
    requires IsRun(c, b) && i < |b.states| && id < |b.states[i].tasks| && b.states[i].tasks[id].pc.Marshalling?
    requires |sentAt| == SENT_AT_LENGTH
    requires if ok then Fate(answers, b.states[i].quit) else answers == []
    ensures IsStretch(c, b.states[i], r, e) && id < |e.tasks| && LeftWith(e.tasks[id], answers)
  {
    hide Inv, Init, Follows, IsStretch, WorkerEnabled, WorkerStepped;
    var s := b.states[i];
    LinkedAlways(c, b, i);
    assert TaskOk(s.tasks[id], s.quit);
    var w := Marshal(sentAt, ok);
    WorkerDoes(s, id, w);
    var s1 := WorkerStepped(s, id, w);
    assert Results([]) == [];
    if ok {
      assert answers[..0] == [];
      r, e := CallOn(c, s1, id, answers, 0);
    } else {
      r, e := NotifyAll(c, s1, id);
    }
    r := WorkerThen(c, s, id, w, r, e);
  }

  /**
   * At any point of `send` a panic can happen; the task then makes no more callbacks and leaves the
   * wait group, and goes on to `executor.done` like any other.
   */
  lemma PanicReleases(c: Conf, s: State, id: nat) returns (r: Behavior)
    requires id < |s.tasks| && Busy(s.tasks[id].pc)
    ensures Follows(c, r) && r.states != [] && r.states[0] == s
    ensures r.steps == [ByWorker(id, Panic), ByWorker(id, WgDone)]
    ensures var t := s.tasks[id].(pc := Finishing, panicked := true);
            Last(r) == s.(tasks := s.tasks[id := t], wg := s.wg - 1)
  {
    hide Follows;
    r := Extended(c, StartOf(c, s), ByWorker(id, Panic));
    r := Extended(c, r, ByWorker(id, WgDone));
    assert s.log + [] + [] == s.log;
    assert s.tasks[id := s.tasks[id].(pc := Leaving, panicked := true)][id := s.tasks[id].(pc := Finishing, panicked := true)]
           == s.tasks[id := s.tasks[id].(pc := Finishing, panicked := true)];
  }
}
