/** Every step of the event loop keeps the invariant. */
module PipelineLoopSteps {
  import opened Messages
  import opened Batching
  import opened EventTrace
  import opened Sequences
  import opened Pipeline
  import opened TaskSums
  import opened PipelineInvariant
  import opened PipelineSteps

  // ----- Taking a message -----

  lemma TakeKeepsInv(c: Conf, s: State, o: Origin)
    requires Inv(c, s) && s.chan.buf != []
    requires (s.pc.Select? && o.FromSelect?) || (s.pc.Draining? && o.FromDrain?)
    ensures Inv(c, Take(s, o))
  {
    SameCalls(s, Take(s, o));
    TakeKeepsTrace(c, s, o);
    TakeKeepsRest(c, s, o);
  }

  lemma TakeKeepsTrace(c: Conf, s: State, o: Origin)
    requires Traced(c, s) && s.chan.buf != [] && (s.pc.Select? || s.pc.Draining?)
    ensures Traced(c, Take(s, o))
  {
    HeadTail(s.chan.buf);
    Associative(Received(s.trace) + [], [s.chan.buf[0]], s.chan.buf[1..]);
    assert Received(s.trace) + [] == Received(s.trace);
  }

  lemma TakeKeepsRest(c: Conf, s: State, o: Origin)
    requires Staged(c, s) && TasksOk(s) && Linked(s) && Locked(s) && Counted(c, s) && Logged(s) && s.chan.buf != []
    requires (s.pc.Select? && o.FromSelect?) || (s.pc.Draining? && o.FromDrain?)
    ensures var s' := Take(s, o);
            Staged(c, s') && TasksOk(s') && Linked(s') && Locked(s') && Counted(c, s') && Logged(s')
  {
    SameBackend(c, s, Take(s, o));
    SameLog(s, Take(s, o));
  }

  // ----- Handling an event -----

  /** The places an event is handled from, and where handling it leads back to. */
  predicate Processes(pc: Pc, e: Event, o: Origin) {
    || (pc.Select? && e.Tick? && o.FromSelect?)
    || (pc.LastFlush? && e.Tick? && o.FromFinal?)
    || (e.Got? && pc == Handling(e.m, o))
  }

  lemma ProcessKeepsInv(c: Conf, s: State, e: Event, o: Origin)
    requires Inv(c, s) && Processes(s.pc, e, o)
    ensures Inv(c, Process(c, s, e, o))
  {
    SameCalls(s, Process(c, s, e, o));
    ProcessKeepsTrace(c, s, e, o);
    EventKeepsLog(s.log, s.trace, s.tasks, e);
    ProcessKeepsStage(c, s, e, o);
    ProcessKeepsRest(c, s, e, o);
  }

  lemma ProcessKeepsTrace(c: Conf, s: State, e: Event, o: Origin)
    requires Traced(c, s)
    requires if e.Got? then s.pc.Handling? && s.pc.m == e.m else !s.pc.Handling? && !s.pc.Adding?
    ensures Traced(c, Process(c, s, e, o))
  {
    var s' := Process(c, s, e, o);
    TraceSnoc(s.trace, e);
    assert Received(s'.trace) + [] == Received(s.trace) + InHand(s.pc);
    RunSnoc(c.batch, s.trace, e);
    StepHandsOut(c.batch, s.mq, e);
    assert Batches(s.tasks) + [] == Batches(s.tasks);
    assert OnItsWay(s'.pc) == StepEvent(c.batch, s.mq, e).batches;
  }

  /** An event hands out at most one batch. */
  lemma StepHandsOut(lim: Limits, q: Queue, e: Event)
    ensures var b := StepEvent(lim, q, e).batches; b == [] || b == [b[0]]
  {
  }

  lemma EventKeepsLog(log: seq<Note>, trace: seq<Event>, tasks: seq<Task>, e: Event)
    requires LogOk(log, trace, tasks)
    ensures LogOk(log + DroppedOf(e), trace + [e], tasks)
  {
    TraceSnoc(trace, e);
    SubjectsConcat(log, DroppedOf(e));
    SubjectsConcat(Dropped(trace), DroppedOf(e));
  }

  lemma ProcessKeepsStage(c: Conf, s: State, e: Event, o: Origin)
    requires Staged(c, s) && Processes(s.pc, e, o)
    ensures Staged(c, Process(c, s, e, o))
  {
    if e.Tick? { assert StepEvent(c.batch, s.mq, e).queue == EMPTY; }
  }

  lemma ProcessKeepsRest(c: Conf, s: State, e: Event, o: Origin)
    requires TasksOk(s) && Linked(s) && Locked(s) && Counted(c, s) && Processes(s.pc, e, o)
    ensures var s' := Process(c, s, e, o); TasksOk(s') && Linked(s') && Locked(s') && Counted(c, s')
  {
    SameBackend(c, s, Process(c, s, e, o));
  }

  // ----- Adding a task -----

  lemma AddKeepsInv(c: Conf, s: State)
    requires Inv(c, s) && s.pc.Adding?
    ensures Inv(c, AddStepped(s))
  {
    SameCalls(s, AddStepped(s));
    BatchesSnoc(s.tasks, s.pc.batch);
    BatchIsNotEmpty(c, s);
    AddKeepsLog(s.log, s.trace, s.tasks, s.pc.batch);
    AddKeepsLinks(s.ex.queue, s.tasks, s.pc, s.pc.batch, s.pc.origin);
    AddKeepsCounts(c, s);
    AddKeepsRest(c, s);
  }

  lemma BatchesSnoc(tasks: seq<Task>, b: seq<Message>)
    ensures Batches(tasks + [NewTask(b)]) + [] == Batches(tasks) + [b]
  {
  }

  lemma BatchIsNotEmpty(c: Conf, s: State)
    requires Traced(c, s) && s.pc.Adding? && 1 <= c.batch.count
    ensures Feasible(c.batch, s.pc.batch)
  {
    RunKeepsOrder(c.batch, s.trace);
    var all := Batches(s.tasks) + OnItsWay(s.pc);
    assert all[|s.tasks|] == s.pc.batch;
  }

  lemma AddKeepsLog(log: seq<Note>, trace: seq<Event>, tasks: seq<Task>, b: seq<Message>)
    requires LogOk(log, trace, tasks)
    ensures LogOk(log, trace, tasks + [NewTask(b)])
  {
    GatherSnoc(tasks, NewTask(b), NotesOf);
    GatherSnoc(tasks, NewTask(b), Notified);
    assert Originals(b)[..0] == [];
  }

  lemma AddKeepsLinks(queue: seq<nat>, tasks: seq<Task>, pc: Pc, b: seq<Message>, o: Origin)
    requires LinkOk(queue, tasks, pc) && pc == Adding(b, o)
    ensures LinkOk(queue, tasks + [NewTask(b)], Locking(|tasks|, o))
  {
  }

  lemma AddKeepsCounts(c: Conf, s: State)
    requires Counted(c, s) && s.pc.Adding?
    ensures Counted(c, AddStepped(s))
  {
    TotalSnoc(s.tasks, NewTask(s.pc.batch), Admitted);
    TotalSnoc(s.tasks, NewTask(s.pc.batch), Open);
  }

  lemma AddKeepsRest(c: Conf, s: State)
    requires Staged(c, s) && TasksOk(s) && Locked(s) && s.pc.Adding? && s.pc.batch != []
    ensures var s' := AddStepped(s); Staged(c, s') && TasksOk(s') && Locked(s')
  {
    assert TaskOk(NewTask(s.pc.batch), s.quit) && PayloadOk(NewTask(s.pc.batch));
  }

  // ----- executor.do -----

  predicate Admits(pc: Pc) {
    pc.Locking? || pc.Submitting? || pc.Counting? || pc.Unlocking?
  }

  lemma AdmitKeepsInv(c: Conf, s: State, k: LoopStep)
    requires Inv(c, s) && LoopEnabled(c, s, k) && Admits(s.pc)
    ensures Inv(c, AdmitStepped(c, s))
  {
    SameCalls(s, AdmitStepped(c, s));
    AdmitKeepsTrace(c, s, k);
    if s.pc.Submitting? {
      SubmitKeepsBackend(c, s);
      SubmitKeepsRest(c, s);
    } else {
      AdmitKeepsLocks(c, s, k);
      AdmitKeepsRest(c, s, k);
    }
  }

  lemma SubmitKeepsBackend(c: Conf, s: State)
    requires s.pc.Submitting? && s.pc.id < |s.tasks| && s.ex.queue == [] && !s.ex.closed
    requires Linked(s) && Counted(c, s) && Logged(s)
    ensures var s' := AdmitStepped(c, s); Linked(s') && Counted(c, s') && Logged(s')
  {
    var t := s.tasks[s.pc.id].(pc := Queued);
    assert s.tasks[s.pc.id].pc.Offered?;
    Replace(s.tasks, s.pc.id, t);
    QuietKeepsLog(s.log, s.trace, s.tasks, s.pc.id, t);
    SubmitKeepsLinks(s.ex.queue, s.tasks, s.pc, t);
  }

  lemma SubmitKeepsLinks(queue: seq<nat>, tasks: seq<Task>, pc: Pc, t: Task)
    requires LinkOk(queue, tasks, pc) && pc.Submitting? && pc.id < |tasks| && queue == [] && t.pc.Queued?
    ensures LinkOk(queue + [pc.id], tasks[pc.id := t], Counting(pc.id, pc.origin))
  {
    assert [] + [pc.id] == [pc.id];
  }

  lemma SubmitKeepsRest(c: Conf, s: State)
    requires s.pc.Submitting? && s.pc.id < |s.tasks|
    requires Staged(c, s) && TasksOk(s) && Locked(s) && Linked(s)
    ensures var s' := AdmitStepped(c, s); Staged(c, s') && TasksOk(s') && Locked(s')
  {
    assert s.tasks[s.pc.id].pc.Offered? && TaskOk(s.tasks[s.pc.id], s.quit);
  }

  lemma AdmitKeepsTrace(c: Conf, s: State, k: LoopStep)
    requires Traced(c, s) && LoopEnabled(c, s, k) && Admits(s.pc)
    ensures Traced(c, AdmitStepped(c, s))
  {
    var s' := AdmitStepped(c, s);
    assert Batches(s'.tasks) == Batches(s.tasks);
    SameTrace(c, s, s');
  }

  lemma AdmitKeepsRest(c: Conf, s: State, k: LoopStep)
    requires LoopEnabled(c, s, k) && Admits(s.pc) && !s.pc.Submitting?
    requires Staged(c, s) && TasksOk(s) && Counted(c, s) && Logged(s)
    ensures var s' := AdmitStepped(c, s); Staged(c, s') && TasksOk(s') && Counted(c, s') && Logged(s')
  {
    SameTasks(s, AdmitStepped(c, s));
    SameLog(s, AdmitStepped(c, s));
    AdmitKeepsCounts(c, s);
    AdmitKeepsStage(c, s);
  }

  lemma AdmitKeepsCounts(c: Conf, s: State)
    requires Counted(c, s) && Admits(s.pc) && !s.pc.Submitting?
    ensures Counted(c, AdmitStepped(c, s))
  {
  }

  lemma AdmitKeepsStage(c: Conf, s: State)
    requires Staged(c, s) && Admits(s.pc) && !s.pc.Submitting?
    ensures Staged(c, AdmitStepped(c, s))
  {
  }

  lemma AdmitKeepsLocks(c: Conf, s: State, k: LoopStep)
    requires LoopEnabled(c, s, k) && Admits(s.pc) && !s.pc.Submitting?
    requires Linked(s) && Locked(s)
    ensures var s' := AdmitStepped(c, s); Linked(s') && Locked(s')
  {
    SameLinks(s, AdmitStepped(c, s));
  }

  lemma Replace(tasks: seq<Task>, id: nat, t: Task)
    requires id < |tasks|
    ensures Total(tasks[id := t], Admitted) == Total(tasks, Admitted) - Admitted(tasks[id]) + Admitted(t)
    ensures Total(tasks[id := t], Open) == Total(tasks, Open) - Open(tasks[id]) + Open(t)
  {
    TotalUpdate(tasks, id, t, Admitted);
    TotalUpdate(tasks, id, t, Open);
  }

  // ----- A refused batch -----

  lemma RefuseKeepsInv(c: Conf, s: State)
    requires Inv(c, s) && (s.pc.Undoing? || s.pc.Refusing?) && s.pc.id < |s.tasks|
    ensures Inv(c, RefuseStepped(s))
  {
    RefuseKeepsFront(c, s);
    if s.pc.Undoing? { UndoKeepsBackend(c, s); } else { RefuseKeepsBackend(c, s); }
  }

  lemma RefuseKeepsFront(c: Conf, s: State)
    requires Staged(c, s) && CallsOk(s) && ClosersOk(s) && Traced(c, s)
    requires (s.pc.Undoing? || s.pc.Refusing?) && s.pc.id < |s.tasks|
    ensures var s' := RefuseStepped(s); Staged(c, s') && CallsOk(s') && ClosersOk(s') && Traced(c, s')
  {
    RefuseKeepsStage(c, s);
    SameCalls(s, RefuseStepped(s));
    assert Batches(RefuseStepped(s).tasks) == Batches(s.tasks);
    SameTrace(c, s, RefuseStepped(s));
  }

  lemma UndoKeepsBackend(c: Conf, s: State)
    requires TasksOk(s) && Linked(s) && Locked(s) && Counted(c, s) && Logged(s) && s.pc.Undoing? && s.pc.id < |s.tasks|
    ensures var s' := RefuseStepped(s); TasksOk(s') && Linked(s') && Locked(s') && Counted(c, s') && Logged(s')
  {
    hide Counted, Gather, Total, Run;
    var t := s.tasks[s.pc.id];
    assert t.pc.Offered? && TaskOk(t, s.quit);
    UndoKeepsLinks(s.ex.queue, s.tasks, s.pc, t.(pc := Turned, verdict := Some(Failure(TooManyRequests))));
    UndoKeepsLog(s.log, s.trace, s.tasks, s.pc.id, s.quit);
    UndoKeepsRest(c, s, RefuseStepped(s), t.(pc := Turned, verdict := Some(Failure(TooManyRequests))));
  }

  lemma UndoKeepsRest(c: Conf, s: State, s': State, t: Task)
    requires TasksOk(s) && Locked(s) && Counted(c, s) && s.pc.Undoing? && s.pc.id < |s.tasks| && s.tasks[s.pc.id].pc.Offered?
    requires t == s.tasks[s.pc.id].(pc := Turned, verdict := Some(Failure(TooManyRequests)))
    requires s' == s.(tasks := s.tasks[s.pc.id := t], wg := s.wg - 1, pc := Refusing(s.pc.id, s.pc.origin))
    ensures TasksOk(s') && Locked(s') && Counted(c, s')
  {
    assert TaskOk(s.tasks[s.pc.id], s.quit);
    Replace(s.tasks, s.pc.id, t);
  }

  lemma RefuseKeepsBackend(c: Conf, s: State)
    requires TasksOk(s) && Linked(s) && Locked(s) && Counted(c, s) && Logged(s) && s.pc.Refusing? && s.pc.id < |s.tasks|
    ensures var s' := RefuseStepped(s); TasksOk(s') && Linked(s') && Locked(s') && Counted(c, s') && Logged(s')
  {
    hide Counted, Locked, LogOk, Gather, Total;
    var t := s.tasks[s.pc.id];
    assert t.pc.Turned? && TaskOk(t, s.quit);
    RefuseKeepsLinks(s.ex.queue, s.tasks, s.pc);
    if t.notified < |t.msgs| {
      LoudKeepsLog(s.log, s.trace, s.tasks, s.pc.id, t.(notified := t.notified + 1), Failure(TooManyRequests));
      RefuseKeepsRest(c, s, RefuseStepped(s));
    } else {
      ReturnKeepsRest(c, s, RefuseStepped(s));
    }
  }

  lemma ReturnKeepsRest(c: Conf, s: State, s': State)
    requires TasksOk(s) && Locked(s) && Counted(c, s) && Logged(s) && s.pc.Refusing?
    requires s' == s.(pc := Return(s.pc.origin))
    ensures TasksOk(s') && Locked(s') && Counted(c, s') && Logged(s')
  {
    SameTasks(s, s');
    SameLock(s, s');
    SameCounts(c, s, s');
  }

  lemma RefuseKeepsRest(c: Conf, s: State, s': State)
    requires TasksOk(s) && Locked(s) && Counted(c, s) && s.pc.Refusing? && s.pc.id < |s.tasks| && s.tasks[s.pc.id].pc.Turned?
    requires s.tasks[s.pc.id].notified < |s.tasks[s.pc.id].msgs|
    requires s' == s.(tasks := s.tasks[s.pc.id := s.tasks[s.pc.id].(notified := s.tasks[s.pc.id].notified + 1)], log := s'.log)
    ensures TasksOk(s') && Locked(s') && Counted(c, s')
  {
    assert TaskOk(s.tasks[s.pc.id], s.quit);
    Replace(s.tasks, s.pc.id, s'.tasks[s.pc.id]);
  }

  lemma RefuseKeepsStage(c: Conf, s: State)
    requires Staged(c, s) && (s.pc.Undoing? || s.pc.Refusing?) && s.pc.id < |s.tasks|
    ensures Staged(c, RefuseStepped(s))
  {
  }

  lemma UndoKeepsLinks(queue: seq<nat>, tasks: seq<Task>, pc: Pc, t: Task)
    requires LinkOk(queue, tasks, pc) && pc.Undoing? && pc.id < |tasks| && t.pc.Turned?
    ensures LinkOk(queue, tasks[pc.id := t], Refusing(pc.id, pc.origin))
  {
  }

  lemma UndoKeepsLog(log: seq<Note>, trace: seq<Event>, tasks: seq<Task>, id: nat, quit: bool)
    requires LogOk(log, trace, tasks)
    requires id < |tasks| && tasks[id].pc.Offered? && TaskOk(tasks[id], quit)
    ensures LogOk(log, trace, tasks[id := tasks[id].(pc := Turned, verdict := Some(Failure(TooManyRequests)))])
  {
    var t := tasks[id].(pc := Turned, verdict := Some(Failure(TooManyRequests)));
    assert NotesFor(t.msgs, t.verdict.value)[..0] == [];
    QuietKeepsLog(log, trace, tasks, id, t);
  }

  lemma RefuseKeepsLinks(queue: seq<nat>, tasks: seq<Task>, pc: Pc)
    requires LinkOk(queue, tasks, pc) && pc.Refusing? && pc.id < |tasks|
    ensures LinkOk(queue, tasks[pc.id := tasks[pc.id].(notified := tasks[pc.id].notified + 1)], pc)
    ensures tasks[pc.id].notified >= |tasks[pc.id].msgs| ==> LinkOk(queue, tasks, Return(pc.origin))
  {
  }

  // ----- Shutting down -----

  /** No message, batch or task is in the loop's hands. */
  predicate Idle(pc: Pc) {
    pc.Select? || pc.Draining? || pc.LastFlush? || pc.Exited? || Shutting(pc)
  }

  /** Only the flags of the queue, the executor and the client change, and only from unset to set. */
  predicate OnlyFlags(s: State, s': State) {
    && s' == s.(chan := s'.chan, ex := s'.ex, shutdown := s'.shutdown, pc := s'.pc)
    && s'.chan.buf == s.chan.buf && (s.chan.flag ==> s'.chan.flag)
    && s'.ex == s.ex.(closed := s'.ex.closed) && (s.ex.closed ==> s'.ex.closed)
    && (s.shutdown ==> s'.shutdown)
    && Idle(s.pc) && Idle(s'.pc)
  }

  lemma FlagsKeepInv(c: Conf, s: State, s': State)
    requires Inv(c, s) && OnlyFlags(s, s') && Staged(c, s')
    ensures Inv(c, s')
  {
    hide CallsOk, ClosersOk, Traced, TasksOk, Linked, Locked, Counted, Logged;
    SameCalls(s, s');
    SameTrace(c, s, s');
    SameBackend(c, s, s');
    SameLog(s, s');
  }

  lemma ShutKeepsInv(c: Conf, s: State)
    requires Inv(c, s) && Shutting(s.pc) && (s.pc.WgWaiting? ==> s.wg == 0)
    ensures Inv(c, ShutStepped(s))
  {
    hide Staged, CallsOk, ClosersOk, Traced, TasksOk, Linked, Locked, Counted, Logged;
    ShutSetsFlags(c, s);
    FlagsKeepInv(c, s, ShutStepped(s));
  }

  lemma ShutSetsFlags(c: Conf, s: State)
    requires Staged(c, s) && Shutting(s.pc) && (s.pc.WgWaiting? ==> s.wg == 0)
    ensures OnlyFlags(s, ShutStepped(s)) && Staged(c, ShutStepped(s))
  {
    hide Staged;
    ShutKeepsStage(c, s);
  }

  lemma ShutKeepsStage(c: Conf, s: State)
    requires Staged(c, s) && Shutting(s.pc) && (s.pc.WgWaiting? ==> s.wg == 0)
    ensures Staged(c, ShutStepped(s))
  {
  }

  /** Leaving the select for the shutdown, or the drain for the last flush. */
  lemma JumpKeepsInv(c: Conf, s: State, pc: Pc)
    requires Inv(c, s)
    requires (s.pc.Select? && s.quit && pc.StoringFlag?) || (s.pc.Draining? && s.chan.buf == [] && pc.LastFlush?)
    ensures Inv(c, s.(pc := pc))
  {
    hide CallsOk, ClosersOk, Traced, TasksOk, Linked, Locked, Counted, Logged;
    FlagsKeepInv(c, s, s.(pc := pc));
  }

  // ----- Every step, every run -----

  lemma LoopKeepsInv(c: Conf, s: State, k: LoopStep)
    requires Inv(c, s) && LoopEnabled(c, s, k)
    ensures Inv(c, LoopStepped(c, s, k))
  {
    hide Staged, CallsOk, ClosersOk, Traced, TasksOk, Linked, Locked, Counted, Logged;
    match s.pc
    case Select =>
      if k.TakeMessage? { TakeKeepsInv(c, s, FromSelect); }
      else if k.TakeTick? { ProcessKeepsInv(c, s, Tick, FromSelect); }
      else { JumpKeepsInv(c, s, StoringFlag); }
    case Handling(m, o) => ProcessKeepsInv(c, s, Got(m), o);
    case Adding(b, o) => AddKeepsInv(c, s);
    case Locking(id, o) => AdmitKeepsInv(c, s, k);
    case Submitting(id, o) => AdmitKeepsInv(c, s, k);
    case Counting(id, o) => AdmitKeepsInv(c, s, k);
    case Unlocking(id, o, ok) => AdmitKeepsInv(c, s, k);
    case Undoing(id, o) => RefuseKeepsInv(c, s);
    case Refusing(id, o) => RefuseKeepsInv(c, s);
    case Draining =>
      if s.chan.buf != [] { TakeKeepsInv(c, s, FromDrain); } else { JumpKeepsInv(c, s, LastFlush); }
    case LastFlush => ProcessKeepsInv(c, s, Tick, FromFinal);
    case _ => ShutKeepsInv(c, s);
  }

  lemma StepKeepsInv(c: Conf, s: State, k: Step, s': State)
    requires Inv(c, s) && Enabled(c, s, k) && s' == Stepped(c, s, k)
    ensures Inv(c, s')
  {
    hide Staged, CallsOk, ClosersOk, Traced, TasksOk, Linked, Locked, Counted, Logged;
    match k
    case ByProducer(id, p) => ProducerKeepsInv(c, s, id, p);
    case ByCloser(id, q) => CloserKeepsInv(c, s, id, q);
    case ByLoop(l) => LoopKeepsInv(c, s, l);
    case ByRunner(r) => RunnerKeepsInv(c, s, r);
    case ByWorker(id, w) => WorkerKeepsInv(c, s, id, w);
  }

  /** The invariant holds of every state of every run. */
  lemma {:induction false} InvAlways(c: Conf, b: Behavior, i: nat)
    requires IsRun(c, b) && i < |b.states|
    ensures Inv(c, b.states[i])
  {
    hide Init, Staged, CallsOk, ClosersOk, Traced, TasksOk, Linked, Locked, Counted, Logged;
    if i == 0 {
      InitHolds(c, b.states[0]);
    } else {
      InvAlways(c, b, i - 1);
      StepKeepsInv(c, b.states[i - 1], b.steps[i - 1], b.states[i]);
    }
  }
}
