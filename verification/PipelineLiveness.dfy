/** The client never gets stuck, and once told to quit it stops after finitely many steps. */
module PipelineLiveness {
  import opened Messages
  import opened Batching
  import opened EventTrace
  import opened Retry
  import opened Pipeline
  import opened TaskSums
  import opened PipelineInvariant
  import PipelineSteps
  import opened PipelineLoopSteps
  import opened PipelineSafety

  /** The loop, the executor's loop and every task have come to their end. */
  ghost predicate Settled(s: State) {
    && s.pc.Exited?
    && s.ex.exited
    && forall i :: 0 <= i < |s.tasks| ==> s.tasks[i].pc.Done? || s.tasks[i].pc.Turned?
  }

  // ----- Some step is always possible -----

  /** A step of the client's own in which nothing panics. */
  predicate Calm(k: Step) {
    Internal(k) && !(k.ByWorker? && k.w.Panic?)
  }

  /** A running task that is not waiting for the mutex can move. */
  lemma TaskCanMove(s: State, id: nat) returns (k: Step)
    requires TasksOk(s) && id < |s.tasks|
    requires Busy(s.tasks[id].pc) || s.tasks[id].pc.Leaving? || s.tasks[id].pc.Decrementing? || s.tasks[id].pc.Releasing?
    ensures k.ByWorker? && WorkerEnabled(s, k.task, k.w) && !k.w.Panic?
  {
    var t := s.tasks[id];
    assert TaskOk(t, s.quit);
    var w :=
      match t.pc
      case Marshalling => Marshal(seq(SENT_AT_LENGTH, _ => '0'), true)
      case Calling => Answer(Delivered)
      case Waiting => TimerFires
      case Notifying => if t.notified < |t.msgs| then NotifyNext else EndSend
      case Leaving => WgDone
      case Decrementing => Decrement
      case _ => Unlock;
    k := ByWorker(id, w);
  }

  /** Whoever waits for the mutex outside the loop's critical section: it is free or its holder can move. */
  lemma HolderCanMove(s: State) returns (k: Step)
    requires TasksOk(s) && Locked(s) && !LoopLocked(s.pc) && !s.ex.holder.Free?
    ensures k.ByWorker? && WorkerEnabled(s, k.task, k.w) && !k.w.Panic?
  {
    k := TaskCanMove(s, s.ex.holder.id);
  }

  /** An unfinished task lets something move: itself, the executor's loop, or the mutex's holder. */
  lemma UnfinishedCanMove(s: State, id: nat) returns (k: Step)
    requires TasksOk(s) && Linked(s) && Locked(s) && id < |s.tasks|
    requires OfferedId(s.pc).None? && !LoopLocked(s.pc)
    requires !s.tasks[id].pc.Done? && !s.tasks[id].pc.Turned?
    ensures (k.ByRunner? && RunnerEnabled(s, k.r)) || (k.ByWorker? && WorkerEnabled(s, k.task, k.w) && !k.w.Panic?)
  {
    var t := s.tasks[id];
    if t.pc.Queued? {
      assert s.ex.queue == [id];
      k := ByRunner(Spawn);
    } else if t.pc.Finishing? {
      if s.ex.holder.Free? { k := ByWorker(id, Lock); } else { k := HolderCanMove(s); }
    } else {
      k := TaskCanMove(s, id);
    }
  }

  /** While the wait group is not zero there is a task that lets something move. */
  lemma WaitedForCanMove(c: Conf, s: State) returns (k: Step)
    requires TasksOk(s) && Linked(s) && Locked(s) && Counted(c, s) && s.pc.WgWaiting? && s.wg != 0
    ensures Calm(k) && Enabled(c, s, k)
  {
    hide TasksOk, Linked, Locked;
    var id := TotalWitness(s.tasks, Open);
    k := UnfinishedCanMove(s, id);
  }

  lemma LoopCanMove(c: Conf, s: State) returns (k: Step)
    requires Staged(c, s) && TasksOk(s) && Linked(s) && Locked(s) && Counted(c, s) && !s.pc.Exited?
    requires s.pc.Select? ==> s.quit
    ensures Calm(k) && Enabled(c, s, k)
    ensures s.pc.Select? ==> k == ByLoop(TakeQuit)
  {
    hide TasksOk, Locked, Counted;
    match s.pc
    case Select => k := ByLoop(TakeQuit);
    case Locking(id, o) =>
      if s.ex.holder.Free? { k := ByLoop(Proceed); } else { k := HolderCanMove(s); }
    case Submitting(id, o) =>
      if s.ex.queue == [] { k := ByLoop(Proceed); } else { k := ByRunner(Spawn); }
    case WgWaiting =>
      if s.wg == 0 { k := ByLoop(Proceed); } else { k := WaitedForCanMove(c, s); }
    case _ => k := ByLoop(Proceed);
  }

  lemma BackendCanMove(c: Conf, s: State) returns (k: Step)
    requires Staged(c, s) && TasksOk(s) && Linked(s) && Locked(s) && s.pc.Exited? && !Settled(s)
    ensures Internal(k) && Enabled(c, s, k)
  {
    if !s.ex.exited {
      k := ByRunner(if s.ex.queue == [] then EndLoop else Spawn);
    } else {
      var id :| 0 <= id < |s.tasks| && !s.tasks[id].pc.Done? && !s.tasks[id].pc.Turned?;
      k := UnfinishedCanMove(s, id);
    }
  }

  /**
   * Deadlock freedom: in every reachable state of a client that is not just waiting for input and
   * has not finished, the client has a step to take. Blocking in `do` with the mutex held, in
   * `done` and in `wg.Wait` is never for ever.
   */
  lemma NoDeadlock(c: Conf, b: Behavior, i: nat) returns (k: Step)
    requires IsRun(c, b) && i < |b.states|
    requires !Settled(b.states[i])
    requires b.states[i].pc.Select? ==> b.states[i].quit
    ensures Internal(k) && Enabled(c, b.states[i], k)
    ensures b.states[i].pc.Select? ==> k == ByLoop(TakeQuit)
  {
    hide CallsOk, ClosersOk, Traced, Logged, Staged, TasksOk, Linked, Locked, Counted;
    InvAlways(c, b, i);
    if b.states[i].pc.Exited? { k := BackendCanMove(c, b.states[i]); } else { k := LoopCanMove(c, b.states[i]); }
  }

  /** A settled client has shut down, and any `Close` still waiting can return. */
  lemma SettledCanReturn(c: Conf, b: Behavior, i: nat, closer: nat)
    requires IsRun(c, b) && i < |b.states| && Settled(b.states[i])
    ensures b.states[i].shutdown
    ensures closer in b.states[i].closers && b.states[i].closers[closer].Awaiting?
            ==> CloserEnabled(b.states[i], closer, SeeShutdown)
  {
    hide CallsOk, ClosersOk, Traced, Logged, TasksOk, Linked, Locked, Counted;
    InvAlways(c, b, i);
  }

  // ----- The measure -----

  function Remaining(t: Task): nat {
    if t.notified <= |t.msgs| then |t.msgs| - t.notified else 0
  }

  function AttemptsLeft(t: Task): nat {
    if |t.attempts| <= ATTEMPTS then ATTEMPTS - |t.attempts| else 0
  }

  /** An upper bound on the steps a task has left. */
  function TaskRank(t: Task): nat {
    match t.pc
    case Offered => 40 + |t.msgs|
    case Queued => 39 + |t.msgs|
    case Marshalling => 38 + |t.msgs|
    case Waiting => 11 + |t.msgs| + 2 * AttemptsLeft(t)
    case Calling => 10 + |t.msgs| + 2 * AttemptsLeft(t)
    case Notifying => 5 + Remaining(t)
    case Leaving => 4
    case Finishing => 3
    case Decrementing => 2
    case Releasing => 1
    case Done => 0
    case Turned => Remaining(t)
  }

  function OriginRank(o: Origin): nat {
    match o
    case FromSelect => 70
    case FromDrain => 40
    case FromFinal => 10
  }

  function PcRank(pc: Pc): nat {
    match pc
    case Select => 70
    case StoringFlag => 60
    case ClosingChan => 59
    case Handling(_, o) => OriginRank(o) + 12
    case Adding(_, o) => OriginRank(o) + 11
    case Locking(_, o) => OriginRank(o) + 10
    case Submitting(_, o) => OriginRank(o) + 9
    case Counting(_, o) => OriginRank(o) + 8
    case Unlocking(_, o, _) => OriginRank(o) + 7
    case Undoing(_, o) => OriginRank(o) + 6
    case Refusing(_, o) => OriginRank(o) + 5
    case Draining => 40
    case LastFlush => 30
    case ExClosing => 10
    case TickStopping => 9
    case WgWaiting => 8
    case ShuttingDown => 7
    case Exited => 0
  }

  /** The weight of the messages that are not in a task yet. */
  function FrontRank(s: State): nat {
    100 * |s.chan.buf|
    + 80 * |InHand(s.pc)|
    + 60 * |s.mq.pending|
    + 60 * (if s.pc.Adding? then |s.pc.batch| else 0)
  }

  function Rank(s: State): nat {
    FrontRank(s) + Total(s.tasks, TaskRank) + PcRank(s.pc) + (if s.ex.exited then 0 else 1)
  }

  /** What a tick can add to the measure, its own step included: the flush of one batch. */
  const TICK_COST := 12

  /** What an accepted message adds to the measure. */
  const MESSAGE_COST := 100

  /** The loop has taken the `quit` case. */
  predicate Quitting(s: State) {
    Phase(s.pc) >= 1
  }

  lemma RankOfReplaced(tasks: seq<Task>, id: nat, t: Task)
    requires id < |tasks| && TaskRank(t) < TaskRank(tasks[id])
    ensures Total(tasks[id := t], TaskRank) < Total(tasks, TaskRank)
  {
    TotalUpdate(tasks, id, t, TaskRank);
  }

  /** When the messages outside the tasks stay where they are, the tasks and the loop's place decide. */
  lemma BackendRank(s: State, s': State)
    requires s'.chan == s.chan && s'.mq == s.mq && s'.ex.exited == s.ex.exited
    requires InHand(s'.pc) == InHand(s.pc) && !s.pc.Adding? && !s'.pc.Adding?
    requires Total(s'.tasks, TaskRank) + PcRank(s'.pc) < Total(s.tasks, TaskRank) + PcRank(s.pc)
    ensures Rank(s') < Rank(s)
  {
  }

  lemma WorkerRank(s: State, id: nat, k: WorkerStep)
    requires TasksOk(s) && WorkerEnabled(s, id, k)
    ensures Rank(WorkerStepped(s, id, k)) < Rank(s)
  {
    hide Total, TaskRank, WorkerTask, TaskOk, FrontRank, PcRank;
    TaskRankFalls(s.tasks[id], k, s.quit);
    RankOfReplaced(s.tasks, id, WorkerTask(s.tasks[id], k));
    SameFront(s, WorkerStepped(s, id, k));
  }

  lemma SameFront(s: State, s': State)
    requires s'.chan == s.chan && s'.mq == s.mq && s'.pc == s.pc
    ensures FrontRank(s') == FrontRank(s)
  {
  }

  lemma TaskRankFalls(t: Task, k: WorkerStep, quit: bool)
    requires TaskOk(t, quit) && PipelineSteps.TaskReady(t, k, quit)
    ensures TaskRank(WorkerTask(t, k)) < TaskRank(t)
  {
  }

  lemma RunnerRank(s: State, k: RunnerStep)
    requires Linked(s) && RunnerEnabled(s, k)
    ensures Rank(RunnerStepped(s, k)) < Rank(s)
  {
    if k.Spawn? {
      var id := s.ex.queue[0];
      RankOfReplaced(s.tasks, id, s.tasks[id].(pc := Marshalling, runs := s.tasks[id].runs + 1));
    }
  }

  /** An event hands on the pending messages and its own, and no more. */
  lemma EventCounts(lim: Limits, q: Queue, e: Event)
    requires ValidQueue(lim, q) && 1 <= lim.count
    ensures var r := StepEvent(lim, q, e);
            |r.queue.pending| + (if r.batches == [] then 0 else |r.batches[0]|)
            <= |q.pending| + (if e.Got? then 1 else 0)
  {
    hide StepEvent, Flatten, ValidQueue;
    var r := StepEvent(lim, q, e);
    StepKeepsOrder(lim, q, e);
    FlattenAtMostOne(r.batches);
    assert |Flatten(r.batches) + r.queue.pending| == |q.pending + KeptOf(e)|;
  }

  /** Handling an event moves messages on without adding any. */
  lemma ProcessRank(c: Conf, s: State, e: Event, o: Origin)
    requires ValidQueue(c.batch, s.mq) && 1 <= c.batch.count && Processes(s.pc, e, o)
    ensures Rank(Process(c, s, e, o)) < Rank(s) + (if s.pc.Select? then TICK_COST else 0)
  {
    hide Total, TaskRank, StepEvent, ValidQueue, DroppedOf;
    EventCounts(c.batch, s.mq, e);
  }

  lemma AddRank(s: State)
    requires s.pc.Adding? && s.pc.batch != []
    ensures Rank(AddStepped(s)) < Rank(s)
  {
    TotalSnoc(s.tasks, NewTask(s.pc.batch), TaskRank);
  }

  lemma AdmitRank(c: Conf, s: State)
    requires Linked(s) && Admits(s.pc)
    requires s.pc.Submitting? ==> s.pc.id < |s.tasks| && s.ex.queue == []
    ensures Rank(AdmitStepped(c, s)) < Rank(s)
  {
    hide Total, TaskRank, Linked, Rank;
    if s.pc.Submitting? { SubmittedRank(s); }
    BackendRank(s, AdmitStepped(c, s));
  }

  lemma SubmittedRank(s: State)
    requires Linked(s) && s.pc.Submitting? && s.pc.id < |s.tasks|
    ensures Total(s.tasks[s.pc.id := s.tasks[s.pc.id].(pc := Queued)], TaskRank) < Total(s.tasks, TaskRank)
  {
    assert s.tasks[s.pc.id].pc.Offered?;
    RankOfReplaced(s.tasks, s.pc.id, s.tasks[s.pc.id].(pc := Queued));
  }

  lemma UndoRank(s: State)
    requires TasksOk(s) && Linked(s) && s.pc.Undoing? && s.pc.id < |s.tasks|
    ensures Rank(RefuseStepped(s)) < Rank(s)
  {
    var t := s.tasks[s.pc.id];
    assert t.pc.Offered?;
    RankOfReplaced(s.tasks, s.pc.id, t.(pc := Turned, verdict := Some(Failure(TooManyRequests))));
  }

  lemma RefuseRank(s: State)
    requires Linked(s) && s.pc.Refusing? && s.pc.id < |s.tasks|
    ensures Rank(RefuseStepped(s)) < Rank(s)
  {
    hide Total, TaskRank, Linked;
    if s.tasks[s.pc.id].notified < |s.tasks[s.pc.id].msgs| { RefusedRank(s); }
  }

  lemma RefusedRank(s: State)
    requires Linked(s) && s.pc.Refusing? && s.pc.id < |s.tasks|
    requires s.tasks[s.pc.id].notified < |s.tasks[s.pc.id].msgs|
    ensures Total(s.tasks[s.pc.id := s.tasks[s.pc.id].(notified := s.tasks[s.pc.id].notified + 1)], TaskRank)
            < Total(s.tasks, TaskRank)
  {
    var t := s.tasks[s.pc.id];
    assert t.pc.Turned?;
    RankOfReplaced(s.tasks, s.pc.id, t.(notified := t.notified + 1));
  }

  lemma TakeRank(s: State, o: Origin)
    requires (s.pc.Draining? && o.FromDrain?) || (s.pc.Select? && o.FromSelect?)
    requires s.chan.buf != []
    ensures Rank(Take(s, o)) < Rank(s)
  {
  }

  lemma ShutRank(c: Conf, s: State)
    requires Staged(c, s) && Shutting(s.pc)
    ensures Rank(ShutStepped(s)) < Rank(s)
  {
  }

  lemma JumpRank(s: State)
    requires s.pc.Draining?
    ensures Rank(s.(pc := LastFlush)) < Rank(s)
  {
  }

  lemma QueueIsValid(c: Conf, s: State)
    requires Traced(c, s) && 1 <= c.batch.count
    ensures ValidQueue(c.batch, s.mq)
  {
    RunKeepsOrder(c.batch, s.trace);
  }

  lemma SelectRank(c: Conf, s: State, k: LoopStep)
    requires ValidQueue(c.batch, s.mq) && 1 <= c.batch.count && s.pc.Select? && LoopEnabled(c, s, k)
    ensures Rank(LoopStepped(c, s, k)) < Rank(s) + (if k.TakeTick? then TICK_COST else 0)
  {
    hide Rank, Process, ValidQueue;
    match k
    case TakeMessage => TakeRank(s, FromSelect);
    case TakeTick => ProcessRank(c, s, Tick, FromSelect);
    case _ => QuitRank(s);
  }

  lemma QuitRank(s: State)
    requires s.pc.Select?
    ensures Rank(s.(pc := StoringFlag)) < Rank(s)
  {
  }

  lemma LoopRank(c: Conf, s: State, k: LoopStep)
    requires Inv(c, s) && LoopEnabled(c, s, k)
    ensures Rank(LoopStepped(c, s, k)) < Rank(s) + (if k.TakeTick? then TICK_COST else 0)
  {
    hide CallsOk, ClosersOk, Traced, Logged, TasksOk, Linked, Locked, Counted, Rank, ValidQueue;
    QueueIsValid(c, s);
    match s.pc
    case Select => SelectRank(c, s, k);
    case Handling(m, o) => ProcessRank(c, s, Got(m), o);
    case Adding(_, _) => BatchIsNotEmpty(c, s); AddRank(s);
    case Locking(_, _) => AdmitRank(c, s);
    case Submitting(_, _) => AdmitRank(c, s);
    case Counting(_, _) => AdmitRank(c, s);
    case Unlocking(_, _, _) => AdmitRank(c, s);
    case Undoing(_, _) => UndoRank(s);
    case Refusing(_, _) => RefuseRank(s);
    case Draining => if s.chan.buf != [] { TakeRank(s, FromDrain); } else { JumpRank(s); }
    case LastFlush => ProcessRank(c, s, Tick, FromFinal);
    case _ => ShutRank(c, s);
  }

  /** From outside only an accepted message adds to the client's work. */
  lemma OutsideRank(c: Conf, s: State, k: Step)
    requires Enabled(c, s, k) && !Internal(k)
    ensures |s.accepted| <= |Stepped(c, s, k).accepted|
    ensures Rank(Stepped(c, s, k)) == Rank(s) + MESSAGE_COST * (|Stepped(c, s, k).accepted| - |s.accepted|)
  {
    hide Rank;
    match k
    case ByProducer(id, p) => ProducerRank(c, s, id, p);
    case ByCloser(id, q) => CloserRank(s, id, q);
  }

  lemma ProducerRank(c: Conf, s: State, id: nat, p: ProducerStep)
    requires ProducerEnabled(c, s, id, p)
    ensures var s' := ProducerStepped(c, s, id, p);
            |s.accepted| <= |s'.accepted| && Rank(s') == Rank(s) + MESSAGE_COST * (|s'.accepted| - |s.accepted|)
  {
    hide Total, TaskRank, PcRank, ProducerCall;
  }

  lemma CloserRank(s: State, id: nat, q: CloserStep)
    requires CloserEnabled(s, id, q)
    ensures var s' := CloserStepped(s, id, q); s'.accepted == s.accepted && Rank(s') == Rank(s)
  {
    hide Total, TaskRank, PcRank;
  }

  /** Every step of the client itself lowers the measure, but for a tick; and only accepted messages raise it. */
  lemma StepRank(c: Conf, s: State, k: Step, s': State)
    requires Inv(c, s) && Enabled(c, s, k) && s' == Stepped(c, s, k)
    ensures |s.accepted| <= |s'.accepted|
    ensures Rank(s') + (if Internal(k) then 1 else 0)
            <= Rank(s) + (if IsTick(k) then TICK_COST else 0) + MESSAGE_COST * (|s'.accepted| - |s.accepted|)
  {
    hide CallsOk, ClosersOk, Traced, Logged, TasksOk, Linked, Locked, Counted, Staged, Rank, LoopStepped;
    match k
    case ByLoop(l) => LoopRank(c, s, l); LoopLeavesCalls(c, s, l);
    case ByRunner(r) => RunnerRank(s, r);
    case ByWorker(id, w) => WorkerRank(s, id, w);
    case _ => OutsideRank(c, s, k);
  }

  // ----- How much a run can do -----

  predicate IsTick(k: Step) {
    k == ByLoop(TakeTick)
  }

  /** The steps of the client itself among these. */
  function InternalSteps(steps: seq<Step>): nat {
    if steps == [] then 0
    else InternalSteps(steps[..|steps| - 1]) + (if Internal(steps[|steps| - 1]) then 1 else 0)
  }

  /** The ticks among these steps. */
  function Ticks(steps: seq<Step>): nat {
    if steps == [] then 0
    else Ticks(steps[..|steps| - 1]) + (if IsTick(steps[|steps| - 1]) then 1 else 0)
  }

  /** The messages accepted between two states of a run. */
  function Given(b: Behavior, i: nat, j: nat): int
    requires i < |b.states| && j < |b.states|
  {
    |b.states[j].accepted| - |b.states[i].accepted|
  }

  /**
   * In any stretch of any run, closing or not, the client takes no more steps of its own than the
   * measure at its start, twelve for every tick and a hundred for every message accepted in it.
   */
  lemma {:induction false} WorkIsBounded(c: Conf, b: Behavior, i: nat, j: nat)
    requires IsRun(c, b) && i <= j < |b.states|
    ensures 0 <= Given(b, i, j)
    ensures InternalSteps(b.steps[i..j]) + Rank(b.states[j])
            <= Rank(b.states[i]) + TICK_COST * Ticks(b.steps[i..j]) + MESSAGE_COST * Given(b, i, j)
  {
    hide Rank, Inv, Enabled, Stepped, Init;
    if i < j {
      WorkIsBounded(c, b, i, j - 1);
      InvAlways(c, b, j - 1);
      StepRank(c, b.states[j - 1], b.steps[j - 1], b.states[j]);
      assert b.steps[i..j][..j - 1 - i] == b.steps[i..j - 1];
    }
  }

  /** A whole run has a number of internal steps linear in its ticks and accepted messages. */
  lemma WholeRunIsBounded(c: Conf, b: Behavior, j: nat)
    requires IsRun(c, b) && j < |b.states|
    ensures InternalSteps(b.steps[..j]) <= 71 + TICK_COST * Ticks(b.steps[..j]) + MESSAGE_COST * |b.states[j].accepted|
  {
    WorkIsBounded(c, b, 0, j);
    assert b.steps[0..j] == b.steps[..j];
  }

  // ----- Once the quit case is taken -----

  /** How many messages the queue can still accept before it is closed. */
  function Room(c: Conf, s: State): nat {
    if s.chan.closed || c.queueCap <= |s.chan.buf| then 0 else c.queueCap - |s.chan.buf|
  }

  lemma LoopQuitStep(c: Conf, s: State, k: LoopStep)
    requires Staged(c, s) && Quitting(s) && LoopEnabled(c, s, k)
    ensures Quitting(LoopStepped(c, s, k)) && !k.TakeTick?
    ensures Room(c, LoopStepped(c, s, k)) <= Room(c, s)
  {
    hide StepEvent, DroppedOf;
  }

  /** A quitting client stays so, sees no tick, and accepts no more than the queue has room for. */
  lemma QuitStep(c: Conf, s: State, k: Step, s': State)
    requires Staged(c, s) && Quitting(s) && Enabled(c, s, k) && s' == Stepped(c, s, k)
    ensures Quitting(s') && !IsTick(k)
    ensures |s'.accepted| - |s.accepted| + Room(c, s') <= Room(c, s)
  {
    if k.ByLoop? {
      LoopQuitStep(c, s, k.l);
      LoopLeavesCalls(c, s, k.l);
    }
  }

  lemma {:induction false} QuitAdmitsLittle(c: Conf, b: Behavior, i: nat, j: nat)
    requires IsRun(c, b) && i <= j < |b.states| && Quitting(b.states[i])
    ensures Quitting(b.states[j]) && Ticks(b.steps[i..j]) == 0
    ensures Given(b, i, j) + Room(c, b.states[j]) <= Room(c, b.states[i])
  {
    hide CallsOk, ClosersOk, Traced, Logged, TasksOk, Linked, Locked, Counted, Staged, Enabled, Stepped, Init, Quitting, Room;
    if i < j {
      QuitAdmitsLittle(c, b, i, j - 1);
      InvAlways(c, b, j - 1);
      QuitStep(c, b.states[j - 1], b.steps[j - 1], b.states[j]);
      assert b.steps[i..j][..j - 1 - i] == b.steps[i..j - 1];
    }
  }

  /**
   * Termination: from the moment the loop takes the `quit` case, the client takes at most as many
   * steps of its own as the measure and the room in its queue allow, whatever calls are made
   * meanwhile. With `NoDeadlock` every run that does not stop early settles.
   */
  lemma QuitTerminates(c: Conf, b: Behavior, i: nat, j: nat)
    requires IsRun(c, b) && i <= j < |b.states| && Quitting(b.states[i])
    ensures Quitting(b.states[j])
    ensures InternalSteps(b.steps[i..j]) + Rank(b.states[j]) <= Rank(b.states[i]) + MESSAGE_COST * Room(c, b.states[i])
  {
    hide Rank, Quitting, Room, IsRun;
    WorkIsBounded(c, b, i, j);
    QuitAdmitsLittle(c, b, i, j);
  }

  /**
   * A quitting client that has used up its steps has settled: nothing of its own is enabled only
   * when it has shut down and every task is at its end.
   */
  lemma StuckIsSettled(c: Conf, b: Behavior, i: nat)
    requires IsRun(c, b) && i < |b.states| && Quitting(b.states[i])
    requires forall k :: Internal(k) ==> !Enabled(c, b.states[i], k)
    ensures Settled(b.states[i]) && b.states[i].shutdown
  {
    hide Enabled, IsRun;
    if !Settled(b.states[i]) {
      var k := NoDeadlock(c, b, i);
      assert false;
    }
    SettledCanReturn(c, b, i, 0);
  }
}
