/** Every step keeps the invariant. */
module PipelineSteps {
  import opened Messages
  import opened EventTrace
  import opened Retry
  import opened Sequences
  import opened Pipeline
  import opened TaskSums
  import opened PipelineInvariant

  lemma InitHolds(c: Conf, s: State)
    requires ValidConf(c) && Init(s)
    ensures Inv(c, s)
  {
    InitLogged();
    InitTraced(c, s);
    InitRest(c, s);
  }

  lemma InitTraced(c: Conf, s: State)
    requires Init(s)
    ensures Traced(c, s)
  {
    assert Batches([]) + OnItsWay(Select) == [];
  }

  lemma InitRest(c: Conf, s: State)
    requires Init(s)
    ensures Staged(c, s) && CallsOk(s) && ClosersOk(s) && TasksOk(s) && Linked(s) && Locked(s) && Counted(c, s)
  {
  }

  lemma InitLogged()
    ensures LogOk([], [], [])
  {
  }

  // ----- What is untouched stays true -----

  /** Steps that leave the calls and the queue alone leave what is known of them. */
  lemma SameCalls(s: State, s': State)
    requires CallsOk(s) && ClosersOk(s)
    requires s'.calls == s.calls && s'.accepted == s.accepted && (s.chan.flag ==> s'.chan.flag)
    requires s'.closers == s.closers && s'.quit == s.quit && (s.shutdown ==> s'.shutdown) && s'.disposals == s.disposals
    ensures CallsOk(s') && ClosersOk(s')
  {
    forall j | j in s'.calls ensures CallOk(s', j, s'.calls[j]) {
      assert CallOk(s, j, s.calls[j]);
    }
  }

  lemma SameTrace(c: Conf, s: State, s': State)
    requires Traced(c, s)
    requires s'.accepted == s.accepted && s'.trace == s.trace && s'.chan.buf == s.chan.buf && s'.mq == s.mq
    requires Batches(s'.tasks) == Batches(s.tasks) && InHand(s'.pc) == InHand(s.pc) && OnItsWay(s'.pc) == OnItsWay(s.pc)
    ensures Traced(c, s')
  {
  }

  lemma SameTasks(s: State, s': State)
    requires TasksOk(s) && s'.tasks == s.tasks && s'.quit == s.quit
    ensures TasksOk(s')
  {
  }

  lemma SameLinks(s: State, s': State)
    requires Linked(s) && s'.tasks == s.tasks && s'.ex.queue == s.ex.queue
    requires s'.ex.exited == s.ex.exited && (s.ex.closed ==> s'.ex.closed)
    requires OfferedId(s'.pc) == OfferedId(s.pc) && RefusedId(s'.pc) == RefusedId(s.pc)
    ensures Linked(s')
  {
  }

  lemma SameLock(s: State, s': State)
    requires Locked(s) && s'.tasks == s.tasks && s'.ex.holder == s.ex.holder && LoopLocked(s'.pc) == LoopLocked(s.pc)
    ensures Locked(s')
  {
  }

  lemma SameCounts(c: Conf, s: State, s': State)
    requires Counted(c, s) && s'.tasks == s.tasks && s'.ex.size == s.ex.size && s'.wg == s.wg
    requires !s.pc.Counting? && !s'.pc.Counting? && !s'.pc.Submitting? && !s'.pc.Unlocking?
    ensures Counted(c, s')
  {
  }

  lemma SameLog(s: State, s': State)
    requires Logged(s) && s'.log == s.log && s'.trace == s.trace && s'.tasks == s.tasks
    ensures Logged(s')
  {
  }

  /** A step of the loop outside `sendAsync` leaves the executor and the tasks alone. */
  lemma SameBackend(c: Conf, s: State, s': State)
    requires TasksOk(s) && Linked(s) && Locked(s) && Counted(c, s)
    requires s'.tasks == s.tasks && s'.quit == s.quit && s'.wg == s.wg
    requires s'.ex == s.ex.(closed := s'.ex.closed) && (s.ex.closed ==> s'.ex.closed)
    requires OfferedId(s.pc).None? && RefusedId(s.pc).None? && !LoopLocked(s.pc)
    requires OfferedId(s'.pc).None? && RefusedId(s'.pc).None? && !LoopLocked(s'.pc)
    ensures TasksOk(s') && Linked(s') && Locked(s') && Counted(c, s')
  {
    SameTasks(s, s');
    SameLinks(s, s');
    SameLock(s, s');
    SameCounts(c, s, s');
  }

  // ----- Enqueue -----

  lemma ProducerKeepsCalls(c: Conf, s: State, id: nat, k: ProducerStep)
    requires CallsOk(s) && Staged(c, s) && ProducerEnabled(c, s, id, k)
    ensures CallsOk(ProducerStepped(c, s, id, k))
  {
    var s' := ProducerStepped(c, s, id, k);
    forall j | j in s'.calls ensures CallOk(s', j, s'.calls[j]) {
      if j != id { assert CallOk(s, j, s.calls[j]); }
    }
  }

  lemma ProducerKeepsRest(c: Conf, s: State, id: nat, k: ProducerStep)
    requires Inv(c, s) && ProducerEnabled(c, s, id, k)
    ensures var s' := ProducerStepped(c, s, id, k);
            Staged(c, s') && ClosersOk(s') && Traced(c, s') && TasksOk(s') && Linked(s') && Locked(s') && Counted(c, s') && Logged(s')
  {
    if k.SendMessage? {
      Associative(Received(s.trace) + InHand(s.pc), s.chan.buf, [s.calls[id].msg]);
    }
  }

  lemma ProducerKeepsInv(c: Conf, s: State, id: nat, k: ProducerStep)
    requires Inv(c, s) && ProducerEnabled(c, s, id, k)
    ensures Inv(c, ProducerStepped(c, s, id, k))
  {
    ProducerKeepsCalls(c, s, id, k);
    ProducerKeepsRest(c, s, id, k);
  }

  // ----- Close -----

  lemma CloserKeepsClosers(c: Conf, s: State, id: nat, k: CloserStep)
    requires ClosersOk(s) && CloserEnabled(s, id, k)
    ensures ClosersOk(CloserStepped(s, id, k))
  {
    var s' := CloserStepped(s, id, k);
    if s'.quit {
      if s.quit {
        var i :| i in s.closers && Passed(s.closers[i]);
        assert i in s'.closers && Passed(s'.closers[i]);
      } else {
        assert id in s'.closers && Passed(s'.closers[id]);
      }
    }
  }

  lemma CloserKeepsTasks(s: State, id: nat, k: CloserStep)
    requires TasksOk(s) && CloserEnabled(s, id, k)
    ensures TasksOk(CloserStepped(s, id, k))
  {
    forall i | 0 <= i < |s.tasks| ensures TaskOk(s.tasks[i], CloserStepped(s, id, k).quit) {
      QuittingKeepsTask(s.tasks[i], s.quit);
    }
  }

  lemma QuittingKeepsTask(t: Task, quit: bool)
    requires TaskOk(t, quit)
    ensures TaskOk(t, true)
  {
  }

  lemma CloserKeepsCalls(c: Conf, s: State, id: nat, k: CloserStep)
    requires Staged(c, s) && CallsOk(s) && Traced(c, s) && CloserEnabled(s, id, k)
    ensures var s' := CloserStepped(s, id, k); Staged(c, s') && CallsOk(s') && Traced(c, s')
  {
    var s' := CloserStepped(s, id, k);
    forall j | j in s'.calls ensures CallOk(s', j, s'.calls[j]) {
      assert CallOk(s, j, s.calls[j]);
    }
  }

  lemma CloserKeepsRest(c: Conf, s: State, id: nat, k: CloserStep)
    requires Linked(s) && Locked(s) && Counted(c, s) && Logged(s) && CloserEnabled(s, id, k)
    ensures var s' := CloserStepped(s, id, k); Linked(s') && Locked(s') && Counted(c, s') && Logged(s')
  {
  }

  lemma CloserKeepsInv(c: Conf, s: State, id: nat, k: CloserStep)
    requires Inv(c, s) && CloserEnabled(s, id, k)
    ensures Inv(c, CloserStepped(s, id, k))
  {
    CloserKeepsClosers(c, s, id, k);
    CloserKeepsTasks(s, id, k);
    CloserKeepsCalls(c, s, id, k);
    CloserKeepsRest(c, s, id, k);
  }

  // ----- The executor's loop -----

  lemma RunnerKeepsTasks(c: Conf, s: State, k: RunnerStep)
    requires TasksOk(s) && Linked(s) && RunnerEnabled(s, k)
    ensures TasksOk(RunnerStepped(s, k))
  {
  }

  lemma RunnerKeepsLinks(c: Conf, s: State, k: RunnerStep)
    requires Linked(s) && Locked(s) && RunnerEnabled(s, k)
    ensures Linked(RunnerStepped(s, k)) && Locked(RunnerStepped(s, k))
  {
  }

  lemma RunnerKeepsCounts(c: Conf, s: State, k: RunnerStep)
    requires Counted(c, s) && Linked(s) && RunnerEnabled(s, k)
    ensures Counted(c, RunnerStepped(s, k))
  {
    if k.Spawn? {
      var id := s.ex.queue[0];
      var t := RunnerStepped(s, k).tasks[id];
      TotalUpdate(s.tasks, id, t, Admitted);
      TotalUpdate(s.tasks, id, t, Open);
    }
  }

  lemma RunnerKeepsLog(s: State, k: RunnerStep)
    requires Logged(s) && RunnerEnabled(s, k)
    ensures Logged(RunnerStepped(s, k))
  {
    hide LogOk, Gather;
    if k.Spawn? {
      SpawnKeepsLog(s.log, s.trace, s.tasks, s.ex.queue[0]);
    }
  }

  lemma SpawnKeepsLog(log: seq<Note>, trace: seq<Event>, tasks: seq<Task>, id: nat)
    requires LogOk(log, trace, tasks)
    requires id < |tasks|
    ensures LogOk(log, trace, tasks[id := tasks[id].(pc := Marshalling, runs := tasks[id].runs + 1)])
  {
    QuietKeepsLog(log, trace, tasks, id, tasks[id].(pc := Marshalling, runs := tasks[id].runs + 1));
  }

  /** A step that makes no callback leaves the tasks' callbacks alone. */
  lemma QuietKeepsLog(log: seq<Note>, trace: seq<Event>, tasks: seq<Task>, id: nat, t: Task)
    requires LogOk(log, trace, tasks)
    requires id < |tasks|
    requires NotesOf(t) == NotesOf(tasks[id]) && Notified(t) == Notified(tasks[id])
    ensures LogOk(log, trace, tasks[id := t])
  {
    GatherGrow(tasks, id, t, NotesOf, multiset{});
    GatherGrow(tasks, id, t, Notified, multiset{});
  }

  lemma RunnerKeepsRest(c: Conf, s: State, k: RunnerStep)
    requires Staged(c, s) && CallsOk(s) && ClosersOk(s) && RunnerEnabled(s, k)
    ensures var s' := RunnerStepped(s, k); Staged(c, s') && CallsOk(s') && ClosersOk(s')
  {
    SameCalls(s, RunnerStepped(s, k));
  }

  lemma RunnerKeepsTrace(c: Conf, s: State, k: RunnerStep)
    requires Traced(c, s) && RunnerEnabled(s, k)
    ensures Traced(c, RunnerStepped(s, k))
  {
    assert Batches(RunnerStepped(s, k).tasks) == Batches(s.tasks);
  }

  lemma RunnerKeepsInv(c: Conf, s: State, k: RunnerStep)
    requires Inv(c, s) && RunnerEnabled(s, k)
    ensures Inv(c, RunnerStepped(s, k))
  {
    RunnerKeepsTasks(c, s, k);
    RunnerKeepsLinks(c, s, k);
    RunnerKeepsCounts(c, s, k);
    RunnerKeepsLog(s, k);
    RunnerKeepsRest(c, s, k);
    RunnerKeepsTrace(c, s, k);
  }

  // ----- A task's goroutine -----

  /** What `WorkerEnabled` says about the task itself. */
  predicate TaskReady(t: Task, k: WorkerStep, quit: bool) {
    match k
    case Marshal(sentAt, _) => t.pc.Marshalling? && |sentAt| == SENT_AT_LENGTH
    case Answer(_) => t.pc.Calling?
    case TimerFires => t.pc.Waiting?
    case SeeQuit => t.pc.Waiting? && quit
    case NotifyNext => t.pc.Notifying? && t.notified < |t.msgs|
    case EndSend => t.pc.Notifying? && t.notified == |t.msgs|
    case Panic => Busy(t.pc)
    case WgDone => t.pc.Leaving?
    case Lock => t.pc.Finishing?
    case Decrement => t.pc.Decrementing?
    case Unlock => t.pc.Releasing?
  }

  lemma WorkerKeepsTask(t: Task, k: WorkerStep, quit: bool)
    requires TaskOk(t, quit) && TaskReady(t, k, quit)
    ensures TaskOk(WorkerTask(t, k), quit)
  {
    match k
    case Answer(r) => AnswerKeepsTask(t, r, quit);
    case TimerFires => RetryKeepsTask(t, k, quit);
    case SeeQuit => RetryKeepsTask(t, k, quit);
    case Panic => PanicKeepsTask(t, quit);
    case _ => OthersKeepTask(t, k, quit);
  }

  lemma AnswerKeepsTask(t: Task, r: SendResult, quit: bool)
    requires TaskOk(t, quit) && t.pc.Calling?
    ensures TaskOk(WorkerTask(t, Answer(r)), quit)
  {
    OneMoreAttempt(t.attempts, Attempt(t.payload, r));
    OneMoreInOrder(t.attempts, Attempt(t.payload, r));
  }

  lemma RetryKeepsTask(t: Task, k: WorkerStep, quit: bool)
    requires TaskOk(t, quit) && TaskReady(t, k, quit) && (k.TimerFires? || k.SeeQuit?)
    ensures TaskOk(WorkerTask(t, k), quit)
  {
    RefusedIsResolved(t.attempts);
  }

  lemma PanicKeepsTask(t: Task, quit: bool)
    requires TaskOk(t, quit) && Busy(t.pc)
    ensures TaskOk(WorkerTask(t, Panic), quit)
  {
    if t.pc.Notifying? {
      assert |t.attempts| <= ATTEMPTS;
    }
  }

  lemma OthersKeepTask(t: Task, k: WorkerStep, quit: bool)
    requires TaskOk(t, quit) && TaskReady(t, k, quit)
    requires !k.Answer? && !k.TimerFires? && !k.SeeQuit? && !k.Panic?
    ensures TaskOk(WorkerTask(t, k), quit)
  {
  }

  lemma RefusedIsResolved(attempts: seq<Attempt>)
    requires AllRefused(attempts) && 1 <= |attempts| <= ATTEMPTS
    ensures ResolvedBy(attempts, LastVerdict(attempts)) && LastVerdict(attempts) != Success
  {
  }

  lemma WorkerKeepsPayload(t: Task, k: WorkerStep)
    requires PayloadOk(t)
    requires k.Answer? ==> t.pc.Calling?
    requires k.TimerFires? ==> t.attempts != []
    requires k.Marshal? ==> t.attempts == [] && |k.sentAt| == SENT_AT_LENGTH
    requires t.pc.Calling? ==> k.Answer? || k.Panic?
    ensures PayloadOk(WorkerTask(t, k))
  {
    if k.Marshal? {
      assert k.ok ==> WorkerTask(t, k).payload == MarshalBatch(k.sentAt, Some(t.msgs));
    }
  }

  lemma WorkerKeepsTasks(s: State, id: nat, k: WorkerStep)
    requires TasksOk(s) && WorkerEnabled(s, id, k)
    ensures TasksOk(WorkerStepped(s, id, k))
  {
    WorkerKeepsTask(s.tasks[id], k, s.quit);
    WorkerKeepsPayload(s.tasks[id], k);
  }

  lemma WorkerKeepsLinks(s: State, id: nat, k: WorkerStep)
    requires Linked(s) && WorkerEnabled(s, id, k)
    ensures Linked(WorkerStepped(s, id, k))
  {
    RunningKeepsLinks(s.ex.queue, s.tasks, s.pc, id, WorkerTask(s.tasks[id], k));
  }

  /** A task that is running moves on without the loop or the channel noticing. */
  lemma RunningKeepsLinks(queue: seq<nat>, tasks: seq<Task>, pc: Pc, id: nat, t: Task)
    requires LinkOk(queue, tasks, pc)
    requires id < |tasks| && (Busy(tasks[id].pc) || After(tasks[id].pc)) && (Busy(t.pc) || After(t.pc))
    ensures LinkOk(queue, tasks[id := t], pc)
  {
  }

  lemma WorkerKeepsLock(s: State, id: nat, k: WorkerStep)
    requires Locked(s) && WorkerEnabled(s, id, k)
    ensures Locked(WorkerStepped(s, id, k))
  {
  }

  lemma WorkerKeepsCounts(c: Conf, s: State, id: nat, k: WorkerStep)
    requires Counted(c, s) && Locked(s) && WorkerEnabled(s, id, k)
    ensures Counted(c, WorkerStepped(s, id, k))
  {
    var t := WorkerTask(s.tasks[id], k);
    TotalUpdate(s.tasks, id, t, Admitted);
    TotalUpdate(s.tasks, id, t, Open);
    TotalAtLeast(s.tasks, id, Admitted);
  }

  lemma WorkerKeepsLog(s: State, id: nat, k: WorkerStep)
    requires Logged(s) && TasksOk(s) && WorkerEnabled(s, id, k)
    ensures Logged(WorkerStepped(s, id, k))
  {
    assert TaskOk(s.tasks[id], s.quit);
    TaskKeepsLog(s.log, s.trace, s.tasks, id, k, s.quit);
  }

  lemma TaskKeepsLog(log: seq<Note>, trace: seq<Event>, tasks: seq<Task>, id: nat, k: WorkerStep, quit: bool)
    requires LogOk(log, trace, tasks)
    requires id < |tasks| && TaskOk(tasks[id], quit) && TaskReady(tasks[id], k, quit)
    ensures LogOk(log + WorkerNotes(tasks[id], k), trace, tasks[id := WorkerTask(tasks[id], k)])
  {
    var t := tasks[id];
    if k.NotifyNext? {
      LoudKeepsLog(log, trace, tasks, id, WorkerTask(t, k), t.verdict.value);
    } else {
      QuietStep(t, k, quit);
      QuietKeepsLog(log, trace, tasks, id, WorkerTask(t, k));
      assert log + [] == log;
    }
  }

  /** Notifying the next message of one task adds that one callback. */
  lemma LoudKeepsLog(log: seq<Note>, trace: seq<Event>, tasks: seq<Task>, id: nat, t': Task, v: Verdict)
    requires LogOk(log, trace, tasks)
    requires id < |tasks|
    requires tasks[id].notified < |tasks[id].msgs| && tasks[id].verdict == Some(v)
    requires t' == tasks[id].(notified := tasks[id].notified + 1)
    ensures LogOk(log + [Note(tasks[id].msgs[tasks[id].notified].msg, v)], trace, tasks[id := t'])
  {
    NotifyOne(tasks, id, t', v);
    LogOne(log, Note(tasks[id].msgs[tasks[id].notified].msg, v));
  }

  lemma LogOne(log: seq<Note>, n: Note)
    ensures multiset(log + [n]) == multiset(log) + multiset{n}
    ensures multiset(Subjects(log + [n])) == multiset(Subjects(log)) + multiset{n.m}
  {
    assert Subjects(log + [n]) == Subjects(log) + [n.m];
  }

  lemma NotifyOne(tasks: seq<Task>, id: nat, t': Task, v: Verdict)
    requires id < |tasks|
    requires tasks[id].notified < |tasks[id].msgs| && tasks[id].verdict == Some(v)
    requires t' == tasks[id].(notified := tasks[id].notified + 1)
    ensures Gather(tasks[id := t'], NotesOf)
            == Gather(tasks, NotesOf) + multiset{Note(tasks[id].msgs[tasks[id].notified].msg, v)}
    ensures Gather(tasks[id := t'], Notified)
            == Gather(tasks, Notified) + multiset{tasks[id].msgs[tasks[id].notified].msg}
  {
    var t := tasks[id];
    var n := t.notified;
    assert NotesFor(t.msgs, v)[..n + 1] == NotesFor(t.msgs, v)[..n] + [Note(t.msgs[n].msg, v)];
    assert Originals(t.msgs)[..n + 1] == Originals(t.msgs)[..n] + [t.msgs[n].msg];
    GatherGrow(tasks, id, t', NotesOf, multiset{Note(t.msgs[n].msg, v)});
    GatherGrow(tasks, id, t', Notified, multiset{t.msgs[n].msg});
  }

  lemma QuietStep(t: Task, k: WorkerStep, quit: bool)
    requires TaskOk(t, quit) && TaskReady(t, k, quit) && !k.NotifyNext?
    ensures NotesOf(WorkerTask(t, k)) == NotesOf(t)
    ensures Notified(WorkerTask(t, k)) == Notified(t)
    ensures WorkerNotes(t, k) == []
  {
    if t.verdict.None? && WorkerTask(t, k).verdict.Some? {
      assert NotesFor(t.msgs, WorkerTask(t, k).verdict.value)[..0] == [];
    }
  }

  lemma WorkerKeepsStage(c: Conf, s: State, id: nat, k: WorkerStep)
    requires Staged(c, s) && Counted(c, s) && WorkerEnabled(s, id, k)
    ensures Staged(c, WorkerStepped(s, id, k))
  {
    if k.WgDone? { TotalAtLeast(s.tasks, id, Open); }
  }

  lemma WorkerKeepsRest(c: Conf, s: State, id: nat, k: WorkerStep)
    requires CallsOk(s) && ClosersOk(s) && Traced(c, s) && WorkerEnabled(s, id, k)
    ensures var s' := WorkerStepped(s, id, k); CallsOk(s') && ClosersOk(s') && Traced(c, s')
  {
    SameCalls(s, WorkerStepped(s, id, k));
    assert Batches(WorkerStepped(s, id, k).tasks) == Batches(s.tasks);
  }

  lemma WorkerKeepsInv(c: Conf, s: State, id: nat, k: WorkerStep)
    requires Inv(c, s) && WorkerEnabled(s, id, k)
    ensures Inv(c, WorkerStepped(s, id, k))
  {
    WorkerKeepsStage(c, s, id, k);
    WorkerKeepsTasks(s, id, k);
    WorkerKeepsLinks(s, id, k);
    WorkerKeepsLock(s, id, k);
    WorkerKeepsCounts(c, s, id, k);
    WorkerKeepsLog(s, id, k);
    WorkerKeepsRest(c, s, id, k);
  }
}
