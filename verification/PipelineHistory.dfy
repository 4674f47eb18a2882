/** What was done in a run, step by step, against what its states say: the two agree. */
module PipelineHistory {
  import opened Messages
  import opened Batching
  import opened EventTrace
  import opened Retry
  import opened WireForm
  import opened Pipeline
  import opened TaskSums
  import opened PipelineInvariant
  import PipelineSteps
  import opened PipelineLoopSteps
  import opened PipelineTheorems
  import opened PipelineSafety

  // ----- Enqueue: valid and invalid messages -----

  /** Every batched message was accepted. */
  lemma BatchedIsAccepted(c: Conf, b: Behavior, j: nat, id: nat, m: Msg)
    requires IsRun(c, b) && j < |b.states| && id < |b.states[j].tasks|
    requires m in Originals(b.states[j].tasks[id].msgs)
    ensures m in b.states[j].accepted
  {
    hide Fitting, Flatten, Originals;
    var s := b.states[j];
    OrderPreserved(c, b, j);
    var parts := Batches(s.tasks) + OnItsWay(s.pc);
    assert parts[id] == s.tasks[id].msgs;
    var k := PositionOf(s.tasks[id].msgs, m);
    InFlat(parts, id, s.tasks[id].msgs[k]);
    FittingIsFrom(s.accepted, s.tasks[id].msgs[k]);
  }

  lemma PositionOf(ms: seq<Message>, m: Msg) returns (k: nat)
    requires m in Originals(ms)
    ensures k < |ms| && ms[k].msg == m
  {
    k :| k < |Originals(ms)| && Originals(ms)[k] == m;
  }

  lemma {:induction false} InFlat<T>(parts: seq<seq<T>>, i: nat, x: T)
    requires i < |parts| && x in parts[i]
    ensures x in Flatten(parts)
  {
    if i < |parts| - 1 { InFlat(parts[..|parts| - 1], i, x); }
  }

  lemma {:induction false} FittingIsFrom(msgs: seq<Msg>, x: Message)
    requires x in Fitting(msgs)
    ensures x.msg in msgs
  {
    var n := |msgs| - 1;
    if x in Fitting(msgs[..n]) { FittingIsFrom(msgs[..n], x); }
  }

  /** A call's message, and whether it passed validation, are those it was started with. */
  lemma StartIsKept(c: Conf, b: Behavior, i: nat, j: nat, id: nat, msg: Msg, valid: bool)
    requires IsRun(c, b) && i < j < |b.states|
    requires b.steps[i] == ByProducer(id, StartEnqueue(msg, valid))
    ensures id in b.states[j].calls && b.states[j].calls[id].msg == msg
    ensures b.states[j].calls[id].CallInvalid? <==> !valid
  {
    assert b.states[i + 1] == Stepped(c, b.states[i], b.steps[i]);
    EnqueueIsShort(c, b, i + 1, j, id);
  }

  /**
   * A valid message is never refused as invalid, and its call returns nil exactly when the message
   * is in the queue's history and `ErrClosed` otherwise. An invalid message never gets anywhere: it
   * is not accepted, not batched, and has no callback.
   */
  lemma EnqueueDecides(c: Conf, b: Behavior, i: nat, j: nat, id: nat, msg: Msg, valid: bool)
    requires IsRun(c, b) && i < j < |b.states|
    requires b.steps[i] == ByProducer(id, StartEnqueue(msg, valid))
    ensures id in b.states[j].calls
    ensures var s := b.states[j]; var k := s.calls[id];
            && (valid ==> !k.CallInvalid?)
            && (valid && k.CallReturned? ==> (k.result == Accepted <==> msg in s.accepted))
            && (valid && k.CallReturned? && k.result != Accepted ==> k.result == ErrClosed && s.quit)
            && (!valid ==> k.CallInvalid? && msg !in s.accepted && Callbacks(s, msg) == 0)
            && (!valid ==> forall t :: 0 <= t < |s.tasks| ==> msg !in Originals(s.tasks[t].msgs))
  {
    hide Init, Follows, Stepped, Enabled, Callbacks;
    StartIsKept(c, b, i, j, id, msg, valid);
    var s := b.states[j];
    if valid {
      if s.calls[id].CallReturned? { EnqueueResults(c, b, j, id); }
    } else {
      InvalidIsOut(c, b, j, id);
      AtMostOnce(c, b, j, msg);
      forall t | 0 <= t < |s.tasks| ensures msg !in Originals(s.tasks[t].msgs) {
        if msg in Originals(s.tasks[t].msgs) { BatchedIsAccepted(c, b, j, t, msg); }
      }
    }
  }

  lemma InvalidIsOut(c: Conf, b: Behavior, j: nat, id: nat)
    requires IsRun(c, b) && j < |b.states| && id in b.states[j].calls && b.states[j].calls[id].CallInvalid?
    ensures b.states[j].calls[id].msg !in b.states[j].accepted
  {
    hide Staged, ClosersOk, Traced, TasksOk, Linked, Locked, Counted, Logged;
    InvAlways(c, b, j);
    assert CallOk(b.states[j], id, b.states[j].calls[id]);
  }

  // ----- Close: who wins -----

  /** The call's answer to closing `quit`: too late, or it got past. */
  predicate Decided(k: Closer, late: bool) {
    if late then k.ClosedErr? else Passed(k)
  }

  function CloserRank(k: Closer): nat {
    match k
    case Closing => 3
    case Awaiting => 2
    case Disposing => 1
    case _ => 0
  }

  /** What a step, whose call it is or not, does to a `Close` call under way. */
  predicate CloserMovesOn(k: Closer, k': Closer, own: bool) {
    && CloserRank(k') + (if own then 1 else 0) <= CloserRank(k)
    && (Decided(k, true) ==> Decided(k', true))
    && (Decided(k, false) ==> Decided(k', false))
  }

  lemma CloserCallStep(c: Conf, s: State, k: Step, s': State, id: nat)
    requires Enabled(c, s, k) && s' == Stepped(c, s, k) && id in s.closers
    ensures id in s'.closers && CloserMovesOn(s.closers[id], s'.closers[id], k.ByCloser? && k.closer == id)
  {
    hide LoopStepped, LoopEnabled, CloserStepped, CloserEnabled;
    match k
    case ByLoop(l) => LoopLeavesCalls(c, s, l);
    case ByCloser(i, q) => OwnCloserStep(s, i, q, id);
    case _ =>
  }

  lemma OwnCloserStep(s: State, i: nat, q: CloserStep, id: nat)
    requires CloserEnabled(s, i, q) && id in s.closers
    ensures var s' := CloserStepped(s, i, q);
            id in s'.closers && CloserMovesOn(s.closers[id], s'.closers[id], i == id)
  {
  }

  lemma QuitDecides(s: State, id: nat)
    requires CloserEnabled(s, id, CloseQuit)
    ensures id in CloserStepped(s, id, CloseQuit).closers
    ensures Decided(CloserStepped(s, id, CloseQuit).closers[id], s.quit)
  {
  }

  /**
   * Of the calls that come to close `quit`, the first one gets past it and never returns
   * `ErrClosed`; every later one gets `ErrClosed` by that very step.
   */
  lemma {:induction false} CloseDecides(c: Conf, b: Behavior, i: nat, j: nat, id: nat)
    requires IsRun(c, b) && i < j < |b.states| && b.steps[i] == ByCloser(id, CloseQuit)
    ensures id in b.states[j].closers && Decided(b.states[j].closers[id], b.states[i].quit)
  {
    hide Init, CloserEnabled, CloserStepped, Decided, CloserRank;
    if j == i + 1 {
      assert b.states[j] == Stepped(c, b.states[i], b.steps[i]);
      QuitDecides(b.states[i], id);
    } else {
      CloseDecides(c, b, i, j - 1, id);
      CloserCallStep(c, b.states[j - 1], b.steps[j - 1], b.states[j], id);
    }
  }

  function CloserSteps(steps: seq<Step>, id: nat): nat {
    if steps == [] then 0
    else
      var last := steps[|steps| - 1];
      CloserSteps(steps[..|steps| - 1], id) + (if last.ByCloser? && last.closer == id then 1 else 0)
  }

  /**
   * A `Close` call is never stuck except while it waits for the shutdown, and in any run it has
   * returned after three steps; with `quit` already closed its next step returns `ErrClosed`.
   */
  lemma {:induction false} CloseReturns(c: Conf, b: Behavior, i: nat, j: nat, id: nat)
    requires IsRun(c, b) && i <= j < |b.states| && id in b.states[i].closers
    ensures id in b.states[j].closers
    ensures CloserSteps(b.steps[i..j], id) + CloserRank(b.states[j].closers[id]) <= CloserRank(b.states[i].closers[id]) <= 3
    ensures var s := b.states[j]; var k := s.closers[id];
            && (k.ClosedNil? || k.ClosedErr? || (k.Awaiting? && !s.shutdown) || exists q :: CloserEnabled(s, id, q))
            && (k.Closing? && s.quit ==>
                  CloserEnabled(s, id, CloseQuit) && CloserStepped(s, id, CloseQuit).closers[id].ClosedErr?)
  {
    hide Init, Enabled, Stepped, CloserRank, CloserEnabled, CloserStepped;
    if i < j {
      CloseReturns(c, b, i, j - 1, id);
      CloserCallStep(c, b.states[j - 1], b.steps[j - 1], b.states[j], id);
      assert b.steps[i..j][..j - 1 - i] == b.steps[i..j - 1];
    }
    CloserCanStep(b.states[j], id);
  }

  lemma CloserCanStep(s: State, id: nat)
    requires id in s.closers
    ensures var k := s.closers[id];
            && CloserRank(k) <= 3
            && (k.ClosedNil? || k.ClosedErr? || (k.Awaiting? && !s.shutdown) || exists q :: CloserEnabled(s, id, q))
            && (k.Closing? && s.quit ==>
                  CloserEnabled(s, id, CloseQuit) && CloserStepped(s, id, CloseQuit).closers[id].ClosedErr?)
  {
    var q := match s.closers[id] case Closing => CloseQuit case Awaiting => SeeShutdown case _ => Dispose;
    if !s.closers[id].ClosedNil? && !s.closers[id].ClosedErr? && !(s.closers[id].Awaiting? && !s.shutdown) {
      assert CloserEnabled(s, id, q);
    }
  }

  // ----- Only its own goroutine changes what a task has done -----

  predicate Own(k: Step, id: nat) {
    k.ByWorker? && k.task == id
  }

  predicate Early(pc: TaskPc) {
    pc.Offered? || pc.Queued? || pc.Marshalling? || pc.Turned?
  }

  /** Others create, queue, spawn or refuse the task; they do not touch its batch, payload or attempts. */
  predicate Untouched(s: State, s': State, id: nat) {
    && |s.tasks| <= |s'.tasks|
    && (id < |s.tasks| ==>
          var t, t' := s.tasks[id], s'.tasks[id];
          && t'.msgs == t.msgs && t'.payload == t.payload && t'.attempts == t.attempts && t'.panicked == t.panicked
          && (t' == t || (Early(t.pc) && Early(t'.pc))))
    && (|s.tasks| <= id < |s'.tasks| ==> s'.tasks[id] == NewTask(s'.tasks[id].msgs))
  }

  lemma OthersLeaveTask(c: Conf, s: State, k: Step, s': State, id: nat)
    requires Linked(s) && Enabled(c, s, k) && s' == Stepped(c, s, k) && !Own(k, id)
    ensures Untouched(s, s', id)
  {
    hide NewTask, LoopStepped, LoopEnabled;
    match k
    case ByLoop(l) => LoopLeavesTask(c, s, l, id);
    case _ =>
  }

  lemma LoopLeavesTask(c: Conf, s: State, k: LoopStep, id: nat)
    requires Linked(s) && LoopEnabled(c, s, k)
    ensures Untouched(s, LoopStepped(c, s, k), id)
  {
    hide Linked, Process, AdmitStepped, RefuseStepped, ShutStepped, Untouched, AddStepped;
    SameTasksUntouched(s, LoopStepped(c, s, k), id);
    match s.pc
    case Select => ProcessLeavesTasks(c, s, Tick, FromSelect);
    case Handling(m, o) => ProcessLeavesTasks(c, s, Got(m), o);
    case LastFlush => ProcessLeavesTasks(c, s, Tick, FromFinal);
    case Adding(_, _) => AddLeavesTask(s, id);
    case Locking(_, _) => AdmitLeavesTask(c, s, id);
    case Submitting(_, _) => AdmitLeavesTask(c, s, id);
    case Counting(_, _) => AdmitLeavesTask(c, s, id);
    case Unlocking(_, _, _) => AdmitLeavesTask(c, s, id);
    case Undoing(_, _) => RefuseLeavesTask(s, id);
    case Refusing(_, _) => RefuseLeavesTask(s, id);
    case Draining =>
    case _ => ShutLeavesTasks(s);
  }

  lemma SameTasksUntouched(s: State, s': State, id: nat)
    ensures s'.tasks == s.tasks ==> Untouched(s, s', id)
  {
  }

  lemma ProcessLeavesTasks(c: Conf, s: State, e: Event, o: Origin)
    ensures Process(c, s, e, o).tasks == s.tasks
  {
    hide StepEvent, DroppedOf;
  }

  lemma ShutLeavesTasks(s: State)
    requires Shutting(s.pc)
    ensures ShutStepped(s).tasks == s.tasks
  {
  }

  lemma AddLeavesTask(s: State, id: nat)
    requires s.pc.Adding?
    ensures Untouched(s, AddStepped(s), id)
  {
  }

  lemma AdmitLeavesTask(c: Conf, s: State, id: nat)
    requires Linked(s) && Admits(s.pc) && (s.pc.Submitting? ==> s.pc.id < |s.tasks|)
    ensures Untouched(s, AdmitStepped(c, s), id)
  {
  }

  lemma RefuseLeavesTask(s: State, id: nat)
    requires Linked(s) && (s.pc.Undoing? || s.pc.Refusing?) && s.pc.id < |s.tasks|
    ensures Untouched(s, RefuseStepped(s), id)
  {
  }

  // ----- The attempts are what the dispatcher answered -----

  function Results(attempts: seq<Attempt>): (r: seq<SendResult>)
    ensures |r| == |attempts|
    ensures forall i :: 0 <= i < |attempts| ==> r[i] == attempts[i].result
  {
    seq(|attempts|, i requires 0 <= i < |attempts| => attempts[i].result)
  }

  /** What `Dispatcher.Send` returned to this task in these steps, in order. */
  function Answers(steps: seq<Step>, id: nat): seq<SendResult> {
    if steps == [] then []
    else
      var last := steps[|steps| - 1];
      Answers(steps[..|steps| - 1], id) + (if Own(last, id) && last.w.Answer? then [last.w.result] else [])
  }

  lemma ResultsSnoc(attempts: seq<Attempt>, a: Attempt)
    ensures Results(attempts + [a]) == Results(attempts) + [a.result]
  {
  }

  lemma OwnStepTask(c: Conf, s: State, k: Step, s': State, id: nat)
    requires Enabled(c, s, k) && s' == Stepped(c, s, k) && Own(k, id)
    ensures id < |s.tasks| == |s'.tasks| && s'.tasks[id] == WorkerTask(s.tasks[id], k.w)
    ensures PipelineSteps.TaskReady(s.tasks[id], k.w, s.quit)
  {
  }

  lemma OwnStepRecords(t: Task, k: WorkerStep)
    ensures Results(WorkerTask(t, k).attempts) == Results(t.attempts) + (if k.Answer? then [k.result] else [])
  {
    if k.Answer? { ResultsSnoc(t.attempts, Attempt(t.payload, k.result)); }
  }

  /** The attempts a task records are exactly the answers it got, in order. */
  lemma {:induction false} AnswersRecorded(c: Conf, b: Behavior, j: nat, id: nat)
    requires IsRun(c, b) && j < |b.states|
    ensures Answers(b.steps[..j], id) == if id < |b.states[j].tasks| then Results(b.states[j].tasks[id].attempts) else []
  {
    if j > 0 {
      hide Inv, Enabled, Stepped, WorkerTask, Results;
      var s, k, s' := b.states[j - 1], b.steps[j - 1], b.states[j];
      assert b.steps[..j][..j - 1] == b.steps[..j - 1];
      AnswersRecorded(c, b, j - 1, id);
      if Own(k, id) {
        OwnStepTask(c, s, k, s', id);
        OwnStepRecords(s.tasks[id], k.w);
      } else {
        LinkedAlways(c, b, j - 1);
        OthersLeaveTask(c, s, k, s', id);
        ResultsOfNew();
      }
    }
  }

  lemma ResultsOfNew()
    ensures Results([]) == []
  {
  }

  lemma LinkedAlways(c: Conf, b: Behavior, j: nat)
    requires IsRun(c, b) && j < |b.states|
    ensures Linked(b.states[j]) && TasksOk(b.states[j])
  {
    hide Staged, CallsOk, ClosersOk, Traced, TasksOk, Linked, Locked, Counted, Logged;
    InvAlways(c, b, j);
  }

  // ----- send: what marshalling decides -----

  /** Beyond marshalling, and inside `send` or out of it in the ordinary way. */
  predicate PastMarshal(t: Task) {
    t.pc.Calling? || t.pc.Waiting? || t.pc.Notifying? || (After(t.pc) && !t.panicked)
  }

  predicate Ended(t: Task) {
    t.pc.Notifying? || After(t.pc)
  }

  /** The task since it marshalled its batch at this time, with this outcome. */
  predicate Marshalled(t: Task, sentAt: Bytes, ok: bool) {
    if ok then t.payload == MarshalBatch(sentAt, Some(t.msgs)) && (t.pc.Calling? || t.pc.Waiting? || Ended(t))
    else t.payload == [] && t.attempts == [] && Ended(t)
  }

  lemma OwnStepMarshalled(t: Task, k: WorkerStep, quit: bool, sentAt: Bytes, ok: bool)
    requires TaskOk(t, quit) && PipelineSteps.TaskReady(t, k, quit)
    requires Marshalled(t, sentAt, ok) || (t.pc.Marshalling? && k == Marshal(sentAt, ok))
    ensures Marshalled(WorkerTask(t, k), sentAt, ok)
  {
    hide MarshalBatch, GoodVerdict, InOrder, SamePayload;
  }

  lemma {:induction false} MarshalDecides(c: Conf, b: Behavior, i: nat, j: nat, id: nat, sentAt: Bytes, ok: bool)
    requires IsRun(c, b) && i < j < |b.states| && b.steps[i] == ByWorker(id, Marshal(sentAt, ok))
    ensures id < |b.states[j].tasks| && Marshalled(b.states[j].tasks[id], sentAt, ok)
  {
    hide Inv, Stepped, Marshalled, TaskOk, Linked;
    var s, k, s' := b.states[j - 1], b.steps[j - 1], b.states[j];
    LinkedAlways(c, b, j - 1);
    if i < j - 1 { MarshalDecides(c, b, i, j - 1, id, sentAt, ok); }
    if Own(k, id) {
      OwnStepTask(c, s, k, s', id);
      OwnStepMarshalled(s.tasks[id], k.w, s.quit, sentAt, ok);
    } else {
      OthersLeaveTask(c, s, k, s', id);
      MarshalledIsLate(s.tasks[id], sentAt, ok);
    }
  }

  lemma MarshalledIsLate(t: Task, sentAt: Bytes, ok: bool)
    requires Marshalled(t, sentAt, ok)
    ensures !Early(t.pc)
  {
  }

  /** Whoever is past marshalling has marshalled. */
  lemma {:induction false} MarshalHappened(c: Conf, b: Behavior, j: nat, id: nat) returns (i: nat, sentAt: Bytes, ok: bool)
    requires IsRun(c, b) && j < |b.states| && id < |b.states[j].tasks| && PastMarshal(b.states[j].tasks[id])
    ensures i < j && b.steps[i] == ByWorker(id, Marshal(sentAt, ok)) && |sentAt| == SENT_AT_LENGTH
  {
    hide Inv, Stepped, WorkerTask, Linked, TaskOk;
    if j == 0 {
      assert false;
    } else {
      var s, k, s' := b.states[j - 1], b.steps[j - 1], b.states[j];
      LinkedAlways(c, b, j - 1);
      if Own(k, id) {
        OwnStepTask(c, s, k, s', id);
        OwnStepPast(s.tasks[id], k.w, s.quit);
        if k.w.Marshal? {
          i, sentAt, ok := j - 1, k.w.sentAt, k.w.ok;
        } else {
          i, sentAt, ok := MarshalHappened(c, b, j - 1, id);
        }
      } else {
        OthersLeaveTask(c, s, k, s', id);
        i, sentAt, ok := MarshalHappened(c, b, j - 1, id);
      }
    }
  }

  lemma OwnStepPast(t: Task, k: WorkerStep, quit: bool)
    requires TaskOk(t, quit) && PipelineSteps.TaskReady(t, k, quit) && PastMarshal(WorkerTask(t, k))
    ensures k.Marshal? || PastMarshal(t)
  {
  }

  /** What `send` owes a batch it marshalled, or failed to, once it has returned. */
  ghost predicate SendDone(t: Task, sentAt: Bytes, ok: bool, answers: seq<SendResult>) {
    && t.notified == |t.msgs|
    && t.verdict.Some?
    && Results(t.attempts) == answers
    && (if ok then
          && 1 <= |answers| <= 10
          && (forall i :: 0 <= i < |t.attempts| ==> IsRequest(t.attempts[i].payload, sentAt, t.msgs))
          && (forall i :: 0 <= i < |answers| - 1 ==> answers[i].Refused?)
          && (match answers[|answers| - 1]
              case Delivered => t.verdict.value == Success
              case Refused(code) => t.verdict.value == Failure(SendFailed(code)))
        else answers == [] && t.verdict.value == Failure(MarshalFailed))
  }

  lemma MarshalledDone(t: Task, quit: bool, sentAt: Bytes, ok: bool)
    requires TaskOk(t, quit) && After(t.pc) && !t.panicked && Marshalled(t, sentAt, ok) && |sentAt| == SENT_AT_LENGTH
    ensures SendDone(t, sentAt, ok, Results(t.attempts))
  {
    hide MarshalBatch, IsRequest;
    MarshalIsRequest(sentAt, t.msgs);
    RequestIsNotEmpty(MarshalBatch(sentAt, Some(t.msgs)), sentAt, t.msgs);
    if ok { assert ResolvedBy(t.attempts, t.verdict.value); }
  }

  lemma RequestIsNotEmpty(p: Bytes, sentAt: Bytes, ms: seq<Message>)
    requires IsRequest(p, sentAt, ms)
    ensures p != []
  {
  }

  /**
   * The whole of `send`, in every interleaving: a task that has left it without a panic marshalled
   * its batch once before. If that worked, it called `Dispatcher.Send` between one and ten times,
   * each time with the request for its batch, and the answers it got, in order, settle the one
   * verdict its messages were notified with; if it did not, nothing was sent and they failed.
   */
  lemma SendOutcome(c: Conf, b: Behavior, j: nat, id: nat) returns (i: nat, sentAt: Bytes, ok: bool)
    requires IsRun(c, b) && j < |b.states| && id < |b.states[j].tasks|
    requires After(b.states[j].tasks[id].pc) && !b.states[j].tasks[id].panicked
    ensures i < j && b.steps[i] == ByWorker(id, Marshal(sentAt, ok))
    ensures SendDone(b.states[j].tasks[id], sentAt, ok, Answers(b.steps[..j], id))
  {
    hide Inv, Stepped, Enabled, Init, SendDone, Marshalled, TaskOk, Linked;
    i, sentAt, ok := MarshalHappened(c, b, j, id);
    SendOutcomeAfter(c, b, i, j, id, sentAt, ok);
  }

  /** The same, told forward from the step that marshalled the batch. */
  lemma SendOutcomeAfter(c: Conf, b: Behavior, i: nat, j: nat, id: nat, sentAt: Bytes, ok: bool)
    requires IsRun(c, b) && i < j < |b.states| && b.steps[i] == ByWorker(id, Marshal(sentAt, ok))
    ensures id < |b.states[j].tasks|
    ensures After(b.states[j].tasks[id].pc) && !b.states[j].tasks[id].panicked ==>
              SendDone(b.states[j].tasks[id], sentAt, ok, Answers(b.steps[..j], id))
  {
    hide Inv, Stepped, Init, SendDone, Marshalled, TaskOk, Linked;
    MarshalDecides(c, b, i, j, id, sentAt, ok);
    LinkedAlways(c, b, j);
    AnswersRecorded(c, b, j, id);
    if After(b.states[j].tasks[id].pc) && !b.states[j].tasks[id].panicked {
      MarshalledDone(b.states[j].tasks[id], b.states[j].quit, sentAt, ok);
    }
  }

  // ----- send: the client closed between two attempts -----

  lemma OwnStepEnded(t: Task, k: WorkerStep, quit: bool)
    requires PipelineSteps.TaskReady(t, k, quit)
    ensures k.SeeQuit? ==> Ended(WorkerTask(t, k)) && quit && WorkerTask(t, k).attempts == t.attempts
    ensures Ended(t) ==> !k.Answer? && Ended(WorkerTask(t, k)) && WorkerTask(t, k).attempts == t.attempts
                         && WorkerTask(t, k).verdict == t.verdict
  {
  }

  /** Once `send` has begun to notify, its attempts and its verdict are final. */
  lemma {:induction false} EndedStays(c: Conf, b: Behavior, i: nat, j: nat, id: nat)
    requires IsRun(c, b) && i <= j < |b.states| && id < |b.states[i].tasks| && Ended(b.states[i].tasks[id])
    ensures id < |b.states[j].tasks| && Ended(b.states[j].tasks[id])
    ensures b.states[j].tasks[id].attempts == b.states[i].tasks[id].attempts
    ensures b.states[j].tasks[id].verdict == b.states[i].tasks[id].verdict
  {
    if i < j {
      hide Inv, Enabled, Stepped, WorkerTask, Linked, TasksOk, Ended, PipelineSteps.TaskReady;
      var s, k, s' := b.states[j - 1], b.steps[j - 1], b.states[j];
      EndedStays(c, b, i, j - 1, id);
      LinkedAlways(c, b, j - 1);
      if Own(k, id) {
        OwnStepTask(c, s, k, s', id);
        OwnStepEnded(s.tasks[id], k.w, s.quit);
      } else {
        OthersLeaveTask(c, s, k, s', id);
        EndedIsLate(s.tasks[id]);
      }
    }
  }

  lemma EndedIsLate(t: Task)
    ensures Ended(t) ==> !Early(t.pc)
  {
  }

  /** When a task finds the client closed between two attempts, it never calls `Send` again, and keeps its verdict. */
  lemma QuitEndsSend(c: Conf, b: Behavior, i: nat, j: nat, id: nat)
    requires IsRun(c, b) && i < j < |b.steps| && b.steps[i] == ByWorker(id, SeeQuit)
    ensures b.states[i].quit
    ensures !(Own(b.steps[j], id) && b.steps[j].w.Answer?)
    ensures Answers(b.steps[..j], id) == Answers(b.steps[..i], id)
  {
    hide Inv, Stepped, WorkerTask, Init;
    OwnStepTask(c, b.states[i], b.steps[i], b.states[i + 1], id);
    OwnStepEnded(b.states[i].tasks[id], SeeQuit, b.states[i].quit);
    EndedStays(c, b, i + 1, j, id);
    AnswersRecorded(c, b, i, id);
    AnswersRecorded(c, b, j, id);
    if Own(b.steps[j], id) {
      OwnStepTask(c, b.states[j], b.steps[j], b.states[j + 1], id);
      OwnStepEnded(b.states[j].tasks[id], b.steps[j].w, b.states[j].quit);
    }
  }

  // ----- The wire -----

  /** Every request of every run is the request for its task's batch, with the messages in order. */
  lemma OnTheWire(c: Conf, b: Behavior, j: nat, id: nat, k: nat) returns (sentAt: Bytes)
    requires IsRun(c, b) && j < |b.states| && id < |b.states[j].tasks| && k < |b.states[j].tasks[id].attempts|
    ensures IsRequest(b.states[j].tasks[id].attempts[k].payload, sentAt, b.states[j].tasks[id].msgs)
  {
    hide Inv, Init, Follows, IsRequest, InOrder, MarshalBatch, SentProperly;
    var t := b.states[j].tasks[id];
    RetryDiscipline(c, b, j, id);
    sentAt :| |sentAt| == SENT_AT_LENGTH && SamePayload(t.attempts, MarshalBatch(sentAt, Some(t.msgs)));
    LinkedAlways(c, b, j);
    assert TaskOk(t, b.states[j].quit);
    MarshalIsRequest(sentAt, t.msgs);
  }

  // ----- What a callback means -----

  /** The callback is the task's, for one of its messages, and says what became of its requests. */
  ghost predicate Explains(s: State, n: Note, id: nat) {
    && id < |s.tasks|
    && var t := s.tasks[id];
    && n.m in Originals(t.msgs)
    && t.verdict == Some(n.verdict)
    && var last := |t.attempts| - 1;
    match n.verdict
    case Success => t.attempts != [] && t.attempts[last].result.Delivered?
    case Failure(e) =>
      || (e == TooManyRequests && t.pc.Turned? && t.attempts == [])
      || (e == MarshalFailed && t.attempts == [])
      || (e.SendFailed? && t.attempts != [] && t.attempts[last].result == Refused(e.code))
  }

  lemma {:induction false} GatherOwner(tasks: seq<Task>, n: Note) returns (id: nat)
    requires n in Gather(tasks, NotesOf)
    ensures id < |tasks| && n in NotesOf(tasks[id])
  {
    var last := |tasks| - 1;
    if n in NotesOf(tasks[last]) { id := last; } else { id := GatherOwner(tasks[..last], n); }
  }

  lemma OwnerExplains(s: State, n: Note, id: nat)
    requires TasksOk(s) && id < |s.tasks| && n in NotesOf(s.tasks[id])
    ensures Explains(s, n, id)
  {
    var t := s.tasks[id];
    assert TaskOk(t, s.quit);
    var notes := NotesFor(t.msgs, t.verdict.value)[..t.notified];
    var i :| 0 <= i < |notes| && notes[i] == n;
    assert Originals(t.msgs)[i] == n.m;
  }

  /**
   * Every callback is true: a success means that the last request of the message's batch was
   * delivered, a failure that it was refused with this error, or never made for the reason given.
   */
  lemma CallbackIsTrue(c: Conf, b: Behavior, j: nat, n: Note)
    requires IsRun(c, b) && j < |b.states| && n in b.states[j].log
    ensures (!Fits(n.m) && n.verdict == Failure(Reason(n.m))) || exists id :: Explains(b.states[j], n, id)
  {
    hide Staged, CallsOk, ClosersOk, Traced, TasksOk, Linked, Locked, Counted, Explains, NotesOf, Fits, Reason;
    var s := b.states[j];
    InvAlways(c, b, j);
    KeptExactly(s.trace);
    assert n in multiset(s.log);
    if n in Dropped(s.trace) {
      var i :| 0 <= i < |Dropped(s.trace)| && Dropped(s.trace)[i] == n;
    } else {
      var id := GatherOwner(s.tasks, n);
      OwnerExplains(s, n, id);
    }
  }

  lemma {:induction false} UnfitIsOnly(msgs: seq<Msg>, m: Msg)
    requires m in msgs && !Fits(m)
    ensures m in OnlyFitting(msgs, false)
  {
    var n := |msgs| - 1;
    if msgs[n] != m { UnfitIsOnly(msgs[..n], m); }
  }

  /**
   * A message that does not encode in 32000 bytes has failed, with its reason, once the loop has
   * handled it, and so have all that were accepted once the client has shut down.
   */
  lemma UnfitFails(c: Conf, b: Behavior, j: nat, m: Msg)
    requires IsRun(c, b) && j < |b.states| && !Fits(m)
    requires m in Received(b.states[j].trace) || (b.states[j].shutdown && m in b.states[j].accepted)
    ensures Note(m, Failure(Reason(m))) in b.states[j].log
  {
    hide Staged, CallsOk, ClosersOk, Traced, TasksOk, Linked, Locked, Counted, NotesOf, Fits, Reason;
    var s := b.states[j];
    InvAlways(c, b, j);
    if s.shutdown { BatchesAtShutdown(c, b, j); }
    KeptExactly(s.trace);
    UnfitIsOnly(Received(s.trace), m);
    var i :| 0 <= i < |Subjects(Dropped(s.trace))| && Subjects(Dropped(s.trace))[i] == m;
    assert Dropped(s.trace)[i] == Note(m, Failure(Reason(m)));
    assert Note(m, Failure(Reason(m))) in multiset(s.log);
  }
}
