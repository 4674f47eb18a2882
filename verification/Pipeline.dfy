/**
 * The client as a transition system: any number of `Enqueue` and `Close` calls, the event loop,
 * the executor's loop and one goroutine per admitted batch, interleaved step by step
 * (internal/core/analytics.go, internal/core/executor.go, internal/queue/channel.go).
 */
module Pipeline {
  import opened Messages
  import opened Batching
  import opened EventTrace
  import opened Retry
  import opened Executors
  import Channels

  /** `batch` holds the batcher's limits, `execCap` the limit on concurrent requests. */
  datatype Conf = Conf(queueCap: nat, batch: Limits, execCap: nat)

  /** What `makeConfig` and `NewChannelQueue` guarantee. */
  predicate ValidConf(c: Conf) {
    c.queueCap >= 1 && c.batch.count >= 1 && c.execCap >= 1
  }

  // ----- Application calls -----

  datatype EnqueueResult = Accepted | ErrClosed | RawQueueError

  /**
   * An `Enqueue` call: refused by validation, about to read the flag, about to send, about to ask
   * `IsClosed`, or returned.
   */
  datatype Call =
    | CallInvalid(msg: Msg)
    | CallChecking(msg: Msg)
    | CallSending(msg: Msg)
    | CallFailed(msg: Msg)
    | CallReturned(msg: Msg, result: EnqueueResult)

  /** A `Close` call: about to close `quit`, waiting for `shutdown`, closing the dispatcher, returned. */
  datatype Closer = Closing | Awaiting | Disposing | ClosedNil | ClosedErr

  // ----- The event loop -----

  /** Where `push` and `flush` were called from, and so where they return to. */
  datatype Origin = FromSelect | FromDrain | FromFinal

  datatype Pc =
    | Select
    | Handling(m: Msg, origin: Origin)
    | Adding(batch: seq<Message>, origin: Origin)
    | Locking(id: nat, origin: Origin)
    | Submitting(id: nat, origin: Origin)
    | Counting(id: nat, origin: Origin)
    | Unlocking(id: nat, origin: Origin, ok: bool)
    | Undoing(id: nat, origin: Origin)
    | Refusing(id: nat, origin: Origin)
    | StoringFlag
    | ClosingChan
    | Draining
    | LastFlush
    | ExClosing
    | TickStopping
    | WgWaiting
    | ShuttingDown
    | Exited

  // ----- Tasks -----

  datatype TaskPc =
    | Offered        // given to `do`, not admitted yet
    | Queued         // in the task channel
    | Marshalling
    | Calling        // about to call `Dispatcher.Send`
    | Waiting        // in the select between two attempts
    | Notifying
    | Leaving        // about to call `wg.Done`
    | Finishing      // about to lock in `executor.done`
    | Decrementing
    | Releasing
    | Done
    | Turned         // refused by `do`

  datatype Task = Task(
    msgs: seq<Message>,
    pc: TaskPc,
    payload: Bytes,
    attempts: seq<Attempt>,
    verdict: Option<Verdict>,
    notified: nat,
    panicked: bool,
    runs: nat)

  function NewTask(msgs: seq<Message>): Task {
    Task(msgs, Offered, [], [], None, 0, false, 0)
  }

  /** `tasks` holds one entry per `sendAsync` call; `accepted`, `trace` and `log` are histories. */
  datatype State = State(
    calls: map<nat, Call>,
    closers: map<nat, Closer>,
    chan: Channels.Chan<Msg>,
    quit: bool,
    shutdown: bool,
    disposals: nat,
    pc: Pc,
    mq: Queue,
    wg: int,
    tasks: seq<Task>,
    ex: Exec,
    accepted: seq<Msg>,
    trace: seq<Event>,
    log: seq<Note>)

  predicate Init(s: State) {
    s == State(map[], map[], Channels.Chan([], false, false), false, false, 0, Select, EMPTY, 0, [],
               Exec([], false, 0, Free, false), [], [], [])
  }

  // ----- Steps of Enqueue -----

  datatype ProducerStep = StartEnqueue(msg: Msg, valid: bool) | CheckFlag | SendMessage | SendPanics | AskClosed

  predicate ProducerEnabled(c: Conf, s: State, id: nat, k: ProducerStep) {
    match k
    case StartEnqueue(msg, _) => id !in s.calls && msg.call == id
    case CheckFlag => id in s.calls && s.calls[id].CallChecking?
    case SendMessage => id in s.calls && s.calls[id].CallSending? && !s.chan.closed && Channels.HasRoom(c.queueCap, s.chan)
    case SendPanics => id in s.calls && s.calls[id].CallSending? && s.chan.closed
    case AskClosed => id in s.calls && s.calls[id].CallFailed?
  }

  function ProducerCall(s: State, id: nat, k: ProducerStep): Call
    requires k.StartEnqueue? || id in s.calls
  {
    match k
    case StartEnqueue(msg, valid) => if valid then CallChecking(msg) else CallInvalid(msg)
    case CheckFlag => if s.chan.flag then CallFailed(s.calls[id].msg) else CallSending(s.calls[id].msg)
    case SendMessage => CallReturned(s.calls[id].msg, Accepted)
    case SendPanics => CallFailed(s.calls[id].msg)
    case AskClosed => CallReturned(s.calls[id].msg, if s.chan.flag then ErrClosed else RawQueueError)
  }

  function ProducerStepped(c: Conf, s: State, id: nat, k: ProducerStep): State
    requires ProducerEnabled(c, s, id, k)
  {
    var s1 := s.(calls := s.calls[id := ProducerCall(s, id, k)]);
    if k.SendMessage? then
      var msg := s.calls[id].msg;
      s1.(chan := Channels.Sent(s.chan, msg), accepted := s.accepted + [msg])
    else s1
  }

  // ----- Steps of Close -----

  datatype CloserStep = StartClose | CloseQuit | SeeShutdown | Dispose

  predicate CloserEnabled(s: State, id: nat, k: CloserStep) {
    match k
    case StartClose => id !in s.closers
    case CloseQuit => id in s.closers && s.closers[id].Closing?
    case SeeShutdown => id in s.closers && s.closers[id].Awaiting? && s.shutdown
    case Dispose => id in s.closers && s.closers[id].Disposing?
  }

  function CloserStepped(s: State, id: nat, k: CloserStep): State
    requires CloserEnabled(s, id, k)
  {
    match k
    case StartClose => s.(closers := s.closers[id := Closing])
    case CloseQuit =>
      // Closing a closed channel panics; the panic is recovered into ErrClosed.
      if s.quit then s.(closers := s.closers[id := ClosedErr])
      else s.(closers := s.closers[id := Awaiting], quit := true)
    case SeeShutdown => s.(closers := s.closers[id := Disposing])
    case Dispose => s.(closers := s.closers[id := ClosedNil], disposals := s.disposals + 1)
  }

  // ----- Steps of the event loop -----

  /** At the select one of three cases is taken; anywhere else there is one way on. */
  datatype LoopStep = TakeMessage | TakeTick | TakeQuit | Proceed

  function Return(o: Origin): Pc {
    match o
    case FromSelect => Select
    case FromDrain => Draining
    case FromFinal => ExClosing
  }

  predicate LoopEnabled(c: Conf, s: State, k: LoopStep) {
    match s.pc
    case Select =>
      (match k
       case TakeMessage => s.chan.buf != []
       case TakeTick => true
       case TakeQuit => s.quit
       case Proceed => false)
    case Locking(id, _) => k.Proceed? && id < |s.tasks| && s.ex.holder.Free?
    case Submitting(id, _) => k.Proceed? && id < |s.tasks| && CanSubmit(s.ex)
    case Undoing(id, _) => k.Proceed? && id < |s.tasks|
    case Refusing(id, _) => k.Proceed? && id < |s.tasks|
    case Draining => k.Proceed? && (s.chan.buf != [] || s.chan.closed)
    case WgWaiting => k.Proceed? && s.wg == 0
    case Exited => false
    case _ => k.Proceed?
  }

  /** Takes the next message out of the channel. */
  function Take(s: State, o: Origin): State
    requires s.chan.buf != []
  {
    s.(chan := Channels.Taken(s.chan), pc := Handling(s.chan.buf[0], o))
  }

  /** Puts one event through the batcher and goes on to `sendAsync` if a batch came out. */
  function Process(c: Conf, s: State, e: Event, o: Origin): State {
    var r := StepEvent(c.batch, s.mq, e);
    s.(trace := s.trace + [e], mq := r.queue, log := s.log + DroppedOf(e),
       pc := if r.batches == [] then Return(o) else Adding(r.batches[0], o))
  }

  function WithTask(s: State, id: nat, t: Task): State
    requires id < |s.tasks|
  {
    s.(tasks := s.tasks[id := t])
  }

  /** `sendAsync` starts: the wait group grows and the batch becomes a task. */
  function AddStepped(s: State): State
    requires s.pc.Adding?
  {
    s.(wg := s.wg + 1, tasks := s.tasks + [NewTask(s.pc.batch)], pc := Locking(|s.tasks|, s.pc.origin))
  }

  /** `executor.do`: lock and test, send, increment, unlock. */
  function AdmitStepped(c: Conf, s: State): State
    requires s.pc.Locking? || s.pc.Submitting? || s.pc.Counting? || s.pc.Unlocking?
    requires s.pc.id < |s.tasks| || !s.pc.Submitting?
  {
    match s.pc
    case Locking(id, o) =>
      s.(ex := MutexTaken(s.ex, EventLoop),
         pc := if HasSlot(c.execCap, s.ex) then Submitting(id, o) else Unlocking(id, o, false))
    case Submitting(id, o) =>
      s.(tasks := s.tasks[id := s.tasks[id].(pc := Queued)],
         ex := TaskSent(s.ex, id),
         pc := Counting(id, o))
    case Counting(id, o) => s.(ex := SizeUp(s.ex), pc := Unlocking(id, o, true))
    case Unlocking(id, o, ok) => s.(ex := MutexFreed(s.ex), pc := if ok then Return(o) else Undoing(id, o))
  }

  /** `do` returned false: the wait group shrinks and every message of the batch fails. */
  function RefuseStepped(s: State): State
    requires s.pc.Undoing? || s.pc.Refusing?
    requires s.pc.id < |s.tasks|
  {
    var t := s.tasks[s.pc.id];
    if s.pc.Undoing? then
      s.(tasks := s.tasks[s.pc.id := t.(pc := Turned, verdict := Some(Failure(TooManyRequests)))],
         wg := s.wg - 1,
         pc := Refusing(s.pc.id, s.pc.origin))
    else if t.notified < |t.msgs| then
      s.(tasks := s.tasks[s.pc.id := t.(notified := t.notified + 1)],
         log := s.log + [Note(t.msgs[t.notified].msg, Failure(TooManyRequests))])
    else s.(pc := Return(s.pc.origin))
  }

  predicate Shutting(pc: Pc) {
    pc.StoringFlag? || pc.ClosingChan? || pc.ExClosing? || pc.TickStopping? || pc.WgWaiting? || pc.ShuttingDown?
  }

  /** Closing the queue before the drain, and the deferred calls after the last flush. */
  function ShutStepped(s: State): State
    requires Shutting(s.pc)
  {
    match s.pc
    case StoringFlag => s.(chan := Channels.FlagStored(s.chan), pc := ClosingChan)
    case ClosingChan => s.(chan := Channels.ChanClosed(s.chan), pc := Draining)
    case ExClosing => s.(ex := QueueShut(s.ex), pc := TickStopping)
    case TickStopping => s.(pc := WgWaiting)
    case WgWaiting => s.(pc := ShuttingDown)
    case ShuttingDown => s.(shutdown := true, pc := Exited)
  }

  function LoopStepped(c: Conf, s: State, k: LoopStep): State
    requires LoopEnabled(c, s, k)
  {
    match s.pc
    case Select =>
      (match k
       case TakeMessage => Take(s, FromSelect)
       case TakeTick => Process(c, s, Tick, FromSelect)
       case _ => s.(pc := StoringFlag))
    case Handling(m, o) => Process(c, s, Got(m), o)
    case Adding(_, _) => AddStepped(s)
    case Locking(_, _) => AdmitStepped(c, s)
    case Submitting(_, _) => AdmitStepped(c, s)
    case Counting(_, _) => AdmitStepped(c, s)
    case Unlocking(_, _, _) => AdmitStepped(c, s)
    case Undoing(_, _) => RefuseStepped(s)
    case Refusing(_, _) => RefuseStepped(s)
    case Draining => if s.chan.buf != [] then Take(s, FromDrain) else s.(pc := LastFlush)
    case LastFlush => Process(c, s, Tick, FromFinal)
    case _ => ShutStepped(s)
  }

  // ----- Steps of the executor's loop -----

  datatype RunnerStep = Spawn | EndLoop

  predicate RunnerEnabled(s: State, k: RunnerStep) {
    match k
    case Spawn => s.ex.queue != [] && s.ex.queue[0] < |s.tasks|
    case EndLoop => s.ex.queue == [] && s.ex.closed && !s.ex.exited
  }

  function RunnerStepped(s: State, k: RunnerStep): State
    requires RunnerEnabled(s, k)
  {
    match k
    case Spawn =>
      var t := s.tasks[s.ex.queue[0]];
      WithTask(s, s.ex.queue[0], t.(pc := Marshalling, runs := t.runs + 1)).(ex := TaskReceived(s.ex))
    case EndLoop => s.(ex := LoopEnded(s.ex))
  }

  // ----- Steps of a task's goroutine -----

  datatype WorkerStep =
    | Marshal(sentAt: Bytes, ok: bool)
    | Answer(result: SendResult)
    | TimerFires
    | SeeQuit
    | NotifyNext
    | EndSend
    | Panic
    | WgDone
    | Lock
    | Decrement
    | Unlock

  predicate WorkerEnabled(s: State, id: nat, k: WorkerStep) {
    && id < |s.tasks|
    && var t := s.tasks[id];
       match k
       case Marshal(sentAt, _) => t.pc.Marshalling? && |sentAt| == SENT_AT_LENGTH
       case Answer(_) => t.pc.Calling?
       case TimerFires => t.pc.Waiting?
       case SeeQuit => t.pc.Waiting? && s.quit
       case NotifyNext => t.pc.Notifying? && t.notified < |t.msgs|
       case EndSend => t.pc.Notifying? && t.notified == |t.msgs|
       case Panic => t.pc.Marshalling? || t.pc.Calling? || t.pc.Waiting? || t.pc.Notifying?
       case WgDone => t.pc.Leaving?
       case Lock => t.pc.Finishing? && s.ex.holder.Free?
       case Decrement => t.pc.Decrementing?
       case Unlock => t.pc.Releasing?
  }

  /** The error of the last attempt, as a verdict. */
  function LastVerdict(attempts: seq<Attempt>): Verdict {
    if attempts != [] && attempts[|attempts| - 1].result.Refused?
    then Failure(SendFailed(attempts[|attempts| - 1].result.code)) else Success
  }

  function WorkerTask(t: Task, k: WorkerStep): Task {
    match k
    case Marshal(sentAt, ok) =>
      if ok then t.(pc := Calling, payload := MarshalBatch(sentAt, Some(t.msgs)))
      else t.(pc := Notifying, verdict := Some(Failure(MarshalFailed)))
    case Answer(r) =>
      var t1 := t.(attempts := t.attempts + [Attempt(t.payload, r)]);
      if r.Delivered? then t1.(pc := Notifying, verdict := Some(Success)) else t1.(pc := Waiting)
    case TimerFires =>
      if |t.attempts| < ATTEMPTS then t.(pc := Calling)
      else t.(pc := Notifying, verdict := Some(LastVerdict(t.attempts)))
    case SeeQuit => t.(pc := Notifying, verdict := Some(LastVerdict(t.attempts)))
    case NotifyNext => t.(notified := t.notified + 1)
    case EndSend => t.(pc := Leaving)
    case Panic => t.(pc := Leaving, panicked := true)
    case WgDone => t.(pc := Finishing)
    case Lock => t.(pc := Decrementing)
    case Decrement => t.(pc := Releasing)
    case Unlock => t.(pc := Done)
  }

  /** The callback a step makes, if it makes one. */
  function WorkerNotes(t: Task, k: WorkerStep): seq<Note> {
    if k.NotifyNext? && t.notified < |t.msgs| && t.verdict.Some?
    then [Note(t.msgs[t.notified].msg, t.verdict.value)] else []
  }

  function WorkerExec(ex: Exec, id: nat, k: WorkerStep): Exec {
    match k
    case Lock => MutexTaken(ex, Worker(id))
    case Decrement => SizeDown(ex)
    case Unlock => MutexFreed(ex)
    case _ => ex
  }

  function WorkerStepped(s: State, id: nat, k: WorkerStep): State
    requires WorkerEnabled(s, id, k)
  {
    WithTask(s, id, WorkerTask(s.tasks[id], k))
    .(log := s.log + WorkerNotes(s.tasks[id], k),
      wg := if k.WgDone? then s.wg - 1 else s.wg,
      ex := WorkerExec(s.ex, id, k))
  }

  // ----- The whole system -----

  datatype Step =
    | ByProducer(call: nat, p: ProducerStep)
    | ByCloser(closer: nat, q: CloserStep)
    | ByLoop(l: LoopStep)
    | ByRunner(r: RunnerStep)
    | ByWorker(task: nat, w: WorkerStep)

  /** The steps the client takes on its own, once it has been called. */
  predicate Internal(k: Step) {
    k.ByLoop? || k.ByRunner? || k.ByWorker?
  }

  predicate Enabled(c: Conf, s: State, k: Step) {
    match k
    case ByProducer(id, p) => ProducerEnabled(c, s, id, p)
    case ByCloser(id, q) => CloserEnabled(s, id, q)
    case ByLoop(l) => LoopEnabled(c, s, l)
    case ByRunner(r) => RunnerEnabled(s, r)
    case ByWorker(id, w) => WorkerEnabled(s, id, w)
  }

  function Stepped(c: Conf, s: State, k: Step): State
    requires Enabled(c, s, k)
  {
    match k
    case ByProducer(id, p) => ProducerStepped(c, s, id, p)
    case ByCloser(id, q) => CloserStepped(s, id, q)
    case ByLoop(l) => LoopStepped(c, s, l)
    case ByRunner(r) => RunnerStepped(s, r)
    case ByWorker(id, w) => WorkerStepped(s, id, w)
  }

  /** A run: the states it goes through and the steps between them. */
  datatype Behavior = Behavior(states: seq<State>, steps: seq<Step>)

  /** Consecutive states are one enabled step apart. */
  ghost predicate Follows(c: Conf, b: Behavior) {
    && |b.states| == |b.steps| + 1
    && forall i :: 0 <= i < |b.steps| ==>
         Enabled(c, b.states[i], b.steps[i]) && b.states[i + 1] == Stepped(c, b.states[i], b.steps[i])
  }

  /** A run of a client from its creation on. */
  ghost predicate IsRun(c: Conf, b: Behavior) {
    ValidConf(c) && Follows(c, b) && Init(b.states[0])
  }
}
