/** What every reachable state of the client satisfies. */
module PipelineInvariant {
  import opened Messages
  import opened Batching
  import opened EventTrace
  import opened Retry
  import opened Executors
  import opened Pipeline
  import opened TaskSums

  // ----- The event loop's progress -----

  function OriginPhase(o: Origin): nat {
    match o
    case FromSelect => 0
    case FromDrain => 3
    case FromFinal => 5
  }

  /** How far the event loop has come: 0 while it selects, 10 when it has exited. */
  function Phase(pc: Pc): nat {
    match pc
    case Select => 0
    case StoringFlag => 1
    case ClosingChan => 2
    case Draining => 3
    case LastFlush => 4
    case ExClosing => 6
    case TickStopping => 7
    case WgWaiting => 8
    case ShuttingDown => 9
    case Exited => 10
    case _ => OriginPhase(pc.origin)
  }

  predicate Staged(c: Conf, s: State) {
    var p := Phase(s.pc);
    && (s.chan.flag <==> p >= 2)
    && (s.chan.closed <==> p >= 3)
    && (s.ex.closed <==> p >= 7)
    && (s.shutdown <==> p >= 10)
    && (p >= 1 ==> s.quit)
    && (p >= 4 ==> s.chan.buf == [])
    && (p >= 5 ==> s.mq.pending == [])
    && (p >= 9 ==> s.wg == 0)
    && (s.pc.Handling? ==> !s.pc.origin.FromFinal?)
    && |s.chan.buf| <= c.queueCap
  }

  // ----- Enqueue calls -----

  predicate CallOk(s: State, id: nat, k: Call) {
    && k.msg.call == id
    && (k.CallFailed? ==> s.chan.flag)
    && (k.CallReturned? ==> k.result != RawQueueError)
    && (k.CallReturned? && k.result == ErrClosed ==> s.chan.flag)
    && (k.CallReturned? && k.result == Accepted <==> k.msg in s.accepted)
  }

  ghost predicate CallsOk(s: State) {
    && (forall id :: id in s.calls ==> CallOk(s, id, s.calls[id]))
    && (forall m :: m in s.accepted ==> m.call in s.calls && s.calls[m.call].msg == m)
    && (forall i, j :: 0 <= i < j < |s.accepted| ==> s.accepted[i] != s.accepted[j])
  }

  // ----- Close calls -----

  /** The call got past closing `quit`. */
  predicate Passed(k: Closer) {
    k.Awaiting? || k.Disposing? || k.ClosedNil?
  }

  ghost predicate ClosersOk(s: State) {
    && (forall i, j :: i in s.closers && j in s.closers && Passed(s.closers[i]) && Passed(s.closers[j]) ==> i == j)
    && (forall i :: i in s.closers && (Passed(s.closers[i]) || s.closers[i].ClosedErr?) ==> s.quit)
    && (forall i :: i in s.closers && (s.closers[i].Disposing? || s.closers[i].ClosedNil?) ==> s.shutdown)
    && (forall i :: i in s.closers && s.closers[i].ClosedNil? ==> s.disposals == 1)
    && (s.quit ==> exists i :: i in s.closers && Passed(s.closers[i]))
    && ((forall i :: i in s.closers ==> !s.closers[i].ClosedNil?) ==> s.disposals == 0)
  }

  // ----- Where the messages are -----

  /** The message the loop has taken out of the queue and not handled yet. */
  function InHand(pc: Pc): seq<Msg> {
    if pc.Handling? then [pc.m] else []
  }

  /** The batch on its way into `sendAsync`. */
  function OnItsWay(pc: Pc): seq<seq<Message>> {
    if pc.Adding? then [pc.batch] else []
  }

  function Batches(tasks: seq<Task>): (r: seq<seq<Message>>)
    ensures |r| == |tasks|
    ensures forall i :: 0 <= i < |tasks| ==> r[i] == tasks[i].msgs
  {
    seq(|tasks|, i requires 0 <= i < |tasks| => tasks[i].msgs)
  }

  /** Accepted messages are handled in order, and the loop does with them what `Run` says. */
  predicate Traced(c: Conf, s: State) {
    && s.accepted == Received(s.trace) + InHand(s.pc) + s.chan.buf
    && Run(c.batch, s.trace) == Outcome(Batches(s.tasks) + OnItsWay(s.pc), s.mq)
  }

  // ----- Tasks -----

  predicate Busy(pc: TaskPc) {
    pc.Marshalling? || pc.Calling? || pc.Waiting? || pc.Notifying?
  }

  predicate After(pc: TaskPc) {
    pc.Leaving? || pc.Finishing? || pc.Decrementing? || pc.Releasing? || pc.Done?
  }

  /** A verdict a task that ran may reach: a payload was made, and sent, or marshalling failed. */
  predicate GoodVerdict(t: Task, v: Verdict, quit: bool) {
    || (t.payload == [] && t.attempts == [] && v == Failure(MarshalFailed))
    || (ResolvedBy(t.attempts, v) && (v != Success && |t.attempts| < ATTEMPTS ==> quit))
  }

  predicate TaskOk(t: Task, quit: bool) {
    && 1 <= |t.msgs|
    && t.notified <= |t.msgs|
    && t.runs == (if Busy(t.pc) || After(t.pc) then 1 else 0)
    && (t.verdict.None? ==> t.notified == 0)
    && (t.panicked ==> After(t.pc))
    && SamePayload(t.attempts, t.payload)
    && InOrder(t.attempts)
    && match t.pc
       case Offered => t.payload == [] && t.attempts == [] && t.verdict.None?
       case Queued => t.payload == [] && t.attempts == [] && t.verdict.None?
       case Marshalling => t.payload == [] && t.attempts == [] && t.verdict.None?
       case Calling => AllRefused(t.attempts) && |t.attempts| < ATTEMPTS && t.verdict.None?
       case Waiting => AllRefused(t.attempts) && 1 <= |t.attempts| <= ATTEMPTS && t.verdict.None?
       case Notifying => t.verdict.Some? && GoodVerdict(t, t.verdict.value, quit)
       case Turned => t.attempts == [] && t.verdict == Some(Failure(TooManyRequests))
       case _ => (!t.panicked ==> t.verdict.Some? && t.notified == |t.msgs|)
                 && |t.attempts| <= ATTEMPTS
                 && (t.verdict.Some? ==> GoodVerdict(t, t.verdict.value, quit))
  }

  /** The payload is the wire form of the batch. */
  ghost predicate PayloadOk(t: Task) {
    t.attempts != [] || t.pc.Calling? ==>
      exists sentAt: Bytes :: |sentAt| == SENT_AT_LENGTH && t.payload == MarshalBatch(sentAt, Some(t.msgs))
  }

  ghost predicate TasksOk(s: State) {
    forall i :: 0 <= i < |s.tasks| ==> TaskOk(s.tasks[i], s.quit) && PayloadOk(s.tasks[i])
  }

  // ----- The executor -----

  /** The task the loop is offering to `do` right now. */
  function OfferedId(pc: Pc): Option<nat> {
    match pc
    case Locking(id, _) => Some(id)
    case Submitting(id, _) => Some(id)
    case Unlocking(id, _, ok) => if ok then None else Some(id)
    case Undoing(id, _) => Some(id)
    case _ => None
  }

  /** The refused task whose messages the loop is failing right now. */
  function RefusedId(pc: Pc): Option<nat> {
    if pc.Refusing? then Some(pc.id) else None
  }

  predicate LoopLocked(pc: Pc) {
    pc.Submitting? || pc.Counting? || pc.Unlocking?
  }

  /** The task channel, the tasks and the loop agree on which task is where. */
  ghost predicate LinkOk(queue: seq<nat>, tasks: seq<Task>, pc: Pc) {
    && |queue| <= 1
    && (forall i :: 0 <= i < |queue| ==> queue[i] < |tasks| && tasks[queue[i]].pc.Queued?)
    && (forall i :: 0 <= i < |tasks| && tasks[i].pc.Queued? ==> queue == [i])
    && (forall i :: 0 <= i < |tasks| ==> (tasks[i].pc.Offered? <==> OfferedId(pc) == Some(i)))
    && (OfferedId(pc).Some? ==> OfferedId(pc).value < |tasks|)
    && (RefusedId(pc).Some? ==> RefusedId(pc).value < |tasks| && tasks[RefusedId(pc).value].pc.Turned?)
    && (forall i :: 0 <= i < |tasks| && tasks[i].pc.Turned? && tasks[i].notified < |tasks[i].msgs|
          ==> RefusedId(pc) == Some(i))
  }

  ghost predicate Linked(s: State) {
    && LinkOk(s.ex.queue, s.tasks, s.pc)
    && (s.ex.exited ==> s.ex.closed && s.ex.queue == [])
  }

  /** The mutex is held by whoever is inside `do` or `done`. */
  ghost predicate Locked(s: State) {
    && (s.ex.holder.EventLoop? <==> LoopLocked(s.pc))
    && (forall i :: 0 <= i < |s.tasks| ==>
          ((s.tasks[i].pc.Decrementing? || s.tasks[i].pc.Releasing?) <==> s.ex.holder == Worker(i)))
    && (s.ex.holder.Worker? ==> s.ex.holder.id < |s.tasks|)
  }

  // ----- Counters -----

  /** Admitted, and `done` has not decremented the size for it yet. */
  function Admitted(t: Task): nat {
    if t.pc.Queued? || Busy(t.pc) || t.pc.Leaving? || t.pc.Finishing? || t.pc.Decrementing? then 1 else 0
  }

  /** Added to the wait group and not done. */
  function Open(t: Task): nat {
    if t.pc.Offered? || t.pc.Queued? || Busy(t.pc) || t.pc.Leaving? then 1 else 0
  }

  /** The admitted tasks number `size`, plus the one between the send and the increment. */
  ghost predicate Counted(c: Conf, s: State) {
    && Total(s.tasks, Admitted) == s.ex.size + (if s.pc.Counting? then 1 else 0)
    && 0 <= s.ex.size <= c.execCap
    && (s.pc.Submitting? || s.pc.Counting? ==> s.ex.size < c.execCap)
    && (s.pc.Unlocking? && !s.pc.ok ==> s.ex.size == c.execCap)
    && Total(s.tasks, Open) == s.wg
  }

  // ----- Callbacks -----

  /** One callback with this verdict for every message. */
  function NotesFor(ms: seq<Message>, v: Verdict): (r: seq<Note>)
    ensures |r| == |ms|
    ensures forall i :: 0 <= i < |ms| ==> r[i] == Note(ms[i].msg, v)
  {
    seq(|ms|, i requires 0 <= i < |ms| => Note(ms[i].msg, v))
  }

  /** The callbacks a task's batch has had so far. */
  function NotesOf(t: Task): multiset<Note> {
    if t.verdict.Some? && t.notified <= |t.msgs|
    then multiset(NotesFor(t.msgs, t.verdict.value)[..t.notified]) else multiset{}
  }

  /** The messages of the batch that have had their callback. */
  function Notified(t: Task): multiset<Msg> {
    multiset(Originals(t.msgs)[..if t.notified <= |t.msgs| then t.notified else |t.msgs|])
  }

  /** The callbacks made so far are those for dropped messages and those of the tasks. */
  ghost predicate LogOk(log: seq<Note>, trace: seq<Event>, tasks: seq<Task>) {
    && multiset(log) == multiset(Dropped(trace)) + Gather(tasks, NotesOf)
    && multiset(Subjects(log)) == multiset(Subjects(Dropped(trace))) + Gather(tasks, Notified)
  }

  ghost predicate Logged(s: State) {
    LogOk(s.log, s.trace, s.tasks)
  }

  // ----- All of it -----

  ghost predicate Inv(c: Conf, s: State) {
    && ValidConf(c)
    && Staged(c, s)
    && CallsOk(s)
    && ClosersOk(s)
    && Traced(c, s)
    && TasksOk(s)
    && Linked(s)
    && Locked(s)
    && Counted(c, s)
    && Logged(s)
  }
}
