/** Shutdown order, admission, the `Enqueue` and `Close` races and the retries, over every run. */
module PipelineSafety {
  import opened Messages
  import opened EventTrace
  import opened Retry
  import opened WireSize
  import opened Executors
  import opened Pipeline
  import opened TaskSums
  import opened PipelineInvariant
  import opened PipelineLoopSteps
  import opened PipelineTheorems

  // ----- Facts that, once true, stay true -----

  lemma {:induction false} FlagStaysSet(c: Conf, b: Behavior, i: nat, j: nat)
    requires IsRun(c, b) && i <= j < |b.states| && b.states[i].chan.flag
    ensures b.states[j].chan.flag
  {
    hide Init, Enabled, Stepped;
    if i < j {
      FlagStaysSet(c, b, i, j - 1);
      StepMonotone(c, b.states[j - 1], b.steps[j - 1], b.states[j]);
    }
  }

  lemma {:induction false} ShutdownStays(c: Conf, b: Behavior, i: nat, j: nat)
    requires IsRun(c, b) && i <= j < |b.states| && b.states[i].shutdown
    ensures b.states[j].shutdown
  {
    hide Init, Enabled, Stepped;
    if i < j {
      ShutdownStays(c, b, i, j - 1);
      StepMonotone(c, b.states[j - 1], b.steps[j - 1], b.states[j]);
    }
  }

  lemma StepMonotone(c: Conf, s: State, k: Step, s': State)
    requires Enabled(c, s, k) && s' == Stepped(c, s, k)
    ensures (s.chan.flag ==> s'.chan.flag) && (s.chan.closed ==> s'.chan.closed) && (s.shutdown ==> s'.shutdown)
  {
    if k.ByLoop? { LoopMonotone(c, s, k.l); }
  }

  lemma LoopMonotone(c: Conf, s: State, k: LoopStep)
    requires LoopEnabled(c, s, k)
    ensures s.chan.flag ==> LoopStepped(c, s, k).chan.flag
    ensures s.chan.closed ==> LoopStepped(c, s, k).chan.closed
    ensures s.shutdown ==> LoopStepped(c, s, k).shutdown
  {
    hide StepEvent, DroppedOf;
  }

  // ----- Shutdown -----

  /**
   * When `shutdown` is closed the channel is closed and empty, nothing is pending, the wait group
   * is zero and every task has made its last callback; the dispatcher is closed only then, at
   * most once.
   */
  lemma ShutdownOrder(c: Conf, b: Behavior, i: nat)
    requires IsRun(c, b) && i < |b.states|
    ensures var s := b.states[i];
            && (s.shutdown ==> s.chan.closed && Drained(s))
            && s.disposals <= 1
            && (s.disposals == 1 ==> s.shutdown)
  {
    hide CallsOk, Traced, Locked, Logged;
    InvAlways(c, b, i);
    if b.states[i].shutdown { ShutdownDrains(c, b.states[i]); }
    DisposedAfterShutdown(b.states[i]);
  }

  lemma DisposedAfterShutdown(s: State)
    requires ClosersOk(s)
    ensures s.disposals <= 1 && (s.disposals == 1 ==> s.shutdown)
  {
  }

  /** Once the dispatcher has been closed no `Send` is called and no message is notified any more. */
  lemma NoSendAfterDispose(c: Conf, b: Behavior, i: nat, j: nat)
    requires IsRun(c, b) && i <= j < |b.steps| && b.states[i].disposals == 1
    ensures b.steps[j].ByWorker? ==> !b.steps[j].w.Answer? && !b.steps[j].w.NotifyNext?
    ensures b.states[j + 1].log == b.states[j].log
  {
    hide CallsOk, Traced, Locked, Logged, Staged, ClosersOk, Counted, TasksOk, Linked;
    ShutdownOrder(c, b, i);
    ShutdownStays(c, b, i, j);
    ShutdownOrder(c, b, j);
    InvAlways(c, b, j);
    QuietAfterShutdown(c, b.states[j], b.steps[j]);
  }

  lemma QuietAfterShutdown(c: Conf, s: State, k: Step)
    requires Staged(c, s) && Drained(s) && s.shutdown && Enabled(c, s, k)
    ensures k.ByWorker? ==> !k.w.Answer? && !k.w.NotifyNext?
    ensures Stepped(c, s, k).log == s.log
  {
  }

  // ----- Admission -----

  /** Spawned and not yet done. */
  function Spawned(t: Task): nat {
    if Busy(t.pc) || t.pc.Leaving? || t.pc.Finishing? || t.pc.Decrementing? then 1 else 0
  }

  /**
   * The admitted tasks that are not done number `size`, plus one between the send and the
   * increment; `size` stays within the limit, and so does the number of tasks running at once.
   * A batch is turned away only while exactly as many tasks as allowed are admitted and not done.
   */
  lemma Admission(c: Conf, b: Behavior, i: nat)
    requires IsRun(c, b) && i < |b.states|
    ensures var s := b.states[i];
            && Total(s.tasks, Admitted) == s.ex.size + (if s.pc.Counting? then 1 else 0)
            && 0 <= s.ex.size <= c.execCap
            && Total(s.tasks, Admitted) <= c.execCap
            && Total(s.tasks, Spawned) <= c.execCap
            && (s.pc.Unlocking? && !s.pc.ok ==> Total(s.tasks, Admitted) == c.execCap)
  {
    hide CallsOk, Traced, Locked, Logged, Staged, ClosersOk, TasksOk, Linked;
    InvAlways(c, b, i);
    TotalMonotone(b.states[i].tasks, Spawned, Admitted);
  }

  function Last(r: Behavior): State
    requires r.states != []
  {
    r.states[|r.states| - 1]
  }

  /** One more step at the end of a stretch of a run. */
  lemma Extended(c: Conf, r: Behavior, k: Step) returns (r': Behavior)
    requires Follows(c, r) && r.states != [] && Enabled(c, Last(r), k)
    ensures Follows(c, r') && r'.states != [] && r'.states[0] == r.states[0] && Last(r') == Stepped(c, Last(r), k)
    ensures r'.steps == r.steps + [k]
  {
    hide Enabled, Stepped;
    r' := Behavior(r.states + [Stepped(c, Last(r), k)], r.steps + [k]);
  }

  function StartOf(c: Conf, s: State): (r: Behavior)
    ensures Follows(c, r) && r.states == [s] && r.steps == []
  {
    Behavior([s], [])
  }

  /** The task being offered is not in the task channel, and the one that is there can be spawned. */
  lemma OfferedOutside(c: Conf, s: State)
    requires Staged(c, s) && Linked(s) && s.pc.Locking?
    ensures s.pc.id < |s.tasks| && s.tasks[s.pc.id].pc.Offered? && !s.ex.closed
    ensures s.ex.queue == [] || (s.ex.queue == [s.ex.queue[0]] && s.ex.queue[0] < |s.tasks| && s.ex.queue[0] != s.pc.id)
  {
  }

  /** The blocked send of `do`: it goes through at once, or after one turn of the executor's loop. */
  lemma SendGoesThrough(c: Conf, r0: Behavior) returns (r: Behavior)
    requires Follows(c, r0) && r0.states != [] && Last(r0).pc.Submitting? && Last(r0).pc.id < |Last(r0).tasks| && !Last(r0).ex.closed
    requires var q := Last(r0).ex.queue; q == [] || (q == [q[0]] && q[0] < |Last(r0).tasks| && q[0] != Last(r0).pc.id)
    ensures Follows(c, r) && r.states != [] && r.states[0] == r0.states[0]
    ensures var s, e := Last(r0), Last(r);
            && e.pc == Counting(s.pc.id, s.pc.origin)
            && e.ex == TaskSent(if s.ex.queue == [] then s.ex else TaskReceived(s.ex), s.pc.id)
            && s.pc.id < |e.tasks| && e.tasks[s.pc.id].pc.Queued?
  {
    hide Follows;
    r := r0;
    if Last(r0).ex.queue != [] { r := Extended(c, r, ByRunner(Spawn)); }
    r := Extended(c, r, ByLoop(Proceed));
  }

  /**
   * `do` as its caller sees it is one of the interleavings: when nothing but the executor's loop
   * gets in between, its steps do to the executor what `AfterDo` says, and it returns true exactly
   * when there was a slot.
   */
  lemma DoUninterrupted(c: Conf, s: State) returns (r: Behavior)
    requires Staged(c, s) && Linked(s) && s.pc.Locking? && s.ex.holder.Free?
    ensures Follows(c, r) && r.states != [] && r.states[0] == s
    ensures var e := Last(r);
            && e.ex == AfterDo(c.execCap, s.ex, s.pc.id)
            && e.pc == (if HasSlot(c.execCap, s.ex) then Return(s.pc.origin) else Undoing(s.pc.id, s.pc.origin))
            && s.pc.id < |e.tasks| && (e.tasks[s.pc.id].pc.Queued? <==> HasSlot(c.execCap, s.ex))
  {
    hide Follows, Linked, Staged;
    OfferedOutside(c, s);
    r := Extended(c, StartOf(c, s), ByLoop(Proceed));
    if HasSlot(c.execCap, s.ex) {
      r := SendGoesThrough(c, r);
      r := Extended(c, r, ByLoop(Proceed));
    }
    r := Extended(c, r, ByLoop(Proceed));
  }

  /** And so is `done`. */
  lemma DoneUninterrupted(c: Conf, s: State, id: nat) returns (r: Behavior)
    requires id < |s.tasks| && s.tasks[id].pc.Finishing? && s.ex.holder.Free?
    ensures Follows(c, r) && r.states != [] && r.states[0] == s
    ensures var e := Last(r);
            e.ex == AfterDone(s.ex, id) && e.tasks == s.tasks[id := s.tasks[id].(pc := Done)]
  {
    hide Follows;
    r := Extended(c, StartOf(c, s), ByWorker(id, Lock));
    r := Extended(c, r, ByWorker(id, Decrement));
    r := Extended(c, r, ByWorker(id, Unlock));
  }

  /**
   * No task is submitted to a closed task channel, every task is spawned at most once, and when
   * the executor's loop has ended every task that was not refused has been spawned.
   */
  lemma NoTaskLost(c: Conf, b: Behavior, i: nat)
    requires IsRun(c, b) && i < |b.states|
    ensures var s := b.states[i];
            && (s.pc.Submitting? ==> !s.ex.closed)
            && (forall j :: 0 <= j < |s.tasks| ==> s.tasks[j].runs <= 1)
            && (s.ex.exited ==> forall j :: 0 <= j < |s.tasks| ==> s.tasks[j].runs == 1 || s.tasks[j].pc.Turned?)
  {
    hide CallsOk, ClosersOk, Traced, Locked, Logged, Counted;
    InvAlways(c, b, i);
    var s := b.states[i];
    forall j | 0 <= j < |s.tasks|
      ensures s.tasks[j].runs <= 1
      ensures s.ex.exited ==> s.tasks[j].runs == 1 || s.tasks[j].pc.Turned?
    {
      assert TaskOk(s.tasks[j], s.quit);
    }
  }

  // ----- Enqueue against Close -----

  /**
   * `Enqueue` of a valid message returns nil exactly when the message entered the queue, and
   * otherwise `ErrClosed`: never the queue's own error.
   */
  lemma EnqueueResults(c: Conf, b: Behavior, i: nat, id: nat)
    requires IsRun(c, b) && i < |b.states|
    requires id in b.states[i].calls && b.states[i].calls[id].CallReturned?
    ensures var s := b.states[i];
            && (s.calls[id].result == Accepted || s.calls[id].result == ErrClosed)
            && (s.calls[id].result == Accepted <==> s.calls[id].msg in s.accepted)
            && (s.calls[id].result == ErrClosed ==> s.quit)
  {
    hide ClosersOk, Traced, Locked, Logged, Counted, TasksOk, Linked;
    InvAlways(c, b, i);
    assert CallOk(b.states[i], id, b.states[i].calls[id]);
  }

  /** A call that has read the flag after it was set, or not read it yet, cannot get into the queue. */
  predicate ShutOut(k: Call) {
    k.CallInvalid? || k.CallChecking? || k.CallFailed? || (k.CallReturned? && k.result != Accepted)
  }

  lemma {:induction false} LateCallsShutOut(c: Conf, b: Behavior, i: nat, j: nat, id: nat)
    requires IsRun(c, b) && i <= j < |b.states|
    requires b.states[i].chan.flag && id !in b.states[i].calls
    ensures id in b.states[j].calls ==> ShutOut(b.states[j].calls[id])
  {
    hide Init, Enabled, Stepped, ShutOut;
    if i < j {
      LateCallsShutOut(c, b, i, j - 1, id);
      FlagStaysSet(c, b, i, j - 1);
      ShutOutStep(c, b.states[j - 1], b.steps[j - 1], b.states[j], id);
    }
  }

  lemma ShutOutStep(c: Conf, s: State, k: Step, s': State, id: nat)
    requires Enabled(c, s, k) && s' == Stepped(c, s, k) && s.chan.flag
    requires id in s.calls ==> ShutOut(s.calls[id])
    ensures id in s'.calls ==> ShutOut(s'.calls[id])
  {
    if k.ByLoop? { LoopLeavesCalls(c, s, k.l); }
  }

  /** The application's calls, and what they did, are the same. */
  predicate SameOutside(s: State, s': State) {
    s'.calls == s.calls && s'.accepted == s.accepted && s'.closers == s.closers && s'.quit == s.quit
  }

  lemma LoopLeavesCalls(c: Conf, s: State, k: LoopStep)
    requires LoopEnabled(c, s, k)
    ensures SameOutside(s, LoopStepped(c, s, k))
  {
    hide Process, AdmitStepped, RefuseStepped, ShutStepped;
    match s.pc
    case Select => ProcessLeavesCalls(c, s, Tick, FromSelect);
    case Handling(m, o) => ProcessLeavesCalls(c, s, Got(m), o);
    case LastFlush => ProcessLeavesCalls(c, s, Tick, FromFinal);
    case Adding(_, _) =>
    case Draining =>
    case Undoing(_, _) => RefuseLeavesCalls(s);
    case Refusing(_, _) => RefuseLeavesCalls(s);
    case Locking(_, _) => AdmitLeavesCalls(c, s);
    case Submitting(_, _) => AdmitLeavesCalls(c, s);
    case Counting(_, _) => AdmitLeavesCalls(c, s);
    case Unlocking(_, _, _) => AdmitLeavesCalls(c, s);
    case _ => ShutLeavesCalls(s);
  }

  lemma ProcessLeavesCalls(c: Conf, s: State, e: Event, o: Origin)
    ensures SameOutside(s, Process(c, s, e, o))
  {
    hide StepEvent, DroppedOf;
  }

  lemma AdmitLeavesCalls(c: Conf, s: State)
    requires Admits(s.pc) && (s.pc.Submitting? ==> s.pc.id < |s.tasks|)
    ensures SameOutside(s, AdmitStepped(c, s))
  {
  }

  lemma RefuseLeavesCalls(s: State)
    requires (s.pc.Undoing? || s.pc.Refusing?) && s.pc.id < |s.tasks|
    ensures SameOutside(s, RefuseStepped(s))
  {
  }

  lemma ShutLeavesCalls(s: State)
    requires Shutting(s.pc)
    ensures SameOutside(s, ShutStepped(s))
  {
  }

  /** After a `Close` has returned nil, every later `Enqueue` of a valid message returns `ErrClosed`. */
  lemma ClosedMeansClosed(c: Conf, b: Behavior, i: nat, j: nat, closer: nat, id: nat)
    requires IsRun(c, b) && i <= j < |b.states|
    requires closer in b.states[i].closers && b.states[i].closers[closer].ClosedNil?
    requires id !in b.states[i].calls
    requires id in b.states[j].calls && b.states[j].calls[id].CallReturned?
    ensures b.states[j].calls[id].result == ErrClosed
    ensures b.states[j].calls[id].msg !in b.states[j].accepted
  {
    hide Traced, Locked, Logged, Counted, TasksOk, Linked, CallsOk;
    InvAlways(c, b, i);
    LateCallsShutOut(c, b, i, j, id);
    EnqueueResults(c, b, j, id);
  }

  /** How many steps an `Enqueue` call can still take. */
  function CallRank(k: Call): nat {
    match k
    case CallChecking(_) => 3
    case CallSending(_) => 2
    case CallFailed(_) => 1
    case _ => 0
  }

  /** The steps this call takes among these. */
  function OwnSteps(steps: seq<Step>, id: nat): nat {
    if steps == [] then 0
    else
      var last := steps[|steps| - 1];
      OwnSteps(steps[..|steps| - 1], id) + (if last.ByProducer? && last.call == id then 1 else 0)
  }

  /** What a step, whose call it is or not, does to an `Enqueue` call under way. */
  predicate MovesOn(k: Call, k': Call, own: bool, closed: bool) {
    && k'.msg == k.msg
    && CallRank(k') + (if own then 1 else 0) <= CallRank(k)
    && (k.CallInvalid? <==> k'.CallInvalid?)
    && (closed && !Entered(k) ==> !Entered(k'))
  }

  lemma CallStep(c: Conf, s: State, k: Step, s': State, id: nat)
    requires Enabled(c, s, k) && s' == Stepped(c, s, k) && id in s.calls
    ensures id in s'.calls && MovesOn(s.calls[id], s'.calls[id], k.ByProducer? && k.call == id, s.chan.closed)
  {
    match k
    case ByProducer(i, p) => ProducerCallStep(c, s, i, p, id);
    case ByLoop(l) => LoopLeavesCalls(c, s, l);
    case _ =>
  }

  lemma ProducerCallStep(c: Conf, s: State, i: nat, p: ProducerStep, id: nat)
    requires ProducerEnabled(c, s, i, p) && id in s.calls
    ensures var s' := ProducerStepped(c, s, i, p);
            id in s'.calls && MovesOn(s.calls[id], s'.calls[id], i == id, s.chan.closed)
  {
  }

  /** The call put its message into the queue. */
  predicate Entered(k: Call) {
    k.CallReturned? && k.result == Accepted
  }

  /** In any run an `Enqueue` call takes at most three steps after its start and keeps its message. */
  lemma {:induction false} EnqueueIsShort(c: Conf, b: Behavior, i: nat, j: nat, id: nat)
    requires IsRun(c, b) && i <= j < |b.states| && id in b.states[i].calls
    ensures id in b.states[j].calls && b.states[j].calls[id].msg == b.states[i].calls[id].msg
    ensures OwnSteps(b.steps[i..j], id) + CallRank(b.states[j].calls[id]) <= CallRank(b.states[i].calls[id]) <= 3
    ensures b.states[i].calls[id].CallInvalid? <==> b.states[j].calls[id].CallInvalid?
  {
    hide Init, Enabled, Stepped, CallRank, Entered;
    if i < j {
      EnqueueIsShort(c, b, i, j - 1, id);
      CallStep(c, b.states[j - 1], b.steps[j - 1], b.states[j], id);
      assert b.steps[i..j][..j - 1 - i] == b.steps[i..j - 1];
    } else {
      assert CallRank(b.states[i].calls[id]) <= 3 by { RankAtMost(b.states[i].calls[id]); }
    }
  }

  lemma RankAtMost(k: Call)
    ensures CallRank(k) <= 3
  {
  }

  lemma {:induction false} ClosedKeepsOut(c: Conf, b: Behavior, i: nat, j: nat, id: nat)
    requires IsRun(c, b) && i <= j < |b.states| && id in b.states[i].calls
    requires b.states[i].chan.closed && !Entered(b.states[i].calls[id])
    ensures b.states[j].chan.closed
    ensures id in b.states[j].calls && !Entered(b.states[j].calls[id])
  {
    hide Init, Enabled, Stepped, Entered;
    if i < j {
      ClosedKeepsOut(c, b, i, j - 1, id);
      CallStep(c, b.states[j - 1], b.steps[j - 1], b.states[j], id);
      StepMonotone(c, b.states[j - 1], b.steps[j - 1], b.states[j]);
    }
  }

  /**
   * Closing the channel releases every blocked sender: in any run a call that was about to send
   * when the channel was closed always has a step to take until it returns, has returned after two
   * steps of its own, and then with `ErrClosed` and without its message having entered the queue.
   */
  lemma SendersReleased(c: Conf, b: Behavior, i: nat, j: nat, id: nat)
    requires IsRun(c, b) && i <= j < |b.states| && id in b.states[i].calls
    requires b.states[i].chan.closed && b.states[i].calls[id].CallSending?
    ensures id in b.states[j].calls
    ensures var s := b.states[j]; var msg := b.states[i].calls[id].msg;
            && (s.calls[id].CallReturned? || exists p :: ProducerEnabled(c, s, id, p))
            && (OwnSteps(b.steps[i..j], id) >= 2 ==> s.calls[id].CallReturned?)
            && (s.calls[id].CallReturned? ==> s.calls[id] == CallReturned(msg, ErrClosed) && msg !in s.accepted)
  {
    hide Init, Follows, OwnSteps;
    EnqueueIsShort(c, b, i, j, id);
    ClosedKeepsOut(c, b, i, j, id);
    var s := b.states[j];
    if s.calls[id].CallReturned? {
      EnqueueResults(c, b, j, id);
    } else {
      CanStep(c, s, id);
    }
  }

  /** A call that has not returned has a step to take, unless it waits for room in an open and full queue. */
  lemma CanStep(c: Conf, s: State, id: nat)
    requires id in s.calls && !s.calls[id].CallReturned? && !s.calls[id].CallInvalid?
    ensures (s.calls[id].CallSending? && !s.chan.closed && c.queueCap <= |s.chan.buf|)
            || exists p :: ProducerEnabled(c, s, id, p)
  {
    var p :=
      match s.calls[id]
      case CallChecking(_) => CheckFlag
      case CallSending(_) => if s.chan.closed then SendPanics else SendMessage
      case _ => AskClosed;
    if !(s.calls[id].CallSending? && !s.chan.closed && c.queueCap <= |s.chan.buf|) {
      assert ProducerEnabled(c, s, id, p);
    }
  }

  /**
   * However many `Close` calls there are, at most one gets past closing `quit`; it returns nil only
   * after the drain, and the dispatcher is closed exactly when it does. Any other call that has
   * returned, returned `ErrClosed`.
   */
  lemma CloseProtocol(c: Conf, b: Behavior, i: nat, x: nat, y: nat)
    requires IsRun(c, b) && i < |b.states|
    requires x in b.states[i].closers && y in b.states[i].closers && x != y
    ensures var s := b.states[i];
            && (Passed(s.closers[x]) ==> s.closers[y].Closing? || s.closers[y].ClosedErr?)
            && (s.closers[x].ClosedNil? ==> s.shutdown && Drained(s) && s.disposals == 1)
            && (s.closers[x].ClosedErr? ==> s.quit)
  {
    hide CallsOk, Traced, Locked, Logged, TasksOk, Linked, Counted, Staged;
    InvAlways(c, b, i);
    ShutdownOrder(c, b, i);
  }

  /** Exactly one call gets past closing `quit` once it is closed. */
  lemma SomeoneClosed(c: Conf, b: Behavior, i: nat)
    requires IsRun(c, b) && i < |b.states|
    ensures b.states[i].quit <==> exists x :: x in b.states[i].closers && Passed(b.states[i].closers[x])
  {
    hide CallsOk, Traced, Locked, Logged, TasksOk, Linked, Counted, Staged;
    InvAlways(c, b, i);
  }

  // ----- Retries -----

  /** What is promised for a task that has left `send` without a panic. */
  ghost predicate SentProperly(s: State, t: Task) {
    && t.verdict.Some?
    && GoodVerdict(t, t.verdict.value, s.quit)
    && t.notified == |t.msgs|
    && NotesOf(t) == multiset(NotesFor(t.msgs, t.verdict.value))
    && NotesOf(t) <= multiset(s.log)
  }

  /**
   * Every task makes at most ten calls of `Send`, all with the wire form of its batch, and stops at
   * the first that is delivered. When it has left `send` each of its messages has had the one
   * callback its attempts call for.
   */
  lemma RetryDiscipline(c: Conf, b: Behavior, i: nat, id: nat)
    requires IsRun(c, b) && i < |b.states| && id < |b.states[i].tasks|
    ensures var s := b.states[i]; var t := s.tasks[id];
            && |t.attempts| <= 10
            && (t.attempts != [] ==> exists sentAt: Bytes ::
                  |sentAt| == SENT_AT_LENGTH && SamePayload(t.attempts, MarshalBatch(sentAt, Some(t.msgs))))
            && InOrder(t.attempts)
            && (After(t.pc) && !t.panicked ==> SentProperly(s, t))
  {
    hide CallsOk, ClosersOk, Traced, Locked, Linked, Counted, Staged, TasksOk, Logged, SentProperly;
    InvAlways(c, b, i);
    RetryIn(b.states[i], id);
    if After(b.states[i].tasks[id].pc) && !b.states[i].tasks[id].panicked {
      VerdictIn(b.states[i], id);
    }
  }

  lemma RetryIn(s: State, id: nat)
    requires TasksOk(s) && id < |s.tasks|
    ensures var t := s.tasks[id];
            && |t.attempts| <= ATTEMPTS
            && InOrder(t.attempts)
            && (t.attempts != [] ==> exists sentAt: Bytes ::
                  |sentAt| == SENT_AT_LENGTH && SamePayload(t.attempts, MarshalBatch(sentAt, Some(t.msgs))))
  {
    var t := s.tasks[id];
    assert TaskOk(t, s.quit) && PayloadOk(t);
    if t.attempts != [] {
      var sentAt: Bytes :| |sentAt| == SENT_AT_LENGTH && t.payload == MarshalBatch(sentAt, Some(t.msgs));
      assert SamePayload(t.attempts, MarshalBatch(sentAt, Some(t.msgs)));
    }
  }

  lemma VerdictIn(s: State, id: nat)
    requires TasksOk(s) && Logged(s) && id < |s.tasks| && After(s.tasks[id].pc) && !s.tasks[id].panicked
    ensures SentProperly(s, s.tasks[id])
  {
    var t := s.tasks[id];
    assert TaskOk(t, s.quit);
    assert NotesFor(t.msgs, t.verdict.value)[..t.notified] == NotesFor(t.msgs, t.verdict.value);
    GatherContains(s.tasks, id);
  }

  lemma {:induction false} GatherContains(tasks: seq<Task>, id: nat)
    requires id < |tasks|
    ensures NotesOf(tasks[id]) <= Gather(tasks, NotesOf)
  {
    if id < |tasks| - 1 { GatherContains(tasks[..|tasks| - 1], id); }
  }

  // ----- The wire -----

  /** Every request of every run obeys the bound. */
  lemma EveryRequestFits(c: Conf, b: Behavior, i: nat, id: nat, k: nat, estimateAt: Bytes)
    requires IsRun(c, b) && i < |b.states| && id < |b.states[i].tasks| && k < |b.states[i].tasks[id].attempts|
    requires |estimateAt| == SENT_AT_LENGTH && c.batch == ClientLimits(c.batch.count, estimateAt)
    ensures var t := b.states[i].tasks[id];
            && |t.attempts[k].payload| <= 500000 + |t.msgs| - 4
            && (c.batch.count <= 15 ==> |t.attempts[k].payload| <= 500000)
  {
    hide CallsOk, ClosersOk, TasksOk, Locked, Linked, Counted, Staged, Logged;
    var s := b.states[i];
    var t := s.tasks[id];
    RetryDiscipline(c, b, i, id);
    var sentAt: Bytes :| |sentAt| == SENT_AT_LENGTH && SamePayload(t.attempts, MarshalBatch(sentAt, Some(t.msgs)));
    InvAlways(c, b, i);
    assert (Batches(s.tasks) + OnItsWay(s.pc))[id] == t.msgs;
    BatchIsSized(c.batch, s.trace, id);
    WireBound(c.batch.count, estimateAt, sentAt, t.msgs);
  }
}
