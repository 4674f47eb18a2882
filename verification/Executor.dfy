/** The executor: a task channel, a counter under a mutex, and its loop (internal/core/executor.go). */
module Executors {

  /** Who holds the mutex: nobody, the event loop inside `do`, or a task inside `done`. */
  datatype Holder = Free | EventLoop | Worker(id: nat)

  /** `queue` is the task channel of capacity one, `exited` whether the executor's loop has ended. */
  datatype Exec = Exec(queue: seq<nat>, closed: bool, size: int, holder: Holder, exited: bool)

  // ----- The atomic steps -----

  predicate HasSlot(cap: nat, ex: Exec) {
    ex.size != cap
  }

  /** A send on the task channel goes through. */
  predicate CanSubmit(ex: Exec) {
    ex.queue == [] && !ex.closed
  }

  function MutexTaken(ex: Exec, h: Holder): Exec {
    ex.(holder := h)
  }

  function MutexFreed(ex: Exec): Exec {
    ex.(holder := Free)
  }

  function TaskSent(ex: Exec, id: nat): Exec {
    ex.(queue := ex.queue + [id])
  }

  function TaskReceived(ex: Exec): Exec
    requires ex.queue != []
  {
    ex.(queue := ex.queue[1..])
  }

  function SizeUp(ex: Exec): Exec {
    ex.(size := ex.size + 1)
  }

  function SizeDown(ex: Exec): Exec {
    ex.(size := ex.size - 1)
  }

  function QueueShut(ex: Exec): Exec {
    ex.(closed := true)
  }

  function LoopEnded(ex: Exec): Exec {
    ex.(exited := true)
  }

  // ----- Whole calls, when only the executor's loop runs beside them -----

  /** `do`: a blocked send goes through as soon as the executor's loop has taken the task in its way. */
  function AfterDo(cap: nat, ex: Exec, id: nat): Exec {
    var locked := MutexTaken(ex, EventLoop);
    if HasSlot(cap, locked) then
      var ready := if locked.queue == [] then locked else TaskReceived(locked);
      MutexFreed(SizeUp(TaskSent(ready, id)))
    else MutexFreed(locked)
  }

  function AfterDone(ex: Exec, id: nat): Exec {
    MutexFreed(SizeDown(MutexTaken(ex, Worker(id))))
  }

  class Executor {
    const cap: nat
    var queue: seq<nat>
    var closed: bool
    var size: int
    var mutex: Holder
    var exited: bool
    /** The tasks with a goroutine of their own, not done yet. */
    ghost var running: multiset<nat>
    /** Every task that was admitted, and every task that was given a goroutine, in order. */
    ghost var admitted: seq<nat>
    ghost var spawned: seq<nat>

    ghost predicate Valid()
      reads this
    {
      && 1 <= cap
      && |queue| <= 1
      && size == |queue| + |running| <= cap
      && admitted == spawned + queue
    }

    function View(): Exec
      reads this
    {
      Exec(queue, closed, size, mutex, exited)
    }

    constructor (cap: nat)
      requires 1 <= cap
      ensures Valid() && View() == Exec([], false, 0, Free, false) && admitted == [] && this.cap == cap
    {
      this.cap := cap;
      queue, closed, size, mutex, exited := [], false, 0, Free, false;
      running, admitted, spawned := multiset{}, [], [];
    }

    /** One turn of the executor's loop: the queued task gets a goroutine. */
    method Spawn()
      requires Valid() && queue != []
      modifies this`queue, this`running, this`spawned
      ensures Valid() && View() == TaskReceived(old(View())) && queue == []
      ensures spawned == old(spawned) + old(queue) && running == old(running) + multiset(old(queue))
    {
      running := running + multiset{queue[0]};
      spawned := spawned + [queue[0]];
      queue := queue[1..];
    }

    /**
     * Admits the task unless the limit is reached. The send waits, with the mutex held, for the
     * executor's loop to empty the channel; a refused task leaves everything as it was.
     */
    method Do(task: nat) returns (ok: bool)
      requires Valid() && !closed && mutex.Free?
      modifies this
      ensures Valid() && View() == AfterDo(cap, old(View()), task)
      ensures ok <==> old(size) < cap
      ensures ok ==> admitted == old(admitted) + [task] && running == old(running) + multiset(old(queue))
      ensures !ok ==> View() == old(View()) && admitted == old(admitted) && running == old(running)
    {
      ok := false;
      mutex := EventLoop;
      if size != cap {
        if |queue| == 1 {
          Spawn();
        }
        queue := queue + [task];
        size := size + 1;
        admitted := admitted + [task];
        ok := true;
      }
      mutex := Free;
    }

    /** A running task is done. */
    method Done(task: nat)
      requires Valid() && task in running && mutex.Free?
      modifies this`size, this`mutex, this`running
      ensures Valid() && View() == AfterDone(old(View()), task) && running == old(running) - multiset{task}
    {
      mutex := Worker(task);
      running := running - multiset{task};
      size := size - 1;
      mutex := Free;
    }

    method Close()
      requires Valid() && !closed
      modifies this`closed
      ensures Valid() && View() == QueueShut(old(View()))
    {
      closed := true;
    }

    /** The executor's loop after the close: a task still queued is not lost, then the loop ends. */
    method Loop()
      requires Valid() && closed && !exited
      modifies this`queue, this`running, this`spawned, this`exited
      ensures Valid() && spawned == admitted
      ensures View() == LoopEnded(if old(queue) == [] then old(View()) else TaskReceived(old(View())))
    {
      while queue != []
        invariant Valid()
        invariant View() == old(View()) || (old(queue) != [] && View() == TaskReceived(old(View())))
        decreases |queue|
      {
        Spawn();
      }
      exited := true;
    }
  }
}
