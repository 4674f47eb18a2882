/** Counting over the tasks of a state. */
module TaskSums {
  import opened Pipeline
  import opened Sequences

  function Total(tasks: seq<Task>, f: Task -> nat): nat {
    if tasks == [] then 0 else Total(tasks[..|tasks| - 1], f) + f(tasks[|tasks| - 1])
  }

  function Gather<T>(tasks: seq<Task>, f: Task -> multiset<T>): multiset<T> {
    if tasks == [] then multiset{} else Gather(tasks[..|tasks| - 1], f) + f(tasks[|tasks| - 1])
  }

  lemma TotalSnoc(tasks: seq<Task>, t: Task, f: Task -> nat)
    ensures Total(tasks + [t], f) == Total(tasks, f) + f(t)
  {
    InitOfSnoc(tasks, t);
  }

  lemma {:induction false} TotalUpdate(tasks: seq<Task>, id: nat, t: Task, f: Task -> nat)
    requires id < |tasks|
    ensures Total(tasks[id := t], f) == Total(tasks, f) - f(tasks[id]) + f(t)
  {
    var n := |tasks| - 1;
    if id == n {
      assert tasks[id := t][..n] == tasks[..n];
    } else {
      assert tasks[id := t][..n] == tasks[..n][id := t];
      TotalUpdate(tasks[..n], id, t, f);
    }
  }

  lemma {:induction false} TotalAtLeast(tasks: seq<Task>, id: nat, f: Task -> nat)
    requires id < |tasks|
    ensures f(tasks[id]) <= Total(tasks, f)
  {
    if id < |tasks| - 1 { TotalAtLeast(tasks[..|tasks| - 1], id, f); }
  }

  /** A positive total has a task to blame. */
  lemma {:induction false} TotalWitness(tasks: seq<Task>, f: Task -> nat) returns (id: nat)
    requires Total(tasks, f) > 0
    ensures id < |tasks| && f(tasks[id]) > 0
  {
    var n := |tasks| - 1;
    if f(tasks[n]) > 0 { id := n; } else { id := TotalWitness(tasks[..n], f); }
  }

  lemma {:induction false} TotalMonotone(tasks: seq<Task>, f: Task -> nat, g: Task -> nat)
    requires forall t :: f(t) <= g(t)
    ensures Total(tasks, f) <= Total(tasks, g)
  {
    if tasks != [] { TotalMonotone(tasks[..|tasks| - 1], f, g); }
  }

  lemma GatherSnoc<T>(tasks: seq<Task>, t: Task, f: Task -> multiset<T>)
    ensures Gather(tasks + [t], f) == Gather(tasks, f) + f(t)
  {
    InitOfSnoc(tasks, t);
  }

  /** Changing one task so that its part grows by `extra` makes the whole grow by `extra`. */
  lemma {:induction false} GatherGrow<T>(tasks: seq<Task>, id: nat, t: Task, f: Task -> multiset<T>, extra: multiset<T>)
    requires id < |tasks|
    requires f(t) == f(tasks[id]) + extra
    ensures Gather(tasks[id := t], f) == Gather(tasks, f) + extra
  {
    var n := |tasks| - 1;
    if id == n {
      assert tasks[id := t][..n] == tasks[..n];
    } else {
      assert tasks[id := t][..n] == tasks[..n][id := t];
      GatherGrow(tasks[..n], id, t, f, extra);
    }
  }

  /** The parts of a partition gather to the gathering of the whole. */
  lemma {:induction false} GatherSplit<T>(tasks: seq<Task>, whole: Task -> multiset<T>, f: Task -> multiset<T>, g: Task -> multiset<T>)
    requires forall i :: 0 <= i < |tasks| ==> whole(tasks[i]) == f(tasks[i]) + g(tasks[i])
    ensures Gather(tasks, whole) == Gather(tasks, f) + Gather(tasks, g)
  {
    if tasks != [] { GatherSplit(tasks[..|tasks| - 1], whole, f, g); }
  }

  lemma {:induction false} GatherEmpty<T>(tasks: seq<Task>, f: Task -> multiset<T>)
    requires forall i :: 0 <= i < |tasks| ==> f(tasks[i]) == multiset{}
    ensures Gather(tasks, f) == multiset{}
  {
    if tasks != [] { GatherEmpty(tasks[..|tasks| - 1], f); }
  }
}
