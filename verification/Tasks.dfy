/** Tasks and the lists they wait on. */
module Tasks {
  type Tid = nat

  datatype TaskState =
    | Running
    | Blocking  // checking its conditions, about to block
    | Blocked

  function Added(tasks: seq<Tid>, t: Tid): seq<Tid> {
    if t in tasks then tasks else tasks + [t]
  }

  function Removed(tasks: seq<Tid>, t: Tid): seq<Tid> {
    if tasks == [] then []
    else if tasks[0] == t then tasks[1..]
    else [tasks[0]] + Removed(tasks[1..], t)
  }

  predicate Distinct(tasks: seq<Tid>) {
    forall i, j :: 0 <= i < j < |tasks| ==> tasks[i] != tasks[j]
  }

  lemma AddedIsDistinct(tasks: seq<Tid>, t: Tid)
    requires Distinct(tasks)
    ensures Distinct(Added(tasks, t))
    ensures forall u :: u in Added(tasks, t) <==> u in tasks || u == t
  {
  }

  /** A new task goes to the end, and the order of those before it stays. */
  lemma AddedGoesLast(tasks: seq<Tid>, t: Tid)
    ensures tasks <= Added(tasks, t) && t in Added(tasks, t)
    ensures |Added(tasks, t)| == |tasks| + if t in tasks then 0 else 1
  {
  }

  lemma {:induction false} RemovedKeepsOthers(tasks: seq<Tid>, t: Tid, u: Tid)
    ensures u != t ==> (u in Removed(tasks, t) <==> u in tasks)
    ensures u !in tasks ==> u !in Removed(tasks, t)
  {
    if tasks != [] {
      assert u in tasks <==> u == tasks[0] || u in tasks[1..];
      RemovedKeepsOthers(tasks[1..], t, u);
    }
  }

  lemma {:induction false} RemovedIsDistinct(tasks: seq<Tid>, t: Tid)
    requires Distinct(tasks)
    ensures Distinct(Removed(tasks, t)) && t !in Removed(tasks, t)
  {
    if tasks != [] && tasks[0] != t {
      RemovedIsDistinct(tasks[1..], t);
      RemovedKeepsOthers(tasks[1..], t, tasks[0]);
      DistinctCons(tasks[0], Removed(tasks[1..], t));
    }
  }

  lemma DistinctCons(x: Tid, rest: seq<Tid>)
    requires Distinct(rest) && x !in rest
    ensures Distinct([x] + rest)
  {
  }

  lemma {:induction false} RemovedAt(tasks: seq<Tid>, t: Tid, i: nat)
    requires i < |tasks| && tasks[i] == t && t !in tasks[..i]
    ensures Removed(tasks, t) == tasks[..i] + tasks[i + 1..]
  {
    if i > 0 {
      assert tasks[0] == tasks[..i][0];
      assert tasks[1..][..i - 1] == tasks[..i][1..];
      RemovedAt(tasks[1..], t, i - 1);
    }
  }

  lemma {:induction false} RemovedAbsent(tasks: seq<Tid>, t: Tid)
    requires t !in tasks
    ensures Removed(tasks, t) == tasks
  {
    if tasks != [] {
      RemovedAbsent(tasks[1..], t);
    }
  }

  /** The wait list of one queue side. Each method is one region under the list's lock. */
  class TaskList {
    var tasks: seq<Tid>

    constructor ()
      ensures tasks == []
    {
      tasks := [];
    }

    method AddTask(task: Tid)
      modifies this
      ensures tasks == Added(old(tasks), task)
      ensures old(tasks) <= tasks && task in tasks && |tasks| == |old(tasks)| + if task in old(tasks) then 0 else 1
    {
      var i := 0;
      while i < |tasks| && tasks[i] != task
        invariant 0 <= i <= |tasks| && task !in tasks[..i]
      {
        i := i + 1;
      }
      if i == |tasks| {
        assert tasks[..i] == tasks;
        tasks := tasks + [task];
      }
    }

    method RemoveTask(task: Tid)
      modifies this
      ensures tasks == Removed(old(tasks), task)
    {
      var i := 0;
      while i < |tasks| && tasks[i] != task
        invariant 0 <= i <= |tasks| && task !in tasks[..i]
      {
        i := i + 1;
      }
      if i < |tasks| {
        RemovedAt(tasks, task, i);
        tasks := tasks[..i] + tasks[i + 1..];
      } else {
        assert tasks[..i] == tasks;
        RemovedAbsent(tasks, task);
      }
    }

    /** The atomic half of `wake_all`: exactly one waker gets the tasks that were on the list. */
    method Take() returns (taken: seq<Tid>)
      modifies this
      ensures taken == old(tasks) && tasks == []
    {
      taken := tasks;
      tasks := [];
    }
  }

  /** The lock-protected regions of a task's own state. The loops around them are steps of `Protocol`. */
  class Task {
    var state: TaskState

    constructor ()
      ensures state == Running
    {
      state := Running;
    }

    method BeginBlocking()
      modifies this
      ensures state == Blocking
    {
      state := Blocking;
    }

    /** One turn of the loop in `unpark`: it is over unless the task is still checking its conditions. */
    method UnparkOnce() returns (done: bool)
      modifies this
      ensures done <==> old(state) != Blocking
      ensures state == if done then Running else old(state)
    {
      done := state != Blocking;
      if done {
        state := Running;
      }
    }

    /** The start of `park`, up to the wait on the condition variable. */
    method EnterPark()
      requires state == Blocking
      modifies this
      ensures state == Blocked
    {
      state := Blocked;
    }
  }
}
