/**
 The code of the protocol on its own objects: tasks, wait lists and ring queues. Each method that is one lock-protected
 region updates the objects itself and is proved to be a step of `Protocol`; `block_on` is put together from them in its
 own shape, with the other threads free to run between any two.
 */
module BlockOn {
  import opened Wrappers
  import opened QueueSpec
  import opened Tasks
  import opened Protocol
  import opened ProtocolProofs
  import opened UnparkSpin
  import opened Interference
  import QueueClient
  import Runs
  import LockingQueue

  /** What a thread in user code may do next. */
  datatype Request<T> =
    | UseQueue(queue: nat, op: QueueClient.Op<T>)
    | StartBlocking(blockers: seq<Blocker>)
    | ChangeServer(current: Option<nat>)
    | AttachTo(server: nat)
    | StartAbort(server: nat)

  /** One turn of a thread: the request is what it does next if it is in user code. */
  datatype Turn<T> = Turn(thread: Tid, request: Request<T>)

  datatype Outcome =
    | ReturnedEarly(i: nat)  // blocker `i` was the first that was ready
    | Woken
    | Panicked               // at an abort point
    | Asleep                 // still parked when the model stopped watching

  class Machine<T(==)> {
    const tasks: seq<Task>                            // one for each thread
    const tables: seq<LockingQueue.LockingTable<T>>   // one for each queue, with its two wait lists
    const putWaitQueues: seq<TaskList>
    const readWaitQueues: seq<TaskList>
    var servers: seq<Server>
    var currents: seq<Option<nat>>                    // the current server of each thread
    var pcs: seq<Pc>                                  // where each thread is
    ghost var states: seq<State<T>>
    ghost var labels: seq<Label<T>>

    /** No two threads or queues share an object. */
    ghost predicate Separate() {
      && |putWaitQueues| == |tables| && |readWaitQueues| == |tables|
      && (forall i, j :: 0 <= i < j < |tasks| ==> tasks[i] != tasks[j])
      && (forall i, j :: 0 <= i < j < |tables| ==> tables[i] != tables[j] && tables[i].buffer != tables[j].buffer)
      && (forall i, j :: 0 <= i < j < |tables| ==> putWaitQueues[i] != putWaitQueues[j])
      && (forall i, j :: 0 <= i < j < |tables| ==> readWaitQueues[i] != readWaitQueues[j])
      && (forall i, j :: 0 <= i < |tables| && 0 <= j < |tables| ==> putWaitQueues[i] != readWaitQueues[j])
    }

    ghost function Buffers(): set<object> {
      set q | 0 <= q < |tables| :: tables[q].buffer
    }

    ghost predicate MirrorsThreads(threads: seq<Thread>)
      reads this`pcs, this`currents, tasks
    {
      && |threads| == |tasks| == |pcs| == |currents|
      && forall t :: 0 <= t < |threads| ==> threads[t] == Thread(tasks[t].state, pcs[t], currents[t])
    }

    ghost predicate MirrorsQueues(queues: seq<QueueState<T>>)
      requires Separate()
      reads tables, Buffers(), putWaitQueues, readWaitQueues
    {
      && |queues| == |tables|
      && forall q :: 0 <= q < |queues| ==>
           && tables[q].Valid()
           && queues[q] == QueueState(tables[q].Abs(), putWaitQueues[q].tasks, readWaitQueues[q].tasks)
    }

    ghost predicate Mirrors(s: State<T>)
      requires Separate()
      reads this, tasks, tables, Buffers(), putWaitQueues, readWaitQueues
    {
      MirrorsThreads(s.threads) && MirrorsQueues(s.queues) && s.servers == servers
    }

    /** The protocol's state: the last one of the run recorded so far. */
    ghost function Now(): State<T>
      requires IsRun(states, labels)
      reads this
    {
      states[|labels|]
    }

    /** The objects are in that state. */
    ghost predicate Valid()
      reads this, tasks, tables, Buffers(), putWaitQueues, readWaitQueues
    {
      Separate() && IsRun(states, labels) && Mirrors(Now())
    }

    /** Fresh tasks and queues; `lists` are the queues' put lists followed by their read lists. */
    constructor (tasks: seq<Task>, tables: seq<LockingQueue.LockingTable<T>>, lists: seq<TaskList>, nServers: nat)
      requires forall i, j :: 0 <= i < j < |tasks| ==> tasks[i] != tasks[j]
      requires forall i, j :: 0 <= i < j < |tables| ==> tables[i] != tables[j] && tables[i].buffer != tables[j].buffer
      requires |lists| == 2 * |tables| && forall i, j :: 0 <= i < j < |lists| ==> lists[i] != lists[j]
      requires forall i :: 0 <= i < |tasks| ==> tasks[i].state == Running
      requires forall i :: 0 <= i < |tables| ==> tables[i].Valid()
      requires forall i :: 0 <= i < |lists| ==> lists[i].tasks == []
      ensures Valid() && labels == [] && this.tasks == tasks && this.tables == tables && |servers| == nServers
    {
      this.tasks, this.tables := tasks, tables;
      putWaitQueues, readWaitQueues := lists[..|tables|], lists[|tables|..];
      servers := seq(nServers, _ => Server(false, [], None, None));
      currents := seq(|tasks|, _ => None);
      pcs := seq(|tasks|, _ => UserCode);
      new;
      ghost var queues :=
        seq(|tables|, q requires 0 <= q < |tables| reads tables => QueueState(tables[q].Abs(), [], []));
      states, labels := [State(seq(|tasks|, _ => IDLE), queues, servers)], [];
      forall q | 0 <= q < |tables|
        ensures WellFormed(queues[q].channel)
      {
        tables[q].AbsIsWellFormed();
      }
    }

    /** Records that the objects have just taken a step of thread `t`. */
    ghost method Record(t: Tid, a: Action<T>)
      requires Separate() && IsRun(states, labels) && CanStep(Now(), t, a) && Mirrors(Step(Now(), t, a))
      modifies this`states, this`labels
      ensures Valid() && Now() == Step(old(Now()), t, a) && states[0] == old(states[0])
      ensures labels == old(labels) + [Label(t, a)]
    {
      ghost var s := Step(Now(), t, a);
      Runs.Grows(Stepping<T>(), states, labels, Label(t, a), s);
      states, labels := states + [s], labels + [Label(t, a)];
    }

    // -------------------------------------------------------------------------------------------
    // The regions of `block_on`.

    method BeginBlocking(t: Tid, blockers: seq<Blocker>)
      requires Valid() && t < |tasks| && pcs[t].UserCode? && forall b :: b in blockers ==> b.queue < |tables|
      modifies this`pcs, this`states, this`labels, tasks[t]
      ensures Valid() && labels == old(labels) + [Label(t, Block(blockers))] && states[0] == old(states[0])
      ensures pcs[t] == AbortCheckBefore(blockers)
    {
      tasks[t].BeginBlocking();
      pcs := pcs[t := AbortCheckBefore(blockers)];
      Record(t, Block(blockers));
    }

    /** `CurrentServer::abort_point` */
    method AbortPoint(t: Tid) returns (panics: bool)
      requires Valid() && t < |tasks|
      ensures panics <==> IsAborted(Now(), Now().threads[t].current)
      ensures panics <==> exists v :: 0 <= v < |servers| && currents[t] == Some(v) && servers[v].aborted
    {
      match currents[t]
      case None => panics := false;
      case Some(v) => panics := v < |servers| && servers[v].aborted;
    }

    method PassAbortPoint(t: Tid, blockers: seq<Blocker>) returns (panics: bool)
      requires Valid() && t < |tasks| && pcs[t] == AbortCheckBefore(blockers)
      modifies this`pcs, this`states, this`labels
      ensures Valid() && labels == old(labels) + [Label(t, Continue)] && states[0] == old(states[0])
      ensures panics <==> IsAborted(Now(), Now().threads[t].current)
      ensures pcs[t] == if panics then UserCode else AfterChecks(blockers, 0)
    {
      panics := AbortPoint(t);
      pcs := pcs[t := if panics then UserCode else AfterChecks(blockers, 0)];
      Record(t, Continue);
    }

    function ListFor(l: WaitList): TaskList
      requires Separate() && l.queue < |tables|
    {
      if l.kind.PutList? then putWaitQueues[l.queue] else readWaitQueues[l.queue]
    }

    method PrepareToWait(t: Tid, blockers: seq<Blocker>, i: nat)
      requires Valid() && t < |tasks| && i < |blockers| && blockers[i].queue < |tables|
      requires pcs[t] == Register(blockers, i)
      modifies this`pcs, this`states, this`labels, ListFor(ListOf(blockers[i]))
      ensures Valid() && labels == old(labels) + [Label(t, Continue)] && states[0] == old(states[0])
      ensures pcs[t] == Check(blockers, i)
    {
      ListFor(ListOf(blockers[i])).AddTask(t);
      pcs := pcs[t := Check(blockers, i)];
      Record(t, Continue);
    }

    /** `should_try`, on the ring itself. A handle that somebody else has dropped is never ready. */
    method TestReady(b: Blocker) returns (ready: bool)
      requires Valid() && b.queue < |tables|
      ensures ready <==> ShouldTry(Now(), b)
      ensures var table := tables[b.queue];
              && (b.interest.ToSend? ==>
                    (!ready <==>
                       || (table.nReceivers > 0 && |table.history| == table.headIndex + (table.buffer.Length - 1))
                       || exists j :: 0 <= j < |table.strongObserverHeads|
                            && table.strongObserverHeads[j] != LockingQueue.USIZE_MAX
                            && |table.history| == table.strongObserverHeads[j] + (table.buffer.Length - 1)))
              && (b.interest.ToReceive? ==> (ready <==> table.nReceivers > 0 && table.headIndex < |table.history|))
              && (b.interest.ToObserve? ==>
                    (ready <==> b.interest.slot < |table.strongObserverHeads|
                                && table.strongObserverHeads[b.interest.slot] < |table.history|))
              && (b.interest.ToSeeNews? ==> (ready <==> b.interest.seen < |table.history|))
    {
      var table := tables[b.queue];
      assert table.Valid() && Now().queues[b.queue].channel == table.Abs();
      match b.interest
      case ToSend =>
        table.CanSendIsExact();
        ready := table.CanSend().Some?;
      case ToReceive =>
        ready := table.nReceivers > 0 && table.CanReceive();
        if table.nReceivers > 0 {
          table.CanReceiveIsExact();
        }
      case ToObserve(j) =>
        ready := false;
        if j < |table.strongObserverHeads| && table.strongObserverHeads[j] != LockingQueue.USIZE_MAX {
          table.CanStrongObserveIsExact(j);
          ready := table.CanStrongObserve(j);
        }
      case ToSeeNews(seen) => ready := table.tailIndex > seen;
    }

    method CheckBlocker(t: Tid, blockers: seq<Blocker>, i: nat) returns (ready: bool)
      requires Valid() && t < |tasks| && i < |blockers| && blockers[i].queue < |tables|
      requires pcs[t] == Check(blockers, i)
      modifies this`pcs, this`states, this`labels
      ensures Valid() && labels == old(labels) + [Label(t, Continue)] && states[0] == old(states[0])
      ensures ready <==> ShouldTry(old(Now()), blockers[i])
      ensures pcs[t] == if ready then Deregister(blockers, i, 0) else AfterChecks(blockers, i + 1)
    {
      ready := TestReady(blockers[i]);
      pcs := pcs[t := if ready then Deregister(blockers, i, 0) else AfterChecks(blockers, i + 1)];
      Record(t, Continue);
    }

    method FinishWait(t: Tid, blockers: seq<Blocker>, i: nat, k: nat)
      requires Valid() && t < |tasks| && i < |blockers| && blockers[i].queue < |tables|
      requires pcs[t] == Deregister(blockers, i, k)
      modifies this`pcs, this`states, this`labels, ListFor(ListOf(blockers[i]))
      ensures Valid() && labels == old(labels) + [Label(t, Continue)] && states[0] == old(states[0])
      ensures pcs[t] == if k < i then Deregister(blockers, i, k + 1) else UserCode
    {
      ListFor(ListOf(blockers[i])).RemoveTask(t);
      pcs := pcs[t := if k < i then Deregister(blockers, i, k + 1) else UserCode];
      Record(t, Continue);
    }

    /** `park`, up to the wait on the condition variable. */
    method EnterPark(t: Tid, blockers: seq<Blocker>)
      requires Valid() && t < |tasks| && pcs[t] == Park(blockers)
      modifies this`pcs, this`states, this`labels, tasks[t]
      ensures Valid() && labels == old(labels) + [Label(t, Continue)] && states[0] == old(states[0])
      ensures pcs[t] == Parked(blockers)
      ensures tasks[t].state == Blocked
    {
      assert tasks[t].state == Blocking by {  // the assertion in `park`
        RunIsBehavior(states, labels);
        RegistrationsAreKept(states, labels);
        assert ThreadOk(Now().threads[t], |Now().queues|);
      }
      tasks[t].EnterPark();
      pcs := pcs[t := Parked(blockers)];
      Record(t, Continue);
    }

    /** One look at the state, after a wakeup of the condition variable for whatever reason. */
    method LeavePark(t: Tid, blockers: seq<Blocker>) returns (woken: bool)
      requires Valid() && t < |tasks| && pcs[t] == Parked(blockers)
      modifies this`pcs, this`states, this`labels
      ensures Valid() && old(labels) <= labels && states[0] == old(states[0])
      ensures (woken <==> old(Now()).threads[t].state != Blocked)
      ensures if woken then labels == old(labels) + [Label(t, Continue)]
              else labels == old(labels) && states == old(states)
      ensures pcs[t] == if woken then AbortCheckAfter else Parked(blockers)
    {
      woken := tasks[t].state != Blocked;
      if woken {
        pcs := pcs[t := AbortCheckAfter];
        Record(t, Continue);
      }
    }

    method PassLastAbortPoint(t: Tid) returns (panics: bool)
      requires Valid() && t < |tasks| && pcs[t].AbortCheckAfter?
      modifies this`pcs, this`states, this`labels
      ensures Valid() && labels == old(labels) + [Label(t, Continue)] && states[0] == old(states[0])
      ensures panics <==> IsAborted(Now(), Now().threads[t].current)
      ensures pcs[t] == UserCode
    {
      panics := AbortPoint(t);
      pcs := pcs[t := UserCode];
      Record(t, Continue);
    }

    // -------------------------------------------------------------------------------------------
    // The regions of `wake_all` and of `abort`.

    method TakeList(t: Tid, l: WaitList) returns (taken: seq<Tid>)
      requires Valid() && t < |tasks| && l.queue < |tables| && pcs[t] == WakeTake(l)
      modifies this`pcs, this`states, this`labels, ListFor(l)
      ensures Valid() && states[0] == old(states[0]) && labels == old(labels) + [Label(t, Continue)]
      ensures taken == Waiters(old(Now()), l)
      ensures pcs[t] == WakeLoop(l, taken)
    {
      taken := ListFor(l).Take();
      pcs := pcs[t := WakeLoop(l, taken)];
      Record(t, Continue);
    }

    /** One turn of the loop in `unpark`, on the next task that was taken. */
    method UnparkTaken(t: Tid, l: WaitList, rest: seq<Tid>) returns (done: bool)
      requires Valid() && t < |tasks| && pcs[t] == WakeLoop(l, rest) && rest != [] && rest[0] < |tasks|
      modifies this`pcs, this`states, this`labels, tasks[rest[0]]
      ensures Valid() && old(labels) <= labels && states[0] == old(states[0])
      ensures (done <==> CanUnpark(old(Now()), rest[0]))
      ensures if done then labels == old(labels) + [Label(t, Continue)]
              else labels == old(labels) && states == old(states)
      ensures pcs[t] == WakeLoop(l, if done then rest[1..] else rest)
    {
      done := tasks[rest[0]].UnparkOnce();
      if done {
        pcs := pcs[t := WakeLoop(l, rest[1..])];
        Record(t, Continue);
      }
    }

    method FinishWake(t: Tid)
      requires Valid() && t < |tasks| && pcs[t].WakeLoop? && pcs[t].rest == []
      modifies this`pcs, this`states, this`labels
      ensures Valid() && labels == old(labels) + [Label(t, Continue)] && states[0] == old(states[0])
      ensures pcs[t] == UserCode
    {
      pcs := pcs[t := UserCode];
      Record(t, Continue);
    }

    method SetAborted(t: Tid, v: nat)
      requires Valid() && t < |tasks| && v < |servers| && pcs[t].UserCode?
      modifies this`servers, this`pcs, this`states, this`labels
      ensures Valid() && labels == old(labels) + [Label(t, Abort(v))] && states[0] == old(states[0])
      ensures pcs[t] == AbortLock(v)
      ensures v < |servers| && servers[v].aborted && servers[v].threads == old(servers[v].threads)
    {
      var first := if servers[v].aborted then servers[v].firstAborter else Some(t);
      servers := servers[v := servers[v].(aborted := true, firstAborter := first)];
      pcs := pcs[t := AbortLock(v)];
      Record(t, Abort(v));
    }

    method LockThreads(t: Tid, v: nat) returns (locked: bool)
      requires Valid() && t < |tasks| && v < |servers| && pcs[t] == AbortLock(v)
      modifies this`servers, this`pcs, this`states, this`labels
      ensures Valid() && old(labels) <= labels && states[0] == old(states[0])
      ensures (locked <==> old(Now()).servers[v].walker.None?)
      ensures if locked then labels == old(labels) + [Label(t, Continue)]
              else labels == old(labels) && states == old(states)
      ensures pcs[t] == if locked then AbortWalk(v, 0) else AbortLock(v)
      ensures v < |servers| && servers[v].aborted == old(servers[v].aborted)
      ensures servers[v].threads == old(servers[v].threads)
    {
      locked := servers[v].walker.None?;
      if locked {
        servers := servers[v := servers[v].(walker := Some(t))];
        pcs := pcs[t := AbortWalk(v, 0)];
        Record(t, Continue);
      }
    }

    /** One turn of the loop in `unpark`, on the server's `k`-th thread. */
    method UnparkThread(t: Tid, v: nat, k: nat) returns (done: bool)
      requires Valid() && t < |tasks| && v < |servers| && pcs[t] == AbortWalk(v, k)
      requires k < |servers[v].threads| && servers[v].threads[k] < |tasks|
      modifies this`pcs, this`states, this`labels, tasks[servers[v].threads[k]]
      ensures Valid() && old(labels) <= labels && states[0] == old(states[0])
      ensures (done <==> CanUnpark(old(Now()), servers[v].threads[k]))
      ensures if done then labels == old(labels) + [Label(t, Continue)]
              else labels == old(labels) && states == old(states)
      ensures pcs[t] == AbortWalk(v, if done then k + 1 else k)
    {
      done := tasks[servers[v].threads[k]].UnparkOnce();
      if done {
        pcs := pcs[t := AbortWalk(v, k + 1)];
        Record(t, Continue);
      }
    }

    method UnlockThreads(t: Tid, v: nat)
      requires Valid() && t < |tasks| && v < |servers| && pcs[t].AbortWalk? && pcs[t].server == v
      requires pcs[t].next >= |servers[v].threads|
      modifies this`servers, this`pcs, this`states, this`labels
      ensures Valid() && labels == old(labels) + [Label(t, Continue)] && states[0] == old(states[0])
      ensures pcs[t] == UserCode
      ensures v < |servers| && servers[v].aborted == old(servers[v].aborted)
      ensures servers[v].threads == old(servers[v].threads)
    {
      servers := servers[v := servers[v].(walker := None)];
      pcs := pcs[t := UserCode];
      Record(t, Continue);
    }

    // -------------------------------------------------------------------------------------------
    // What a thread in user code starts, and what it is in the middle of.

    /** The ring's own part of an operation, if the handle it needs exists. */
    method Operate(q: nat, op: QueueClient.Op<T>, ghost queues: seq<QueueState<T>>) returns (e: Option<Event<T>>)
      requires Separate() && MirrorsQueues(queues) && q < |tables|
      modifies tables[q], tables[q].buffer
      ensures e.None? ==> MirrorsQueues(queues)
      ensures e.Some? <==> QueueClient.HasHandle(queues[q].channel, op)
      ensures e.Some? ==> QueueClient.IsOutcome(op, e.value)
      ensures e.Some? ==> QueueSpec.Enabled(queues[q].channel, e.value)
      ensures e.Some? ==> MirrorsQueues(queues[q := queues[q].(channel := Apply(queues[q].channel, e.value))])
    {
      assert tables[q].Valid() && queues[q].channel == tables[q].Abs();
      var asked := QueueClient.HandleExists(tables[q], op);
      if !asked {
        return None;
      }
      var event := QueueClient.Perform(tables[q], op);
      return Some(event);
    }

    /** An operation; if it succeeded, the thread goes on to `wake_all`. */
    method StartOperation(t: Tid, q: nat, op: QueueClient.Op<T>)
      requires Valid() && t < |tasks| && q < |tables| && pcs[t].UserCode?
      modifies this`pcs, this`states, this`labels, tables[q], tables[q].buffer
      ensures Valid() && old(labels) <= labels && states[0] == old(states[0])
      ensures IsOneStepOf(old(states), old(labels), states, labels, t)
      ensures labels != old(labels) <==> QueueClient.HasHandle(old(Now()).queues[q].channel, op)
      ensures labels != old(labels) ==>
                var a := labels[|labels| - 1].action; a.Operate? && a.queue == q && QueueClient.IsOutcome(op, a.event)
    {
      var e := Operate(q, op, Now().queues);
      if e.Some? {
        FinishOperation(t, q, e.value);
      }
    }

    /** The ring has taken the step; a thread whose operation succeeded goes on to `wake_all`. */
    method FinishOperation(t: Tid, q: nat, e: Event<T>)
      requires Separate() && IsRun(states, labels) && MirrorsThreads(Now().threads) && Now().servers == servers
      requires t < |tasks| && q < |tables| && pcs[t].UserCode? && |Now().queues| == |tables|
      requires QueueSpec.Enabled(Now().queues[q].channel, e)
      requires MirrorsQueues(Now().queues[q := Now().queues[q].(channel := Apply(Now().queues[q].channel, e))])
      modifies this`pcs, this`states, this`labels
      ensures Valid() && labels == old(labels) + [Label(t, Action.Operate(q, e))] && states[0] == old(states[0])
    {
      var kind := Wakes(e);
      if kind.Some? {
        pcs := pcs[t := WakeTake(WaitList(q, kind.value))];
      }
      Record(t, Action.Operate(q, e));
    }

    method SwitchServer(t: Tid, current: Option<nat>)
      requires Valid() && t < |tasks| && pcs[t].UserCode?
      modifies this`currents, this`states, this`labels
      ensures Valid() && labels == old(labels) + [Label(t, SetCurrent(current))] && states[0] == old(states[0])
      ensures currents == old(currents)[t := current] && Now().threads[t].current == current
    {
      currents := currents[t := current];
      Record(t, SetCurrent(current));
    }

    method AttachTask(t: Tid, v: nat)
      requires Valid() && t < |tasks| && pcs[t].UserCode? && v < |servers| && servers[v].walker.None?
      modifies this`servers, this`states, this`labels
      ensures Valid() && labels == old(labels) + [Label(t, Attach(v))] && states[0] == old(states[0])
      ensures v < |servers| && servers[v].threads == old(servers[v].threads) + [t]
    {
      servers := servers[v := servers[v].(threads := servers[v].threads + [t])];
      Record(t, Attach(v));
    }

    method Start(t: Tid, r: Request<T>)
      requires Valid() && t < |tasks| && pcs[t].UserCode?
      modifies this`servers, this`currents, this`pcs, this`states, this`labels, tasks[t], tables, Buffers()
      ensures Valid() && old(labels) <= labels && states[0] == old(states[0])
      ensures IsOneStepOf(old(states), old(labels), states, labels, t)
    {
      match r
      case UseQueue(q, op) =>
        if q < |tables| {
          StartOperation(t, q, op);
        }
      case StartBlocking(blockers) =>
        if forall b :: b in blockers ==> b.queue < |tables| {
          BeginBlocking(t, blockers);
        }
      case ChangeServer(current) => SwitchServer(t, current);
      case AttachTo(v) =>
        if v < |servers| && servers[v].walker.None? {
          AttachTask(t, v);
        }
      case StartAbort(v) =>
        if v < |servers| {
          SetAborted(t, v);
        }
    }

    /** The next region of whatever the thread is in the middle of, if it can go on. */
    method Advance(t: Tid)
      requires Valid() && t < |tasks|
      modifies this`servers, this`pcs, this`states, this`labels, tasks, putWaitQueues, readWaitQueues
      ensures Valid() && old(labels) <= labels && states[0] == old(states[0])
      ensures IsOneStepOf(old(states), old(labels), states, labels, t)
    {
      match pcs[t]
      case UserCode =>
      case AbortCheckBefore(bs) => var _ := PassAbortPoint(t, bs);
      case Register(bs, i) =>
        if i < |bs| && bs[i].queue < |tables| {
          PrepareToWait(t, bs, i);
        }
      case Check(bs, i) =>
        if i < |bs| && bs[i].queue < |tables| {
          var _ := CheckBlocker(t, bs, i);
        }
      case Deregister(bs, i, k) =>
        if i < |bs| && bs[i].queue < |tables| {
          FinishWait(t, bs, i, k);
        }
      case Park(bs) => EnterPark(t, bs);
      case Parked(bs) => var _ := LeavePark(t, bs);
      case AbortCheckAfter => var _ := PassLastAbortPoint(t);
      case _ => AdvanceUnparking(t);
    }

    /** The same in `wake_all` and in `abort`. */
    method AdvanceUnparking(t: Tid)
      requires Valid() && t < |tasks|
      modifies this`servers, this`pcs, this`states, this`labels, tasks, putWaitQueues, readWaitQueues
      ensures Valid() && old(labels) <= labels && states[0] == old(states[0])
      ensures IsOneStepOf(old(states), old(labels), states, labels, t)
    {
      match pcs[t]
      case WakeTake(l) =>
        if l.queue < |tables| {
          var _ := TakeList(t, l);
        }
      case WakeLoop(l, rest) =>
        if rest == [] {
          FinishWake(t);
        } else if rest[0] < |tasks| {
          var _ := UnparkTaken(t, l, rest);
        }
      case AbortLock(v) =>
        if v < |servers| {
          var _ := LockThreads(t, v);
        }
      case AbortWalk(v, k) =>
        if v < |servers| && k >= |servers[v].threads| {
          UnlockThreads(t, v);
        } else if v < |servers| && servers[v].threads[k] < |tasks| {
          var _ := UnparkThread(t, v, k);
        }
      case _ =>
    }

    /** Any threads but `t` run on as far as they like, in any order. */
    method OthersRun(t: Tid)
      requires Valid() && t < |tasks|
      modifies this, tasks, tables, Buffers(), putWaitQueues, readWaitQueues
      ensures Valid() && old(labels) <= labels && states[0] == old(states[0]) && IsUndisturbed(old(Now()), Now(), t)
      ensures pcs[t] == old(pcs[t])
    {
      ghost var s := Now();
      var schedule: seq<Turn<T>> := *;
      for n := 0 to |schedule|
        invariant Valid() && old(labels) <= labels && states[0] == old(states[0]) && IsUndisturbed(s, Now(), t)
      {
        var u := schedule[n].thread;
        if u != t && 0 <= u < |tasks| {
          ghost var ss, ls := states, labels;
          RunOnce(u, schedule[n].request);
          OneStepLeavesUndisturbed(ss, ls, states, labels, u, t);
          UndisturbedJoins(s, ss[|ls|], Now(), t);
        }
      }
    }

    method RunOnce(u: Tid, r: Request<T>)
      requires Valid() && u < |tasks|
      modifies this, tasks, tables, Buffers(), putWaitQueues, readWaitQueues
      ensures Valid() && old(labels) <= labels && states[0] == old(states[0])
      ensures IsOneStepOf(old(states), old(labels), states, labels, u)
    {
      if pcs[u].UserCode? {
        Start(u, r);
      } else {
        Advance(u);
      }
    }

    // -------------------------------------------------------------------------------------------
    // `block_on`, among any steps of other threads.

    method Prepare(t: Tid, blockers: seq<Blocker>, i: nat)
      requires Valid() && t < |tasks| && i < |blockers| && blockers[i].queue < |tables|
      requires pcs[t] == Register(blockers, i)
      modifies this, tasks, tables, Buffers(), putWaitQueues, readWaitQueues
      ensures Valid() && old(labels) < labels && states[0] == old(states[0]) && pcs[t] == Check(blockers, i)
    {
      OthersRun(t);
      PrepareToWait(t, blockers, i);
    }

    method Recheck(t: Tid, blockers: seq<Blocker>, i: nat) returns (ready: bool)
      requires Valid() && t < |tasks| && i < |blockers| && blockers[i].queue < |tables|
      requires pcs[t] == Check(blockers, i)
      modifies this, tasks, tables, Buffers(), putWaitQueues, readWaitQueues
      ensures Valid() && old(labels) < labels && states[0] == old(states[0])
      ensures pcs[t] == if ready then Deregister(blockers, i, 0) else AfterChecks(blockers, i + 1)
      ensures IsOnListsBefore(Now(), t, blockers, i)
    {
      OthersRun(t);
      ghost var ss, ls := states, labels;
      ready := CheckBlocker(t, blockers, i);
      LastMove(ss, ls, states, labels);
      StillRegistered(ss, ls, Now(), t, blockers, i);
    }

    method Finish(t: Tid, blockers: seq<Blocker>, i: nat, k: nat)
      requires Valid() && t < |tasks| && i < |blockers| && blockers[i].queue < |tables|
      requires pcs[t] == Deregister(blockers, i, k) && IsOnListsBefore(Now(), t, blockers, i)
      modifies this, tasks, tables, Buffers(), putWaitQueues, readWaitQueues
      ensures Valid() && old(labels) < labels && states[0] == old(states[0])
      ensures pcs[t] == if k < i then Deregister(blockers, i, k + 1) else UserCode
      ensures IsOnListsBefore(Now(), t, blockers, i) && t !in Waiters(Now(), ListOf(blockers[i]))
    {
      ghost var before := Now();
      OthersRun(t);
      ghost var ss, ls := states, labels;
      StaysOnListsBefore(before, ss[|ls|], t, blockers, i);
      FinishWait(t, blockers, i, k);
      LastMove(ss, ls, states, labels);
      LeavesOneList(ss, ls, Now(), t, blockers, i, k);
    }

    /** The de-registration loop: it names the blocker that was ready every time. */
    method FinishWaits(t: Tid, blockers: seq<Blocker>, i: nat)
      requires Valid() && t < |tasks| && i < |blockers| && blockers[i].queue < |tables|
      requires pcs[t] == Deregister(blockers, i, 0) && IsOnListsBefore(Now(), t, blockers, i)
      modifies this, tasks, tables, Buffers(), putWaitQueues, readWaitQueues
      ensures Valid() && old(labels) <= labels && states[0] == old(states[0]) && pcs[t].UserCode?
      ensures HasReturnedFrom(Now(), t, blockers, i)
    {
      for k := 0 to i + 1
        invariant Valid() && old(labels) <= labels && states[0] == old(states[0])
        invariant IsOnListsBefore(Now(), t, blockers, i)
        invariant pcs[t] == if k <= i then Deregister(blockers, i, k) else UserCode
        invariant k > 0 ==> t !in Waiters(Now(), ListOf(blockers[i]))
      {
        Finish(t, blockers, i, k);
      }
    }

    /** One turn of the loop over the blockers. */
    method VisitBlocker(t: Tid, blockers: seq<Blocker>, i: nat) returns (ready: bool)
      requires Valid() && t < |tasks| && i < |blockers| && blockers[i].queue < |tables|
      requires pcs[t] == Register(blockers, i)
      modifies this, tasks, tables, Buffers(), putWaitQueues, readWaitQueues
      ensures Valid() && old(labels) < labels && states[0] == old(states[0])
      ensures if ready then pcs[t].UserCode? && HasReturnedFrom(Now(), t, blockers, i)
              else pcs[t] == AfterChecks(blockers, i + 1)
    {
      Prepare(t, blockers, i);
      ready := Recheck(t, blockers, i);
      if ready {
        FinishWaits(t, blockers, i);
      }
    }

    method Enter(t: Tid, blockers: seq<Blocker>) returns (panics: bool)
      requires Valid() && t < |tasks| && pcs[t].UserCode? && forall b :: b in blockers ==> b.queue < |tables|
      modifies this, tasks, tables, Buffers(), putWaitQueues, readWaitQueues
      ensures Valid() && old(labels) < labels && states[0] == old(states[0])
      ensures (panics <==> IsAborted(Now(), Now().threads[t].current))
      ensures pcs[t] == if panics then UserCode else AfterChecks(blockers, 0)
    {
      BeginBlocking(t, blockers);
      OthersRun(t);
      panics := PassAbortPoint(t, blockers);
    }

    /** `patience` bounds how many rounds of other threads the model watches a parked thread for. */
    method BlockOn(t: Tid, blockers: seq<Blocker>, patience: nat) returns (outcome: Outcome)
      requires Valid() && t < |tasks| && pcs[t].UserCode? && forall b :: b in blockers ==> b.queue < |tables|
      modifies this, tasks, tables, Buffers(), putWaitQueues, readWaitQueues
      ensures Valid() && old(labels) < labels && states[0] == old(states[0])
      ensures !outcome.Asleep? ==> pcs[t].UserCode?
      ensures outcome.ReturnedEarly? ==> HasReturnedFrom(Now(), t, blockers, outcome.i)
      ensures outcome.Panicked? ==> IsAborted(Now(), Now().threads[t].current)
      ensures outcome.Asleep? ==> IsSafelyAsleep(states, labels, t, blockers)
    {
      var panics := Enter(t, blockers);
      if panics {
        return Panicked;
      }
      for i := 0 to |blockers|
        invariant Valid() && old(labels) < labels && states[0] == old(states[0]) && pcs[t] == AfterChecks(blockers, i)
      {
        var ready := VisitBlocker(t, blockers, i);
        if ready {
          return ReturnedEarly(i);
        }
      }
      outcome := Sleep(t, blockers, patience);
    }

    /** `park`: one look at the state after each stretch of the others, for as long as the model has patience. */
    method ParkAmongOthers(t: Tid, blockers: seq<Blocker>, patience: nat) returns (woken: bool)
      requires Valid() && t < |tasks| && pcs[t] == Park(blockers)
      modifies this, tasks, tables, Buffers(), putWaitQueues, readWaitQueues
      ensures Valid() && old(labels) < labels && states[0] == old(states[0])
      ensures if woken then pcs[t] == AbortCheckAfter else IsSafelyAsleep(states, labels, t, blockers)
    {
      OthersRun(t);
      EnterPark(t, blockers);
      woken := false;
      for round := 0 to patience
        invariant Valid() && old(labels) < labels && states[0] == old(states[0]) && !woken
        invariant pcs[t] == Parked(blockers) && tasks[t].state == Blocked
      {
        woken := LookAgain(t, blockers);
        if woken {
          return;
        }
      }
      SleepsSafely(states, labels, t, blockers);
    }

    method LookAgain(t: Tid, blockers: seq<Blocker>) returns (woken: bool)
      requires Valid() && t < |tasks| && pcs[t] == Parked(blockers)
      modifies this, tasks, tables, Buffers(), putWaitQueues, readWaitQueues
      ensures Valid() && old(labels) <= labels && states[0] == old(states[0])
      ensures if woken then pcs[t] == AbortCheckAfter
              else pcs[t] == Parked(blockers) && tasks[t].state == Blocked
    {
      OthersRun(t);
      woken := LeavePark(t, blockers);
    }

    /** `park` and the second abort point. */
    method Sleep(t: Tid, blockers: seq<Blocker>, patience: nat) returns (outcome: Outcome)
      requires Valid() && t < |tasks| && pcs[t] == Park(blockers)
      modifies this, tasks, tables, Buffers(), putWaitQueues, readWaitQueues
      ensures Valid() && old(labels) < labels && states[0] == old(states[0])
      ensures outcome.Asleep? || (pcs[t].UserCode? && (outcome.Panicked? || outcome.Woken?))
      ensures !outcome.Asleep? ==> (outcome.Panicked? <==> IsAborted(Now(), Now().threads[t].current))
      ensures outcome.Asleep? ==> IsSafelyAsleep(states, labels, t, blockers)
    {
      var woken := ParkAmongOthers(t, blockers, patience);
      if !woken {
        return Asleep;
      }
      var panics := Leave(t);
      outcome := if panics then Panicked else Woken;
    }

    method Leave(t: Tid) returns (panics: bool)
      requires Valid() && t < |tasks| && pcs[t].AbortCheckAfter?
      modifies this, tasks, tables, Buffers(), putWaitQueues, readWaitQueues
      ensures Valid() && old(labels) < labels && states[0] == old(states[0]) && pcs[t].UserCode?
      ensures panics <==> IsAborted(Now(), Now().threads[t].current)
    {
      OthersRun(t);
      panics := PassLastAbortPoint(t);
    }

    // -------------------------------------------------------------------------------------------
    // `wake_all` and `abort`, among any steps of other threads.

    /**
     `taken` is what was on the list when the call took it. When the call returns, it has unparked all of them; it does
     not return to a caller that is among them and still `Blocking`.
     */
    method WakeAll(t: Tid, l: WaitList, patience: nat) returns (taken: seq<Tid>, returned: bool)
      requires Valid() && t < |tasks| && l.queue < |tables| && pcs[t] == WakeTake(l)
      modifies this, tasks, tables, Buffers(), putWaitQueues, readWaitQueues
      ensures Valid() && old(labels) < labels && states[0] == old(states[0])
      ensures TookSince(states, labels, |old(labels)|, t, l, taken)
      ensures returned ==> pcs[t].UserCode?
      ensures returned ==> forall u :: u in taken ==> UnparkedSince(states, labels, |old(labels)|, t, u)
      ensures t in taken && old(Now()).threads[t].state == Blocking ==> !returned
    {
      ghost var start := |labels|;
      taken := TakeAmongOthers(t, l);
      ghost var ss, ls := states, labels;
      returned := UnparkAll(t, l, taken, patience);
      RunsAgree(ss, ls, states, labels);
      TookSinceStays(ss, ls, states, labels, start, t, l, taken);
      if returned {
        WalkIsOver(states, labels, |ls|, t, taken);
        UnparkedSinceEarlier(states, labels, start, |ls|, t, taken);
      }
    }

    method TakeAmongOthers(t: Tid, l: WaitList) returns (taken: seq<Tid>)
      requires Valid() && t < |tasks| && l.queue < |tables| && pcs[t] == WakeTake(l)
      modifies this, tasks, tables, Buffers(), putWaitQueues, readWaitQueues
      ensures Valid() && old(labels) < labels && states[0] == old(states[0]) && pcs[t] == WakeLoop(l, taken)
      ensures TookSince(states, labels, |old(labels)|, t, l, taken)
      ensures old(Now()).threads[t].state == Blocking ==> Now().threads[t].state == Blocking
      ensures forall u :: u in taken ==> IsBehind(Now(), t, u)
    {
      OthersRun(t);
      ghost var ss, ls := states, labels;
      taken := TakeList(t, l);
      RunsAgree(ss, ls, states, labels);
      LastMove(ss, ls, states, labels);
      TakesList(ss, ls, states, labels, t, l);
    }

    /** The loop over the tasks that were taken, with the loop of `unpark` inside. */
    method UnparkAll(t: Tid, l: WaitList, taken: seq<Tid>, patience: nat) returns (returned: bool)
      requires Valid() && t < |tasks| && pcs[t] == WakeLoop(l, taken)
      modifies this, tasks, tables, Buffers(), putWaitQueues, readWaitQueues
      ensures Valid() && old(labels) <= labels && states[0] == old(states[0]) && (returned ==> pcs[t].UserCode?)
    {
      var rest, rounds := taken, patience;
      while rest != [] && rounds > 0
        invariant Valid() && old(labels) <= labels && states[0] == old(states[0]) && pcs[t] == WakeLoop(l, rest)
      {
        var done := UnparkAmongOthers(t, l, rest);
        rest, rounds := if done then rest[1..] else rest, rounds - 1;
      }
      returned := rest == [];
      if returned {
        FinishWake(t);
      }
    }

    method UnparkAmongOthers(t: Tid, l: WaitList, rest: seq<Tid>) returns (done: bool)
      requires Valid() && t < |tasks| && pcs[t] == WakeLoop(l, rest) && rest != []
      modifies this, tasks, tables, Buffers(), putWaitQueues, readWaitQueues
      ensures Valid() && old(labels) <= labels && states[0] == old(states[0])
      ensures pcs[t] == WakeLoop(l, if done then rest[1..] else rest)
    {
      OthersRun(t);
      NextTakenExists(states, labels, t);
      done := UnparkTaken(t, l, rest);
    }

    /**
     When the call returns, it has unparked each thread that the server had at the call; it does not return to a caller
     that is one of them and still `Blocking`.
     */
    method AbortServer(t: Tid, v: nat, patience: nat) returns (returned: bool)
      requires Valid() && t < |tasks| && v < |servers| && pcs[t].UserCode?
      modifies this, tasks, tables, Buffers(), putWaitQueues, readWaitQueues
      ensures Valid() && old(labels) < labels && states[0] == old(states[0]) && v < |servers| && servers[v].aborted
      ensures returned ==> pcs[t].UserCode?
      ensures returned ==>
                forall u :: u in old(servers[v].threads) ==> UnparkedSince(states, labels, |old(labels)|, t, u)
      ensures t in old(servers[v].threads) && old(Now()).threads[t].state == Blocking ==> !returned
    {
      ghost var start, attached := |labels|, servers[v].threads;
      ghost var ss0, ls0 := states, labels;
      SetAborted(t, v);
      LastMove(ss0, ls0, states, labels);
      ghost var ss, ls := states, labels;
      returned := UnparkServer(t, v, patience);
      if returned {
        RunsAgree(ss, ls, states, labels);
        WalkIsOver(states, labels, |ls|, t, attached);
        UnparkedSinceEarlier(states, labels, start, |ls|, t, attached);
      }
    }

    method UnparkServer(t: Tid, v: nat, patience: nat) returns (returned: bool)
      requires Valid() && t < |tasks| && v < |servers| && servers[v].aborted && pcs[t] == AbortLock(v)
      modifies this, tasks, tables, Buffers(), putWaitQueues, readWaitQueues
      ensures Valid() && old(labels) <= labels && states[0] == old(states[0]) && v < |servers| && servers[v].aborted
      ensures returned ==> pcs[t].UserCode?
    {
      returned := LockAmongOthers(t, v, patience);
      if returned {
        returned := UnparkThreads(t, v, patience);
      }
    }

    /** The loop over the server's threads, with the loop of `unpark` inside. */
    method UnparkThreads(t: Tid, v: nat, patience: nat) returns (returned: bool)
      requires Valid() && t < |tasks| && v < |servers| && servers[v].aborted && pcs[t] == AbortWalk(v, 0)
      modifies this, tasks, tables, Buffers(), putWaitQueues, readWaitQueues
      ensures Valid() && old(labels) <= labels && states[0] == old(states[0]) && v < |servers| && servers[v].aborted
      ensures returned ==> pcs[t].UserCode?
    {
      var k, rounds := 0, patience;
      while k < |servers[v].threads| && rounds > 0
        invariant Valid() && old(labels) <= labels && states[0] == old(states[0]) && v < |servers| && servers[v].aborted
        invariant pcs[t] == AbortWalk(v, k)
        decreases rounds
      {
        var done := WalkAmongOthers(t, v, k);
        k, rounds := if done then k + 1 else k, rounds - 1;
      }
      returned := k >= |servers[v].threads|;
      if returned {
        UnlockThreads(t, v);
      }
    }

    method WalkAmongOthers(t: Tid, v: nat, k: nat) returns (done: bool)
      requires Valid() && t < |tasks| && v < |servers| && servers[v].aborted
      requires pcs[t] == AbortWalk(v, k) && k < |servers[v].threads|
      modifies this, tasks, tables, Buffers(), putWaitQueues, readWaitQueues
      ensures Valid() && old(labels) <= labels && states[0] == old(states[0]) && v < |servers| && servers[v].aborted
      ensures pcs[t] == AbortWalk(v, if done then k + 1 else k)
    {
      OthersRun(t);
      NextAttachedExists(states, labels, v, k);
      done := UnparkThread(t, v, k);
    }

    method LockAmongOthers(t: Tid, v: nat, patience: nat) returns (locked: bool)
      requires Valid() && t < |tasks| && v < |servers| && servers[v].aborted && pcs[t] == AbortLock(v)
      modifies this, tasks, tables, Buffers(), putWaitQueues, readWaitQueues
      ensures Valid() && old(labels) <= labels && states[0] == old(states[0]) && v < |servers| && servers[v].aborted
      ensures pcs[t] == if locked then AbortWalk(v, 0) else AbortLock(v)
    {
      locked := false;
      for round := 0 to patience
        invariant Valid() && old(labels) <= labels && states[0] == old(states[0]) && v < |servers| && servers[v].aborted
        invariant pcs[t] == AbortLock(v)
      {
        locked := TryLockAmongOthers(t, v);
        if locked {
          return;
        }
      }
    }

    method TryLockAmongOthers(t: Tid, v: nat) returns (locked: bool)
      requires Valid() && t < |tasks| && v < |servers| && servers[v].aborted && pcs[t] == AbortLock(v)
      modifies this, tasks, tables, Buffers(), putWaitQueues, readWaitQueues
      ensures Valid() && old(labels) <= labels && states[0] == old(states[0]) && v < |servers| && servers[v].aborted
      ensures pcs[t] == if locked then AbortWalk(v, 0) else AbortLock(v)
    {
      OthersRun(t);
      locked := LockThreads(t, v);
    }
  }
}
