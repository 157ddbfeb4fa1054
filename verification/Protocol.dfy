/**
 The blocking and abort protocol as a labelled transition system: any number of threads, queues and
 servers, and one step for each lock-protected region of the code, interleaved in any order.

 A thread in `UserCode` may start anything: a queue operation, a `block_on`, an abort, a change of its
 current server. Everything else is a program counter inside one of those, and `Continue` runs it on.
 A panic at an abort point is a return to `UserCode`, from where the thread may go on to abort a server.
 */
module Protocol {
  import opened Wrappers
  import opened QueueSpec
  import opened Tasks

  /** One handle that a thread waits on: which queue, and what for. */
  datatype Blocker = Blocker(queue: nat, interest: Interest)

  datatype WaitList = WaitList(queue: nat, kind: ListKind)

  function ListOf(b: Blocker): WaitList { WaitList(b.queue, WaitsOn(b.interest)) }

  datatype Pc =
    | UserCode
    // `block_on(blockers)`
    | AbortCheckBefore(blockers: seq<Blocker>)
    | Register(blockers: seq<Blocker>, i: nat)
    | Check(blockers: seq<Blocker>, i: nat)
    | Deregister(blockers: seq<Blocker>, i: nat, k: nat)
    | Park(blockers: seq<Blocker>)
    | Parked(blockers: seq<Blocker>)
    | AbortCheckAfter
    // `wake_all` on one list, after a queue operation that succeeded
    | WakeTake(list: WaitList)
    | WakeLoop(list: WaitList, rest: seq<Tid>)
    // `ServerBase::abort`, after the flag is set
    | AbortLock(server: nat)
    | AbortWalk(server: nat, next: nat)

  datatype Thread = Thread(state: TaskState, pc: Pc, current: Option<nat>)

  datatype QueueState<T> = QueueState(channel: Channel<T>, putWaiters: seq<Tid>, readWaiters: seq<Tid>)

  /** `walker` holds the lock on `threads`; `firstAborter` records who set the flag first. */
  datatype Server = Server(aborted: bool, threads: seq<Tid>, walker: Option<Tid>, firstAborter: Option<Tid>)

  datatype State<T> = State(threads: seq<Thread>, queues: seq<QueueState<T>>, servers: seq<Server>)

  datatype Action<T> =
    | Operate(queue: nat, event: Event<T>)
    | Block(blockers: seq<Blocker>)
    | SetCurrent(current: Option<nat>)
    | Attach(server: nat)
    | Abort(server: nat)
    | Continue

  function Waiters<T>(s: State<T>, l: WaitList): seq<Tid> {
    if l.queue < |s.queues| then
      if l.kind.PutList? then s.queues[l.queue].putWaiters else s.queues[l.queue].readWaiters
    else []
  }

  function SetWaiters<T>(s: State<T>, l: WaitList, tasks: seq<Tid>): State<T> {
    if l.queue < |s.queues| then
      s.(queues := s.queues[l.queue := if l.kind.PutList? then s.queues[l.queue].(putWaiters := tasks)
                                       else s.queues[l.queue].(readWaiters := tasks)])
    else s
  }

  function SetPc<T>(s: State<T>, t: Tid, pc: Pc): State<T>
    requires t < |s.threads|
  {
    s.(threads := s.threads[t := s.threads[t].(pc := pc)])
  }

  function SetState<T>(s: State<T>, t: Tid, state: TaskState): State<T>
    requires t < |s.threads|
  {
    s.(threads := s.threads[t := s.threads[t].(state := state)])
  }

  predicate ShouldTry<T>(s: State<T>, b: Blocker) {
    b.queue < |s.queues| && Ready(s.queues[b.queue].channel, b.interest)
  }

  predicate IsAborted<T>(s: State<T>, server: Option<nat>) {
    server.Some? && server.value < |s.servers| && s.servers[server.value].aborted
  }

  /** `unpark` gets past its loop once the task is not in the middle of checking its conditions. */
  predicate CanUnpark<T>(s: State<T>, t: Tid) {
    t < |s.threads| && s.threads[t].state != Blocking
  }

  predicate CanStep<T(==)>(s: State<T>, t: Tid, a: Action<T>) {
    && t < |s.threads|
    && (a.Continue? <==> !s.threads[t].pc.UserCode?)
    && match a
       case Operate(q, e) => q < |s.queues| && QueueSpec.Enabled(s.queues[q].channel, e)
       case Block(bs) => forall b :: b in bs ==> b.queue < |s.queues|
       case SetCurrent(_) => true
       case Attach(sv) => sv < |s.servers| && s.servers[sv].walker.None?
       case Abort(sv) => sv < |s.servers|
       case Continue =>
         match s.threads[t].pc
         case Parked(_) => s.threads[t].state != Blocked
         case WakeLoop(_, rest) => rest != [] ==> CanUnpark(s, rest[0])
         case AbortLock(sv) => sv < |s.servers| && s.servers[sv].walker.None?
         case AbortWalk(sv, k) =>
           sv < |s.servers| && (k < |s.servers[sv].threads| ==> CanUnpark(s, s.servers[sv].threads[k]))
         case _ => true
  }

  function AfterChecks(bs: seq<Blocker>, i: nat): Pc {
    if i < |bs| then Register(bs, i) else Park(bs)
  }

  function Step<T(==)>(s: State<T>, t: Tid, a: Action<T>): State<T>
    requires CanStep(s, t, a)
  {
    match a
    case Operate(q, e) =>
      var s1 := s.(queues := s.queues[q := s.queues[q].(channel := Apply(s.queues[q].channel, e))]);
      (match Wakes(e)
       case Some(kind) => SetPc(s1, t, WakeTake(WaitList(q, kind)))
       case None => s1)
    case Block(bs) => SetPc(SetState(s, t, Blocking), t, AbortCheckBefore(bs))
    case SetCurrent(sv) => s.(threads := s.threads[t := s.threads[t].(current := sv)])
    case Attach(sv) =>
      s.(servers := s.servers[sv := s.servers[sv].(threads := s.servers[sv].threads + [t])])
    case Abort(sv) =>
      var first := if s.servers[sv].aborted then s.servers[sv].firstAborter else Some(t);
      SetPc(s.(servers := s.servers[sv := s.servers[sv].(aborted := true, firstAborter := first)]), t, AbortLock(sv))
    case Continue => Resume(s, t)
  }

  /** The next region of whatever `t` is in the middle of. */
  function Resume<T(==)>(s: State<T>, t: Tid): State<T>
    requires CanStep(s, t, Continue)
  {
    match s.threads[t].pc
    case UserCode => s
    case AbortCheckBefore(bs) =>
      SetPc(s, t, if IsAborted(s, s.threads[t].current) then UserCode else AfterChecks(bs, 0))
    case Register(bs, i) =>
      if i < |bs| then
        var l := ListOf(bs[i]);
        SetPc(SetWaiters(s, l, Added(Waiters(s, l), t)), t, Check(bs, i))
      else s
    case Check(bs, i) =>
      if i < |bs| then SetPc(s, t, if ShouldTry(s, bs[i]) then Deregister(bs, i, 0) else AfterChecks(bs, i + 1))
      else s
    case Deregister(bs, i, k) =>
      if i < |bs| then
        var l := ListOf(bs[i]);
        SetPc(SetWaiters(s, l, Removed(Waiters(s, l), t)), t, if k < i then Deregister(bs, i, k + 1) else UserCode)
      else s
    case Park(bs) => SetPc(SetState(s, t, Blocked), t, Parked(bs))
    case Parked(_) => SetPc(s, t, AbortCheckAfter)
    case AbortCheckAfter => SetPc(s, t, UserCode)
    case WakeTake(l) => SetPc(SetWaiters(s, l, []), t, WakeLoop(l, Waiters(s, l)))
    case WakeLoop(l, rest) =>
      if rest == [] then SetPc(s, t, UserCode)
      else SetPc(SetState(s, rest[0], Running), t, WakeLoop(l, rest[1..]))
    case AbortLock(sv) =>
      SetPc(s.(servers := s.servers[sv := s.servers[sv].(walker := Some(t))]), t, AbortWalk(sv, 0))
    case AbortWalk(sv, k) =>
      if k < |s.servers[sv].threads| then
        SetPc(SetState(s, s.servers[sv].threads[k], Running), t, AbortWalk(sv, k + 1))
      else
        SetPc(s.(servers := s.servers[sv := s.servers[sv].(walker := None)]), t, UserCode)
  }

  // ---------------------------------------------------------------------------------------------
  // Runs.

  datatype Label<T> = Label(thread: Tid, action: Action<T>)

  ghost predicate Moves<T>(s: State<T>, l: Label<T>, s': State<T>) {
    CanStep(s, l.thread, l.action) && s' == Step(s, l.thread, l.action)
  }

  ghost predicate Behavior<T>(ss: seq<State<T>>, ls: seq<Label<T>>) {
    && |ss| == |ls| + 1
    && forall i :: 0 <= i < |ls| ==> Moves(ss[i], ls[i], ss[i + 1])
  }

  lemma LastStep<T>(ss: seq<State<T>>, ls: seq<Label<T>>)
    requires Behavior(ss, ls) && ls != []
    ensures Behavior(ss[..|ls|], ls[..|ls| - 1]) && Moves(ss[|ls| - 1], ls[|ls| - 1], ss[|ls|])
  {
    assert Moves(ss[|ls| - 1], ls[|ls| - 1], ss[|ls| - 1 + 1]);
  }

  /** A run goes on with one more step. */
  lemma Then<T>(ss: seq<State<T>>, ls: seq<Label<T>>, x: Label<T>) returns (ss': seq<State<T>>, ls': seq<Label<T>>)
    requires Behavior(ss, ls) && CanStep(ss[|ls|], x.thread, x.action)
    ensures Behavior(ss', ls') && ls' == ls + [x] && ss <= ss' && ss'[0] == ss[0]
    ensures ss'[|ls'|] == Step(ss[|ls|], x.thread, x.action)
  {
    ss', ls' := ss + [Step(ss[|ls|], x.thread, x.action)], ls + [x];
    forall i | 0 <= i < |ls'|
      ensures Moves(ss'[i], ls'[i], ss'[i + 1])
    {
      assert i < |ls| ==> Moves(ss[i], ls[i], ss[i + 1]);
    }
  }

  const IDLE: Thread := Thread(Running, UserCode, None)

  ghost predicate Init<T>(s: State<T>) {
    && (forall t :: 0 <= t < |s.threads| ==> s.threads[t] == IDLE)
    && (forall q :: 0 <= q < |s.queues| ==>
          WellFormed(s.queues[q].channel) && s.queues[q].putWaiters == [] && s.queues[q].readWaiters == [])
    && (forall v :: 0 <= v < |s.servers| ==> s.servers[v] == Server(false, [], None, None))
  }

  /** A dropped reader took the queue from full to not full, which wakes nobody. */
  predicate FreesRoomSilently<T>(s: State<T>, a: Action<T>) {
    && a.Operate? && a.queue < |s.queues| && a.event.IsDetach()
    && !HasRoom(s.queues[a.queue].channel)
    && HasRoom(Apply(s.queues[a.queue].channel, a.event))
  }
}
