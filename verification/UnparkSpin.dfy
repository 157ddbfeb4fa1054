/**
 Threads on which `unpark` spins for ever. A thread whose `block_on` returned without parking is still `Blocking`, and a
 thread that comes to unpark itself in that state, in an abort of its server or in `wake_all`, never gets past itself.
 `StuckGroups` has the general case, in which several threads wait for each other.
 */
module UnparkSpin {
  import opened Wrappers
  import opened QueueSpec
  import opened Tasks
  import opened Protocol
  import opened ProtocolProofs
  import opened AbortProofs
  import opened BlockOnRuns

  // ---------------------------------------------------------------------------------------------
  // Who is `Blocking` outside `block_on`.

  /** The last step is `t`'s return from `block_on`, by whichever way out. */
  predicate Returns<T>(s: State<T>, x: Label<T>, s': State<T>, t: Tid) {
    x.thread == t < |s.threads| == |s'.threads| && InBlockOn(s.threads[t].pc) && !InBlockOn(s'.threads[t].pc)
  }

  /** The latest return of `t` from `block_on` was an early one, or the panic at the first abort point. */
  predicate ReturnedUnparked<T(==)>(ss: seq<State<T>>, ls: seq<Label<T>>, t: Tid)
    requires |ss| == |ls| + 1
    decreases |ls|
  {
    ls != [] &&
    var n := |ls| - 1;
    if Returns(ss[n], ls[n], ss[n + 1], t) then !ss[n].threads[t].pc.AbortCheckAfter?
    else ReturnedUnparked(ss[..n + 1], ls[..n], t)
  }

  /** Outside `block_on`, nobody can change whether a thread is `Blocking`. */
  lemma BlockingStays<T>(s: State<T>, x: Label<T>, s': State<T>, t: Tid)
    requires Moves(s, x, s') && t < |s.threads| && !InBlockOn(s.threads[t].pc) && !InBlockOn(s'.threads[t].pc)
    ensures s'.threads[t].state == Blocking <==> s.threads[t].state == Blocking
  {
    if x.thread != t {
      OthersStay(s, x.thread, x.action, t);
    }
  }

  /** A return from `block_on` leaves its thread `Blocking` if and only if the thread did not park. */
  lemma ReturnsBlockingExactly<T>(s: State<T>, x: Label<T>, s': State<T>, t: Tid)
    requires Moves(s, x, s') && Returns(s, x, s', t) && ThreadOk(s.threads[t], |s.queues|)
    ensures s'.threads[t].state == Blocking <==> !s.threads[t].pc.AbortCheckAfter?
  {
  }

  lemma StaysOutside<T>(s: State<T>, x: Label<T>, s': State<T>, t: Tid)
    requires Moves(s, x, s') && t < |s.threads| && !Returns(s, x, s', t) && !InBlockOn(s'.threads[t].pc)
    ensures !InBlockOn(s.threads[t].pc)
  {
    if x.thread != t {
      OthersStay(s, x.thread, x.action, t);
    }
  }

  /** In every run, a thread outside `block_on` is `Blocking` if and only if it last returned without parking. */
  lemma {:induction false} BlockingOutsideExactly<T>(ss: seq<State<T>>, ls: seq<Label<T>>, t: Tid)
    requires Behavior(ss, ls) && Init(ss[0]) && t < |ss[|ls|].threads| && !InBlockOn(ss[|ls|].threads[t].pc)
    ensures ss[|ls|].threads[t].state == Blocking <==> ReturnedUnparked(ss, ls, t)
    decreases |ls|
  {
    if ls != [] {
      var n := |ls| - 1;
      var s, x, s' := ss[n], ls[n], ss[n + 1];
      assert Moves(s, x, s');
      CountsStay(s, x.thread, x.action);
      assert ThreadOk(s.threads[t], |s.queues|) by {
        BehaviorKeepsAborts(ss[..n + 1], ls[..n]);
      }
      if Returns(s, x, s', t) {
        ReturnsBlockingExactly(s, x, s', t);
      } else {
        StaysOutside(s, x, s', t);
        BlockingStays(s, x, s', t);
        BlockingOutsideExactly(ss[..n + 1], ls[..n], t);
      }
    }
  }

  // ---------------------------------------------------------------------------------------------
  // Who unparks itself.

  /** `t` is in `wake_all` or in an abort, and has itself still to unpark. */
  predicate UnparksItself<T>(s: State<T>, t: Tid) {
    && t < |s.threads|
    && match s.threads[t].pc
       case WakeLoop(_, rest) => t in rest
       case AbortLock(v) => WillUnpark(s, t, t, v)
       case AbortWalk(v, _) => WillUnpark(s, t, t, v)
       case _ => false
  }

  predicate SpinsOnItself<T>(s: State<T>, t: Tid) {
    UnparksItself(s, t) && s.threads[t].state == Blocking
  }

  /** `w` has `t` still to unpark, for one list or one server. */
  predicate IsBehind<T>(s: State<T>, w: Tid, t: Tid) {
    && w < |s.threads|
    && match s.threads[w].pc
       case WakeLoop(_, rest) => t in rest
       case AbortLock(v) => WillUnpark(s, w, t, v)
       case AbortWalk(v, _) => WillUnpark(s, w, t, v)
       case _ => false
  }

  /** Nobody gets past a thread that is `Blocking`. */
  lemma BehindStays<T>(s: State<T>, x: Label<T>, s': State<T>, w: Tid, t: Tid)
    requires Moves(s, x, s') && IsBehind(s, w, t) && t < |s.threads| && s.threads[t].state == Blocking
    ensures IsBehind(s', w, t)
  {
    var pc := s.threads[w].pc;
    if w != x.thread {
      OthersStay(s, x.thread, x.action, w);
    }
    if pc.WakeLoop? {
      HoldKept(s, x.thread, x.action, w, t, pc.list);
    } else {
      UnparkKept(s, x.thread, x.action, w, t, pc.server);
    }
  }

  lemma SpinnerStays<T>(s: State<T>, x: Label<T>, s': State<T>, t: Tid)
    requires Moves(s, x, s') && SpinsOnItself(s, t)
    ensures SpinsOnItself(s', t)
  {
    assert IsBehind(s, t, t);
    BehindStays(s, x, s', t, t);
    BlockingStays(s, x, s', t);
  }

  /** A thread that spins on itself does so for ever, and so does everybody who has it still to unpark. */
  lemma {:induction false} SpinsForever<T>(ss: seq<State<T>>, ls: seq<Label<T>>, i: nat, t: Tid)
    requires Behavior(ss, ls) && i <= |ls| && SpinsOnItself(ss[i], t)
    ensures SpinsOnItself(ss[|ls|], t)
    ensures forall w :: IsBehind(ss[i], w, t) ==> IsBehind(ss[|ls|], w, t)
    decreases |ls|
  {
    if i < |ls| {
      var n := |ls| - 1;
      assert Moves(ss[n], ls[n], ss[n + 1]);
      SpinsForever(ss[..n + 1], ls[..n], i, t);
      SpinnerStays(ss[n], ls[n], ss[n + 1], t);
      forall w | IsBehind(ss[i], w, t)
        ensures IsBehind(ss[|ls|], w, t)
      {
        BehindStays(ss[n], ls[n], ss[n + 1], w, t);
      }
    }
  }

  /** A thread that has itself still to unpark is `Blocking` for as long as it is behind itself, or at no time then. */
  lemma {:induction false} NeverOnItself<T>(ss: seq<State<T>>, ls: seq<Label<T>>, i: nat, t: Tid)
    requires Behavior(ss, ls) && i <= |ls| && (forall k :: i <= k <= |ls| ==> UnparksItself(ss[k], t))
    requires t < |ss[i].threads| && ss[i].threads[t].state != Blocking
    ensures t < |ss[|ls|].threads| && ss[|ls|].threads[t].state != Blocking
    decreases |ls|
  {
    if i < |ls| {
      var n := |ls| - 1;
      assert Moves(ss[n], ls[n], ss[n + 1]);
      assert UnparksItself(ss[n], t) && UnparksItself(ss[n + 1], t);
      NeverOnItself(ss[..n + 1], ls[..n], i, t);
      BlockingStays(ss[n], ls[n], ss[n + 1], t);
    }
  }

  /** `t` has come to itself in the list it walks. */
  predicate IsAtItself<T>(s: State<T>, t: Tid) {
    && t < |s.threads|
    && match s.threads[t].pc
       case WakeLoop(_, rest) => rest != [] && rest[0] == t
       case AbortWalk(v, k) => v < |s.servers| && k < |s.servers[v].threads| && s.servers[v].threads[k] == t
       case _ => false
  }

  /**
   `t` calls `abort` on server `v`. The call never returns if `t` is one of the server's threads and `Blocking`;
   otherwise it is not `t` itself that stops it.
   */
  lemma OwnAbortPassesCallerExactly<T>(ss: seq<State<T>>, ls: seq<Label<T>>, i: nat, t: Tid, v: nat)
    requires Behavior(ss, ls) && i < |ls| && ls[i] == Label(t, Abort(v))
    ensures UnparksItself(ss[i + 1], t) <==> t in ss[i].servers[v].threads
    ensures t in ss[i].servers[v].threads && ss[i].threads[t].state == Blocking ==> SpinsOnItself(ss[|ls|], t)
    ensures ss[i].threads[t].state != Blocking && (forall k :: i < k <= |ls| ==> UnparksItself(ss[k], t)) ==>
              ss[|ls|].threads[t].state != Blocking && (IsAtItself(ss[|ls|], t) ==> CanStep(ss[|ls|], t, Continue))
  {
    assert Moves(ss[i], ls[i], ss[i + 1]);
    if t in ss[i].servers[v].threads && ss[i].threads[t].state == Blocking {
      SpinsForever(ss, ls, i + 1, t);
    }
    if ss[i].threads[t].state != Blocking && (forall k :: i < k <= |ls| ==> UnparksItself(ss[k], t)) {
      NeverOnItself(ss, ls, i + 1, t);
    }
  }

  /** `t` takes a wait list in `wake_all`. The same holds of it, if it is on that list. */
  lemma OwnWakePassesCallerExactly<T>(ss: seq<State<T>>, ls: seq<Label<T>>, i: nat, t: Tid, l: WaitList)
    requires Behavior(ss, ls) && i < |ls| && ls[i] == Label(t, Continue) && WillTake(ss[i], t, l)
    ensures UnparksItself(ss[i + 1], t) <==> t in Waiters(ss[i], l)
    ensures t in Waiters(ss[i], l) && ss[i].threads[t].state == Blocking ==> SpinsOnItself(ss[|ls|], t)
    ensures ss[i].threads[t].state != Blocking && (forall k :: i < k <= |ls| ==> UnparksItself(ss[k], t)) ==>
              ss[|ls|].threads[t].state != Blocking && (IsAtItself(ss[|ls|], t) ==> CanStep(ss[|ls|], t, Continue))
  {
    assert Moves(ss[i], ls[i], ss[i + 1]);
    if t in Waiters(ss[i], l) && ss[i].threads[t].state == Blocking {
      SpinsForever(ss, ls, i + 1, t);
    }
    if ss[i].threads[t].state != Blocking && (forall k :: i < k <= |ls| ==> UnparksItself(ss[k], t)) {
      NeverOnItself(ss, ls, i + 1, t);
    }
  }

  // ---------------------------------------------------------------------------------------------
  // Who else is held up.

  /** `t` is `Blocking`, works for a server that is aborted, and is not on its way to park. */
  predicate HoldsUpAborts<T>(s: State<T>, t: Tid, v: nat) {
    && t < |s.threads| && v < |s.servers| && s.servers[v].aborted
    && s.threads[t].state == Blocking && s.threads[t].current == Some(v)
    && !IsPastAbortCheck(s.threads[t])
  }

  lemma HoldUpStays<T>(s: State<T>, x: Label<T>, s': State<T>, t: Tid, v: nat)
    requires Moves(s, x, s') && HoldsUpAborts(s, t, v) && ThreadOk(s.threads[t], |s.queues|)
    requires !(x.thread == t && x.action.SetCurrent?)
    ensures HoldsUpAborts(s', t, v)
  {
    ServersStay(s, x.thread, x.action, v);
    if x.thread != t {
      OthersStay(s, x.thread, x.action, t);
    }
  }

  /** Until it works for another server, such a thread stays as it is, and whoever has it to unpark waits. */
  lemma {:induction false} AbortsAreHeldUp<T>(ss: seq<State<T>>, ls: seq<Label<T>>, i: nat, t: Tid, v: nat)
    requires Behavior(ss, ls) && Init(ss[0]) && i <= |ls| && HoldsUpAborts(ss[i], t, v)
    requires forall k :: i <= k < |ls| ==> !(ls[k].thread == t && ls[k].action.SetCurrent?)
    ensures HoldsUpAborts(ss[|ls|], t, v)
    ensures forall w :: IsBehind(ss[i], w, t) ==> IsBehind(ss[|ls|], w, t)
    decreases |ls|
  {
    if i < |ls| {
      var n := |ls| - 1;
      assert Moves(ss[n], ls[n], ss[n + 1]);
      AbortsAreHeldUp(ss[..n + 1], ls[..n], i, t, v);
      BehaviorKeepsAborts(ss[..n + 1], ls[..n]);
      HoldUpStays(ss[n], ls[n], ss[n + 1], t, v);
      forall w | IsBehind(ss[i], w, t)
        ensures IsBehind(ss[|ls|], w, t)
      {
        BehindStays(ss[n], ls[n], ss[n + 1], w, t);
      }
    }
  }

  // ---------------------------------------------------------------------------------------------
  // Such states are reached: every run can be continued to one by a single thread in user code.

  /**
   From every state in which a thread of server `v` is in user code with a ready blocker at hand: an early return,
   then a failure that makes the thread abort its server, and it spins on itself.
   */
  lemma EarlyReturnThenAbort<T>(ss: seq<State<T>>, ls: seq<Label<T>>, t: Tid, v: nat, b: Blocker)
    returns (ss': seq<State<T>>, ls': seq<Label<T>>)
    requires Behavior(ss, ls) && t < |ss[|ls|].threads| && ss[|ls|].threads[t].pc.UserCode?
    requires v < |ss[|ls|].servers| && t in ss[|ls|].servers[v].threads
    requires !IsAborted(ss[|ls|], ss[|ls|].threads[t].current) && ShouldTry(ss[|ls|], b)
    ensures Behavior(ss', ls') && ss <= ss' && SpinsOnItself(ss'[|ls'|], t) && ss'[|ls'|].threads[t].pc == AbortLock(v)
  {
    ss', ls' := EntersBlockOn(ss, ls, t, [b]);
    ss', ls' := StopsAtBlocker(ss', ls', t, [b], 0, ss[|ls|].threads[t].current);
    ss', ls' := Then(ss', ls', Label(t, SetCurrent(None)));  // the guard of the server context
    ss', ls' := Then(ss', ls', Label(t, Abort(v)));
  }

  /**
   From every state in which a thread of an aborted server works for it in user code: `block_on` panics at its first
   abort point, the thread aborts its server in turn, and spins on itself.
   */
  lemma PanicThenAbort<T>(ss: seq<State<T>>, ls: seq<Label<T>>, t: Tid, v: nat, bs: seq<Blocker>)
    returns (ss': seq<State<T>>, ls': seq<Label<T>>)
    requires Behavior(ss, ls) && t < |ss[|ls|].threads| && ss[|ls|].threads[t].pc.UserCode?
    requires v < |ss[|ls|].servers| && t in ss[|ls|].servers[v].threads
    requires ss[|ls|].servers[v].aborted && ss[|ls|].threads[t].current == Some(v)
    requires forall b :: b in bs ==> b.queue < |ss[|ls|].queues|
    ensures Behavior(ss', ls') && ss <= ss' && SpinsOnItself(ss'[|ls'|], t)
  {
    ss', ls' := Then(ss, ls, Label(t, Block(bs)));
    ss', ls' := Then(ss', ls', Label(t, Continue));
    ss', ls' := Then(ss', ls', Label(t, SetCurrent(None)));
    ss', ls' := Then(ss', ls', Label(t, Abort(v)));
  }

  /**
   From every state in which a thread in user code has a blocker `b0` that is not ready and another, `b1`, that is: a
   `select!` over both leaves it on the list of `b0`, and an operation of its own that wakes that list makes it spin.
   */
  lemma EarlyReturnThenWake<T>(ss: seq<State<T>>, ls: seq<Label<T>>, t: Tid, b0: Blocker, b1: Blocker, e: Event<T>)
    returns (ss': seq<State<T>>, ls': seq<Label<T>>)
    requires Behavior(ss, ls) && t < |ss[|ls|].threads| && ss[|ls|].threads[t].pc.UserCode?
    requires !IsAborted(ss[|ls|], ss[|ls|].threads[t].current)
    requires b0.queue < |ss[|ls|].queues| && !ShouldTry(ss[|ls|], b0) && ShouldTry(ss[|ls|], b1)
    requires ListOf(b0) != ListOf(b1)
    requires QueueSpec.Enabled(ss[|ls|].queues[b0.queue].channel, e) && Wakes(e) == Some(WaitsOn(b0.interest))
    ensures Behavior(ss', ls') && ss <= ss' && SpinsOnItself(ss'[|ls'|], t) && ss'[|ls'|].threads[t].pc.WakeLoop?
  {
    ss', ls' := ReturnsEarly(ss, ls, t, b0, b1);
    ss', ls' := OperatesAndTakes(ss', ls', t, ListOf(b0), e);
  }

  /** A thread that only holds up others lets them pass once it works for no server and parks. */
  lemma ParkingLetsThemPass<T>(ss: seq<State<T>>, ls: seq<Label<T>>, t: Tid, b: Blocker)
    returns (ss': seq<State<T>>, ls': seq<Label<T>>)
    requires Behavior(ss, ls) && t < |ss[|ls|].threads| && ss[|ls|].threads[t].pc.UserCode?
    requires b.queue < |ss[|ls|].queues| && !ShouldTry(ss[|ls|], b)
    ensures Behavior(ss', ls') && ss <= ss' && CanUnpark(ss'[|ls'|], t)
  {
    ss', ls' := Then(ss, ls, Label(t, SetCurrent(None)));
    ss', ls' := EntersBlockOn(ss', ls', t, [b]);
    ss', ls' := PassesBlocker(ss', ls', t, [b], 0, None);
    ss', ls' := Then(ss', ls', Label(t, Continue));
  }

  /** A fresh system, with one thread, in which both happen. */
  lemma FreshSystemSpins()
    returns (ss: seq<State<int>>, ls: seq<Label<int>>, ss': seq<State<int>>, ls': seq<Label<int>>)
    ensures Behavior(ss, ls) && Init(ss[0]) && SpinsOnItself(ss[|ls|], 0) && ss[|ls|].threads[0].pc.AbortLock?
    ensures Behavior(ss', ls') && ss'[0] == ss[0] && SpinsOnItself(ss'[|ls'|], 0) && ss'[|ls'|].threads[0].pc.WakeLoop?
  {
    var empty, unread := Channel(2, 0, false, [], Detached, map[]), Channel(2, 0, false, [], Attached(1, 0), map[]);
    var s := State([IDLE], [QueueState(empty, [], []), QueueState(unread, [], [])], [Server(false, [], None, None)]);
    ss, ls := Then([s], [], Label(0, Attach(0)));
    ss, ls := EarlyReturnThenAbort(ss, ls, 0, 0, Blocker(0, ToSend));
    ss', ls' := EarlyReturnThenWake([s], [], 0, Blocker(1, ToReceive), Blocker(0, ToSend), Sent(7));
  }
}
