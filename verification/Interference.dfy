/**
 What the other threads can do to a thread that is in the middle of something, and what it can rely on all the same.
 */
module Interference {
  import opened Tasks
  import opened Protocol
  import opened ProtocolProofs
  import opened AbortProofs
  import opened UnparkSpin
  import Runs

  ghost function Stepping<T>(): (State<T>, Label<T>, State<T>) -> bool {
    (s, x, s') => Moves(s, x, s')
  }

  /** A run of the protocol from a fresh system. */
  ghost predicate IsRun<T>(ss: seq<State<T>>, ls: seq<Label<T>>) {
    Runs.IsRun(Stepping<T>(), ss, ls) && Init(ss[0])
  }

  lemma RunIsBehavior<T>(ss: seq<State<T>>, ls: seq<Label<T>>)
    requires IsRun(ss, ls)
    ensures Behavior(ss, ls) && Init(ss[0])
  {
    forall i | 0 <= i < |ls|
      ensures Moves(ss[i], ls[i], ss[i + 1])
    {
      Runs.StepOf(Stepping<T>(), ss, ls, i);
    }
  }

  /** A run is determined by its start and its labels. */
  lemma {:induction false} RunsAgree<T>(ss: seq<State<T>>, ls: seq<Label<T>>, ss': seq<State<T>>, ls': seq<Label<T>>)
    requires IsRun(ss, ls) && IsRun(ss', ls') && ls <= ls' && ss[0] == ss'[0]
    ensures ss <= ss'
  {
    for i := 0 to |ls|
      invariant forall k :: 0 <= k <= i ==> ss[k] == ss'[k]
    {
      Runs.StepOf(Stepping<T>(), ss, ls, i);
      Runs.StepOf(Stepping<T>(), ss', ls', i);
    }
  }

  lemma LastMove<T>(ss: seq<State<T>>, ls: seq<Label<T>>, ss': seq<State<T>>, ls': seq<Label<T>>)
    requires IsRun(ss, ls) && IsRun(ss', ls') && |ls'| == |ls| + 1 && ls <= ls' && ss[0] == ss'[0]
    ensures Moves(ss[|ls|], ls'[|ls|], ss'[|ls'|])
  {
    RunsAgree(ss, ls, ss', ls');
    Runs.StepOf(Stepping<T>(), ss', ls', |ls|);
  }

  /** The run grew by a step of `t`, or not at all. */
  ghost predicate IsOneStepOf<T>(ss: seq<State<T>>, ls: seq<Label<T>>, ss': seq<State<T>>, ls': seq<Label<T>>, t: Tid) {
    (ls' == ls && ss' == ss) || (|ls'| == |ls| + 1 && ls <= ls' && ls'[|ls|].thread == t)
  }

  /** What other threads leave of the place of `t`: where it is, what it registered on, and what it waits for. */
  ghost predicate IsUndisturbed<T>(s: State<T>, s': State<T>, t: Tid) {
    && t < |s.threads| == |s'.threads| && |s.queues| == |s'.queues| && |s.servers| == |s'.servers|
    && s'.threads[t].pc == s.threads[t].pc && s'.threads[t].current == s.threads[t].current
    && (s'.threads[t].state == s.threads[t].state
        || (s.threads[t].state != Blocking && s'.threads[t].state == Running))
    && (s.threads[t].state == Blocking ==> forall l: WaitList :: OnListOrHeld(s, t, l) ==> OnListOrHeld(s', t, l))
    && (SpinsOnItself(s, t) ==> SpinsOnItself(s', t))
    && (forall v :: 0 <= v < |s.servers| ==>
          s.servers[v].threads <= s'.servers[v].threads && (s.servers[v].aborted ==> s'.servers[v].aborted))
  }

  lemma StepLeavesUndisturbed<T>(s: State<T>, u: Tid, a: Action<T>, t: Tid)
    requires CanStep(s, u, a) && u != t < |s.threads|
    ensures IsUndisturbed(s, Step(s, u, a), t)
  {
    var s' := Step(s, u, a);
    OthersStay(s, u, a, t);
    CountsStay(s, u, a);
    forall l: WaitList
      ensures s.threads[t].state == Blocking && OnListOrHeld(s, t, l) ==> OnListOrHeld(s', t, l)
    {
      if s.threads[t].state == Blocking && OnListOrHeld(s, t, l) {
        if t in Waiters(s, l) {
          PlaceKept(s, u, a, t, l);
        } else {
          var w :| Holds(s, w, t, l);
          HoldKept(s, u, a, w, t, l);
        }
      }
    }
    if SpinsOnItself(s, t) {
      SpinnerStays(s, Label(u, a), s', t);
    }
    forall v | 0 <= v < |s.servers|
      ensures s.servers[v].threads <= s'.servers[v].threads && (s.servers[v].aborted ==> s'.servers[v].aborted)
    {
      ServersStay(s, u, a, v);
    }
  }

  lemma UndisturbedJoins<T>(s: State<T>, s1: State<T>, s2: State<T>, t: Tid)
    requires IsUndisturbed(s, s1, t) && IsUndisturbed(s1, s2, t)
    ensures IsUndisturbed(s, s2, t)
  {
  }

  lemma OneStepLeavesUndisturbed<T>(
    ss: seq<State<T>>, ls: seq<Label<T>>, ss': seq<State<T>>, ls': seq<Label<T>>, u: Tid, t: Tid)
    requires IsRun(ss, ls) && IsRun(ss', ls') && ss[0] == ss'[0] && IsOneStepOf(ss, ls, ss', ls', u)
    requires u != t < |ss[|ls|].threads|
    ensures IsUndisturbed(ss[|ls|], ss'[|ls'|], t)
  {
    if ls' != ls {
      LastMove(ss, ls, ss', ls');
      StepLeavesUndisturbed(ss[|ls|], u, ls'[|ls|].action, t);
    }
  }

  // ---------------------------------------------------------------------------------------------
  // In `block_on`.

  /** `t` is on each list of the blockers before the `i`-th, or in a waker's hands, but for the `i`-th one's list. */
  ghost predicate IsOnListsBefore<T>(s: State<T>, t: Tid, bs: seq<Blocker>, i: nat) {
    && t < |s.threads| && s.threads[t].state == Blocking && i < |bs|
    && forall j :: 0 <= j < i && ListOf(bs[j]) != ListOf(bs[i]) ==> OnListOrHeld(s, t, ListOf(bs[j]))
  }

  /** The early return: off the list of the blocker that was ready, and on no fewer of the others. */
  ghost predicate HasReturnedFrom<T>(s: State<T>, t: Tid, bs: seq<Blocker>, i: nat) {
    IsOnListsBefore(s, t, bs, i) && t !in Waiters(s, ListOf(bs[i]))
  }

  lemma StaysOnListsBefore<T>(s: State<T>, s': State<T>, t: Tid, bs: seq<Blocker>, i: nat)
    requires IsOnListsBefore(s, t, bs, i) && IsUndisturbed(s, s', t)
    ensures IsOnListsBefore(s', t, bs, i)
  {
  }

  /** A thread that has looked at its `i`-th blocker is registered with those before. */
  lemma StillRegistered<T>(ss: seq<State<T>>, ls: seq<Label<T>>, s': State<T>, t: Tid, bs: seq<Blocker>, i: nat)
    requires IsRun(ss, ls) && Moves(ss[|ls|], Label(t, Continue), s')
    requires ss[|ls|].threads[t].pc == Check(bs, i) && i < |bs|
    ensures IsOnListsBefore(s', t, bs, i)
  {
    RunIsBehavior(ss, ls);
    RegistrationsAreKept(ss, ls);
    var s := ss[|ls|];
    assert ThreadOk(s.threads[t], |s.queues|);
    forall j | 0 <= j < i
      ensures OnListOrHeld(s', t, ListOf(bs[j]))
    {
      assert RegistrationKept(s, t, j);
      ListsStay(s, t, Continue, ListOf(bs[j]));
      if w :| Holds(s, w, t, ListOf(bs[j])) {
        HoldKept(s, t, Continue, w, t, ListOf(bs[j]));
      }
    }
  }

  /** One call of `finish_wait` takes the thread off the list it names and leaves it on all others. */
  lemma LeavesOneList<T>(ss: seq<State<T>>, ls: seq<Label<T>>, s': State<T>, t: Tid, bs: seq<Blocker>, i: nat, k: nat)
    requires IsRun(ss, ls) && Moves(ss[|ls|], Label(t, Continue), s')
    requires ss[|ls|].threads[t].pc == Deregister(bs, i, k) && IsOnListsBefore(ss[|ls|], t, bs, i)
    ensures IsOnListsBefore(s', t, bs, i) && t !in Waiters(s', ListOf(bs[i]))
  {
    var s, l := ss[|ls|], ListOf(bs[i]);
    assert ListOk(s, l) by {
      RunIsBehavior(ss, ls);
      RegistrationsAreKept(ss, ls);
    }
    RemovedIsDistinct(Waiters(s, l), t);
    forall j | 0 <= j < i && ListOf(bs[j]) != l
      ensures OnListOrHeld(s', t, ListOf(bs[j]))
    {
      ListsStay(s, t, Continue, ListOf(bs[j]));
      if w :| Holds(s, w, t, ListOf(bs[j])) {
        HoldKept(s, t, Continue, w, t, ListOf(bs[j]));
      }
    }
  }

  /**
   `t` is parked, on the list of each blocker or in the hands of a waker. If no step of the run so far lost a wakeup,
   one is due for each blocker that is ready.
   */
  ghost predicate IsSafelyAsleep<T>(ss: seq<State<T>>, ls: seq<Label<T>>, t: Tid, bs: seq<Blocker>)
    requires |ss| == |ls| + 1
  {
    var s := ss[|ls|];
    && t < |s.threads| && s.threads[t].pc == Parked(bs) && s.threads[t].state == Blocked
    && (forall j :: 0 <= j < |bs| ==> OnListOrHeld(s, t, ListOf(bs[j])))
    && (NoStepLosesAWakeup(ss, ls) ==>
          forall j :: 0 <= j < |bs| && ShouldTry(s, bs[j]) ==> WakeupPending(s, t, ListOf(bs[j])))
  }

  lemma SleepsSafely<T>(ss: seq<State<T>>, ls: seq<Label<T>>, t: Tid, bs: seq<Blocker>)
    requires IsRun(ss, ls) && t < |ss[|ls|].threads|
    requires ss[|ls|].threads[t].pc == Parked(bs) && ss[|ls|].threads[t].state == Blocked
    ensures IsSafelyAsleep(ss, ls, t, bs)
  {
    var s := ss[|ls|];
    RunIsBehavior(ss, ls);
    RegistrationsAreKept(ss, ls);
    forall j | 0 <= j < |bs|
      ensures OnListOrHeld(s, t, ListOf(bs[j]))
    {
      assert RegistrationKept(s, t, j);
    }
    if NoStepLosesAWakeup(ss, ls) {
      BehaviorKeepsInv(ss, ls);
      forall j | 0 <= j < |bs| && ShouldTry(s, bs[j])
        ensures WakeupPending(s, t, ListOf(bs[j]))
      {
        assert WakeupKept(s, t, j);
      }
    }
  }

  // ---------------------------------------------------------------------------------------------
  // In `wake_all` and in `abort`.

  /** Only threads that exist are on lists, in vectors of wakers, and attached to servers. */
  lemma {:induction false} HeldExist<T>(ss: seq<State<T>>, ls: seq<Label<T>>, w: Tid)
    requires Behavior(ss, ls) && Init(ss[0]) && w < |ss[|ls|].threads|
    ensures var s := ss[|ls|]; s.threads[w].pc.WakeLoop? ==> forall u :: u in s.threads[w].pc.rest ==> u < |s.threads|
    decreases |ls|
  {
    if ls != [] {
      var n := |ls| - 1;
      var s, x := ss[n], ls[n];
      assert Moves(s, x, ss[n + 1]);
      CountsStay(s, x.thread, x.action);
      HeldExist(ss[..n + 1], ls[..n], w);
      if x.thread != w {
        OthersStay(s, x.thread, x.action, w);
      } else if s.threads[w].pc.WakeTake? {
        assert ListOk(s, s.threads[w].pc.list) by {
          RegistrationsAreKept(ss[..n + 1], ls[..n]);
        }
      } else if s.threads[w].pc.WakeLoop? && s.threads[w].pc.rest != [] {
        var rest := s.threads[w].pc.rest;
        assert forall u :: u in rest[1..] ==> u in rest;
      }
    }
  }

  lemma {:induction false} AttachedExist<T>(ss: seq<State<T>>, ls: seq<Label<T>>, v: nat)
    requires Behavior(ss, ls) && Init(ss[0]) && v < |ss[|ls|].servers|
    ensures forall u :: u in ss[|ls|].servers[v].threads ==> u < |ss[|ls|].threads|
    decreases |ls|
  {
    if ls != [] {
      var n := |ls| - 1;
      var s, x := ss[n], ls[n];
      assert Moves(s, x, ss[n + 1]);
      CountsStay(s, x.thread, x.action);
      AttachedExist(ss[..n + 1], ls[..n], v);
      ServersStay(s, x.thread, x.action, v);
    }
  }

  lemma NextTakenExists<T>(ss: seq<State<T>>, ls: seq<Label<T>>, t: Tid)
    requires IsRun(ss, ls) && t < |ss[|ls|].threads|
    requires ss[|ls|].threads[t].pc.WakeLoop? && ss[|ls|].threads[t].pc.rest != []
    ensures ss[|ls|].threads[t].pc.rest[0] < |ss[|ls|].threads|
  {
    RunIsBehavior(ss, ls);
    HeldExist(ss, ls, t);
    assert ss[|ls|].threads[t].pc.rest[0] in ss[|ls|].threads[t].pc.rest;
  }

  lemma NextAttachedExists<T>(ss: seq<State<T>>, ls: seq<Label<T>>, v: nat, k: nat)
    requires IsRun(ss, ls) && v < |ss[|ls|].servers| && k < |ss[|ls|].servers[v].threads|
    ensures ss[|ls|].servers[v].threads[k] < |ss[|ls|].threads|
  {
    RunIsBehavior(ss, ls);
    AttachedExist(ss, ls, v);
    assert ss[|ls|].servers[v].threads[k] in ss[|ls|].servers[v].threads;
  }

  /** The step is `t` unparking `u`, the next in the list it took or among the threads of the server it walks. */
  predicate Unparks<T>(s: State<T>, x: Label<T>, t: Tid, u: Tid) {
    && x.thread == t < |s.threads| && x.action.Continue?
    && match s.threads[t].pc
       case WakeLoop(_, rest) => rest != [] && rest[0] == u
       case AbortWalk(v, k) => v < |s.servers| && k < |s.servers[v].threads| && s.servers[v].threads[k] == u
       case _ => false
  }

  ghost predicate UnparkedSince<T>(ss: seq<State<T>>, ls: seq<Label<T>>, i: nat, t: Tid, u: Tid)
    requires |ss| == |ls| + 1
  {
    exists k :: i <= k < |ls| && Unparks(ss[k], ls[k], t, u)
  }

  /** Only its own steps move a walk, and only unparking gets it past a thread. */
  lemma PassesByUnparking<T>(s: State<T>, x: Label<T>, s': State<T>, t: Tid, u: Tid)
    requires Moves(s, x, s') && IsBehind(s, t, u)
    ensures IsBehind(s', t, u) || Unparks(s, x, t, u)
  {
    if x.thread != t {
      OthersStayBehind(s, x, s', t, u);
    } else if s.threads[t].pc.AbortWalk? {
      OwnAbortStep(s, x, s', t, u);
    }
  }

  lemma OthersStayBehind<T>(s: State<T>, x: Label<T>, s': State<T>, t: Tid, u: Tid)
    requires Moves(s, x, s') && IsBehind(s, t, u) && x.thread != t
    ensures IsBehind(s', t, u)
  {
    OthersStay(s, x.thread, x.action, t);
    if !s.threads[t].pc.WakeLoop? {
      var v := s.threads[t].pc.server;
      ServersStay(s, x.thread, x.action, v);
      if s.threads[t].pc.AbortWalk? {
        InLongerTail(s.servers[v].threads, s'.servers[v].threads, s.threads[t].pc.next, u);
      }
    }
  }

  lemma OwnAbortStep<T>(s: State<T>, x: Label<T>, s': State<T>, t: Tid, u: Tid)
    requires Moves(s, x, s') && IsBehind(s, t, u) && x.thread == t && s.threads[t].pc.AbortWalk?
    ensures IsBehind(s', t, u) || Unparks(s, x, t, u)
  {
    var v, k := s.threads[t].pc.server, s.threads[t].pc.next;
    assert u == s.servers[v].threads[k] || u in s.servers[v].threads[k + 1..];
  }

  lemma {:induction false} WalkUnparks<T>(ss: seq<State<T>>, ls: seq<Label<T>>, i: nat, t: Tid, u: Tid)
    requires Behavior(ss, ls) && i <= |ls| && IsBehind(ss[i], t, u)
    ensures IsBehind(ss[|ls|], t, u) || UnparkedSince(ss, ls, i, t, u)
    decreases |ls|
  {
    if i < |ls| {
      var n := |ls| - 1;
      LastStep(ss, ls);
      WalkUnparks(ss[..n + 1], ls[..n], i, t, u);
      if IsBehind(ss[n], t, u) {
        PassesByUnparking(ss[n], ls[n], ss[n + 1], t, u);
      } else {
        var k :| i <= k < n && Unparks(ss[..n + 1][k], ls[..n][k], t, u);
        assert Unparks(ss[k], ls[k], t, u);
      }
    }
  }

  /** A walk that is over has unparked each of its tasks, and the walker was not a `Blocking` one of them. */
  lemma WalkIsOver<T>(ss: seq<State<T>>, ls: seq<Label<T>>, i: nat, t: Tid, tasks: seq<Tid>)
    requires IsRun(ss, ls) && i <= |ls| && t < |ss[i].threads| && t < |ss[|ls|].threads|
    requires (forall u :: u in tasks ==> IsBehind(ss[i], t, u)) && ss[|ls|].threads[t].pc.UserCode?
    ensures forall u :: u in tasks ==> UnparkedSince(ss, ls, i, t, u)
    ensures !(t in tasks && ss[i].threads[t].state == Blocking)
  {
    RunIsBehavior(ss, ls);
    forall u | u in tasks
      ensures UnparkedSince(ss, ls, i, t, u)
    {
      WalkUnparks(ss, ls, i, t, u);
    }
    if t in tasks && ss[i].threads[t].state == Blocking {
      assert IsBehind(ss[i], t, t) && UnparksItself(ss[i], t);
      SpinsForever(ss, ls, i, t);
    }
  }

  lemma UnparkedSinceEarlier<T>(ss: seq<State<T>>, ls: seq<Label<T>>, i: nat, j: nat, t: Tid, tasks: seq<Tid>)
    requires |ss| == |ls| + 1 && i <= j && forall u :: u in tasks ==> UnparkedSince(ss, ls, j, t, u)
    ensures forall u :: u in tasks ==> UnparkedSince(ss, ls, i, t, u)
  {
  }

  /** `t` took list `l` at some step since the `i`-th, and found `taken` on it. */
  ghost predicate TookSince<T>(ss: seq<State<T>>, ls: seq<Label<T>>, i: nat, t: Tid, l: WaitList, taken: seq<Tid>)
    requires |ss| == |ls| + 1
  {
    exists k :: i <= k < |ls| && ls[k] == Label(t, Continue) && WillTake(ss[k], t, l) && taken == Waiters(ss[k], l)
  }

  lemma TookSinceStays<T>(
    ss: seq<State<T>>, ls: seq<Label<T>>, ss': seq<State<T>>, ls': seq<Label<T>>, i: nat, t: Tid, l: WaitList,
    taken: seq<Tid>)
    requires |ss| == |ls| + 1 && |ss'| == |ls'| + 1 && ss <= ss' && ls <= ls' && TookSince(ss, ls, i, t, l, taken)
    ensures TookSince(ss', ls', i, t, l, taken)
  {
    var k :| i <= k < |ls| && ls[k] == Label(t, Continue) && WillTake(ss[k], t, l) && taken == Waiters(ss[k], l);
    assert ls'[k] == ls[k] && ss'[k] == ss[k];
  }

  /** The step that takes the list. */
  lemma TakesList<T>(
    ss: seq<State<T>>, ls: seq<Label<T>>, ss': seq<State<T>>, ls': seq<Label<T>>, t: Tid, l: WaitList)
    requires |ss| == |ls| + 1 && ls' == ls + [Label(t, Continue)] && |ss'| == |ls'| + 1 && ss <= ss'
    requires Moves(ss[|ls|], Label(t, Continue), ss'[|ls'|]) && ss[|ls|].threads[t].pc == WakeTake(l)
    ensures forall i: nat :: i <= |ls| ==> TookSince(ss', ls', i, t, l, Waiters(ss[|ls|], l))
    ensures ss'[|ls'|].threads[t] == ss[|ls|].threads[t].(pc := WakeLoop(l, Waiters(ss[|ls|], l)))
  {
    var k := |ls|;
    assert ls'[k] == Label(t, Continue) && ss'[k] == ss[k] && WillTake(ss'[k], t, l);
  }
}
