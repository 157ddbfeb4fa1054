/**
 Which walks never end. A walk over a wait list or over a server's threads waits for each `Blocking` thread that it has
 to unpark, and for whoever walks the server it wants to lock. Walks that wait for each other never end; all others can.
 */
module StuckGroups {
  import opened Wrappers
  import opened QueueSpec
  import opened Tasks
  import opened Protocol
  import opened ProtocolProofs
  import opened AbortProofs
  import opened BlockOnRuns
  import opened UnparkSpin

  // ---------------------------------------------------------------------------------------------
  // Who waits for whom.

  predicate InWalk(pc: Pc) {
    pc.WakeLoop? || pc.AbortLock? || pc.AbortWalk?
  }

  predicate IsBlocking<T>(s: State<T>, t: Tid) {
    t < |s.threads| && s.threads[t].state == Blocking
  }

  /** `w` wants the lock on a server's threads that `u` has. */
  predicate WantsLockOf<T>(s: State<T>, w: Tid, u: Tid) {
    && w < |s.threads| && s.threads[w].pc.AbortLock? && s.threads[w].pc.server < |s.servers|
    && s.servers[s.threads[w].pc.server].walker == Some(u)
  }

  predicate WaitsFor<T>(s: State<T>, w: Tid, u: Tid) {
    (IsBehind(s, w, u) && IsBlocking(s, u)) || WantsLockOf(s, w, u)
  }

  ghost predicate IsMember<T>(s: State<T>, w: Tid, group: set<Tid>) {
    w < |s.threads| && InWalk(s.threads[w].pc) && exists u :: u in group && WaitsFor(s, w, u)
  }

  /** Each of them is in a walk and waits for another one of them, or for itself. */
  ghost predicate StuckGroup<T>(s: State<T>, group: set<Tid>) {
    forall w {:trigger IsMember(s, w, group)} :: w in group ==> IsMember(s, w, group)
  }

  ghost predicate IsStuck<T>(s: State<T>, w: Tid) {
    exists group :: w in group && StuckGroup(s, group)
  }

  // ---------------------------------------------------------------------------------------------
  // A stuck group stays stuck.

  ghost predicate LocksOk<T>(s: State<T>) {
    forall t: nat, v: nat :: LockOk(s, t, v)
  }

  lemma WalkersBlock<T>(s: State<T>, x: Label<T>, s': State<T>, u: Tid)
    requires Moves(s, x, s') && IsBlocking(s, u) && InWalk(s.threads[u].pc)
    ensures IsBlocking(s', u)
  {
    CountsStay(s, x.thread, x.action);
    if x.thread != u {
      OthersStay(s, x.thread, x.action, u);
    }
  }

  /** A member that is behind a `Blocking` member stays so. */
  lemma BehindMemberStays<T>(s: State<T>, x: Label<T>, s': State<T>, w: Tid, u: Tid)
    requires Moves(s, x, s') && IsBehind(s, w, u) && IsBlocking(s, u) && InWalk(s.threads[u].pc)
    ensures IsBehind(s', w, u) && IsBlocking(s', u)
  {
    BehindStays(s, x, s', w, u);
    WalkersBlock(s, x, s', u);
  }

  /** A member that waits for a lock keeps waiting for it while its owner's walk goes on. */
  lemma LockMemberStays<T>(s: State<T>, x: Label<T>, s': State<T>, w: Tid, u: Tid)
    requires Moves(s, x, s') && LocksOk(s) && WantsLockOf(s, w, u) && u < |s.threads|
    requires |s'.threads| == |s.threads| && InWalk(s'.threads[u].pc)
    ensures WantsLockOf(s', w, u)
  {
    var v := s.threads[w].pc.server;
    assert LockOk(s, u, v) && LockOk(s, x.thread, v);
    if x.thread != w {
      OthersStay(s, x.thread, x.action, w);
    }
  }

  /** A walk with somebody still ahead of it does not end. */
  lemma WalkGoesOn<T>(s: State<T>, x: Label<T>, s': State<T>, w: Tid, u: Tid)
    requires Moves(s, x, s') && w < |s.threads| && InWalk(s.threads[w].pc) && WaitsFor(s, w, u)
    ensures |s'.threads| == |s.threads| && InWalk(s'.threads[w].pc)
  {
    CountsStay(s, x.thread, x.action);
    if x.thread != w {
      OthersStay(s, x.thread, x.action, w);
    }
  }

  lemma WaitStays<T>(s: State<T>, x: Label<T>, s': State<T>, w: Tid, u: Tid)
    requires Moves(s, x, s') && LocksOk(s) && WaitsFor(s, w, u) && u < |s.threads| && InWalk(s.threads[u].pc)
    requires |s'.threads| == |s.threads| && InWalk(s'.threads[u].pc)
    ensures WaitsFor(s', w, u)
  {
    if IsBehind(s, w, u) && IsBlocking(s, u) {
      BehindMemberStays(s, x, s', w, u);
    } else {
      LockMemberStays(s, x, s', w, u);
    }
  }

  lemma MemberGoesOn<T>(s: State<T>, x: Label<T>, s': State<T>, w: Tid, group: set<Tid>)
    requires Moves(s, x, s') && IsMember(s, w, group)
    ensures |s'.threads| == |s.threads| && InWalk(s'.threads[w].pc)
  {
    var u :| u in group && WaitsFor(s, w, u);
    WalkGoesOn(s, x, s', w, u);
  }

  lemma MemberStays<T>(s: State<T>, x: Label<T>, s': State<T>, w: Tid, group: set<Tid>)
    requires Moves(s, x, s') && LocksOk(s) && StuckGroup(s, group) && w in group
    ensures IsMember(s', w, group)
  {
    assert IsMember(s, w, group);
    MemberGoesOn(s, x, s', w, group);
    var u :| u in group && WaitsFor(s, w, u);
    assert IsMember(s, u, group);
    MemberGoesOn(s, x, s', u, group);
    WaitStays(s, x, s', w, u);
  }

  lemma GroupStays<T>(s: State<T>, x: Label<T>, s': State<T>, group: set<Tid>)
    requires Moves(s, x, s') && LocksOk(s) && StuckGroup(s, group)
    ensures StuckGroup(s', group)
  {
    forall w | w in group
      ensures IsMember(s', w, group)
    {
      MemberStays(s, x, s', w, group);
    }
  }

  /** In every run, a stuck group stays so, and none of its members' walks ever ends. */
  lemma {:induction false} StuckForever<T>(ss: seq<State<T>>, ls: seq<Label<T>>, i: nat, group: set<Tid>)
    requires Behavior(ss, ls) && Init(ss[0]) && i <= |ls| && StuckGroup(ss[i], group)
    ensures StuckGroup(ss[|ls|], group)
    decreases |ls|
  {
    if i < |ls| {
      var n := |ls| - 1;
      LastStep(ss, ls);
      StuckForever(ss[..n + 1], ls[..n], i, group);
      assert LocksOk(ss[n]) by {
        BehaviorKeepsAborts(ss[..n + 1], ls[..n]);
      }
      GroupStays(ss[n], ls[n], ss[n + 1], group);
    }
  }

  /** A thread that spins on itself is the smallest such group. */
  lemma SpinnerIsStuck<T>(s: State<T>, t: Tid)
    requires SpinsOnItself(s, t)
    ensures StuckGroup(s, {t}) && IsStuck(s, t)
  {
    assert WaitsFor(s, t, t);
  }

  // ---------------------------------------------------------------------------------------------
  // Walks that wait for each other.

  /**
   From every state with two threads in user code, one blocker `b` that is ready and two, on different queues, that are
   not: each thread waits on one of those and on `b`, returns early, and then wakes the list that the other one is still
   on. The two wait for each other for ever.
   */
  lemma CrossedWakes<T>(
    ss: seq<State<T>>, ls: seq<Label<T>>, t: Tid, u: Tid, bt: Blocker, bu: Blocker, b: Blocker,
    et: Event<T>, eu: Event<T>)
    returns (ss': seq<State<T>>, ls': seq<Label<T>>)
    requires Behavior(ss, ls) && t != u && t < |ss[|ls|].threads| && u < |ss[|ls|].threads|
    requires var s := ss[|ls|];
             && s.threads[t].pc.UserCode? && !IsAborted(s, s.threads[t].current)
             && s.threads[u].pc.UserCode? && !IsAborted(s, s.threads[u].current)
             && bt.queue < |s.queues| && bu.queue < |s.queues| && bt.queue != bu.queue
             && ListOf(bt) != ListOf(b) && ListOf(bu) != ListOf(b)
             && !ShouldTry(s, bt) && !ShouldTry(s, bu) && ShouldTry(s, b)
             && QueueSpec.Enabled(s.queues[bu.queue].channel, et) && Wakes(et) == Some(WaitsOn(bu.interest))
             && QueueSpec.Enabled(s.queues[bt.queue].channel, eu) && Wakes(eu) == Some(WaitsOn(bt.interest))
    ensures Behavior(ss', ls') && ss <= ss' && StuckGroup(ss'[|ls'|], {t, u})
    ensures t !in Waiters(ss[|ls|], ListOf(bu)) ==> !UnparksItself(ss'[|ls'|], t)
    ensures u !in Waiters(ss[|ls|], ListOf(bt)) ==> !UnparksItself(ss'[|ls'|], u)
  {
    ss', ls' := ReturnsEarly(ss, ls, t, bt, b);
    ss', ls' := ReturnsEarly(ss', ls', u, bu, b);
    assert t in Waiters(ss'[|ls'|], ListOf(bt)) && u in Waiters(ss'[|ls'|], ListOf(bu));
    ss', ls' := OperatesAndTakes(ss', ls', t, ListOf(bu), et);
    assert t in Waiters(ss'[|ls'|], ListOf(bt));
    ss', ls' := OperatesAndTakes(ss', ls', u, ListOf(bt), eu);
    var s := ss'[|ls'|];
    assert WaitsFor(s, t, u) && WaitsFor(s, u, t);
  }

  /** A fresh system with two threads and no servers in which it happens, and neither thread spins on itself. */
  lemma FreshSystemCrosses() returns (ss: seq<State<int>>, ls: seq<Label<int>>)
    ensures Behavior(ss, ls) && Init(ss[0]) && ss[0].servers == []
    ensures StuckGroup(ss[|ls|], {0, 1}) && !UnparksItself(ss[|ls|], 0) && !UnparksItself(ss[|ls|], 1)
  {
    var free := QueueState(Channel(2, 0, false, [], Detached, map[]), [], []);
    var unread := QueueState(Channel(2, 0, false, [], Attached(1, 0), map[]), [], []);
    var s: State<int> := State([IDLE, IDLE], [free, unread, unread], []);
    ss, ls := CrossedWakes(
      [s], [], 0, 1, Blocker(1, ToReceive), Blocker(2, ToReceive), Blocker(0, ToSend), Sent(7), Sent(8));
  }
}
