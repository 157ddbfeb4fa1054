/** The walks that are in no stuck group can be finished: the threads they wait for can be brought to park. */
module WalksFinish {
  import opened Wrappers
  import opened QueueSpec
  import opened Tasks
  import opened Protocol
  import opened ProtocolProofs
  import opened AbortProofs
  import opened BlockOnRuns
  import opened UnparkSpin
  import opened Interference
  import opened StuckGroups

  // ---------------------------------------------------------------------------------------------
  // A `Blocking` thread that is not busy unparking others can go on to park.

  predicate IsBusy(pc: Pc) {
    InWalk(pc) || pc.WakeTake?
  }

  /** A weak observer of the first queue that has seen everything: it is not ready. */
  function NothingNew<T>(s: State<T>): seq<Blocker> {
    if s.queues == [] then [] else [Blocker(0, ToSeeNews(s.queues[0].channel.Tail()))]
  }

  lemma ParksFromUserCode<T>(ss: seq<State<T>>, ls: seq<Label<T>>, t: Tid)
    returns (ss': seq<State<T>>, ls': seq<Label<T>>)
    requires Behavior(ss, ls) && t < |ss[|ls|].threads| && ss[|ls|].threads[t].pc.UserCode?
    ensures Behavior(ss', ls') && ss <= ss' && OnlyMoved(ss[|ls|], ss'[|ls'|], t)
    ensures ss'[|ls'|].threads[t].state == Blocked && ss'[|ls'|].threads[t].pc.Parked?
  {
    var bs := NothingNew(ss[|ls|]);
    OwnStepMoves(ss[|ls|], t, SetCurrent(None));
    ss', ls' := Then(ss, ls, Label(t, SetCurrent(None)));
    ss', ls' := EntersBlockOn(ss', ls', t, bs);
    if bs != [] {
      ss', ls' := PassesBlocker(ss', ls', t, bs, 0, None);
    }
    OwnStepMoves(ss'[|ls'|], t, Continue);
    ss', ls' := Then(ss', ls', Label(t, Continue));
  }

  /** How many regions of `block_on` are ahead at most, up to parking or returning. */
  function RegionsAhead(pc: Pc): int {
    match pc
    case AbortCheckBefore(bs) => 3 * |bs| + 6
    case Register(bs, i) => 2 * (|bs| - i) + |bs| + 5
    case Check(bs, i) => 2 * (|bs| - i) + |bs| + 4
    case Deregister(bs, i, k) => i - k + 2
    case Park(bs) => 1
    case _ => 0
  }

  /** Whoever is in the middle of `block_on` can go on until it parks or returns. */
  lemma {:induction false} Settles<T>(ss: seq<State<T>>, ls: seq<Label<T>>, t: Tid)
    returns (ss': seq<State<T>>, ls': seq<Label<T>>)
    requires Behavior(ss, ls) && Init(ss[0]) && t < |ss[|ls|].threads| && IsChecking(ss[|ls|].threads[t].pc)
    ensures Behavior(ss', ls') && ss <= ss' && OnlyMoved(ss[|ls|], ss'[|ls'|], t)
    ensures var th := ss'[|ls'|].threads[t];
            (th.pc.UserCode? && th.state == Blocking) || (th.pc.Parked? && th.state == Blocked)
    decreases RegionsAhead(ss[|ls|].threads[t].pc) + 1
  {
    assert ThreadOk(ss[|ls|].threads[t], |ss[|ls|].queues|) by {
      RegistrationsAreKept(ss, ls);
    }
    OwnStepMoves(ss[|ls|], t, Continue);
    ss', ls' := Then(ss, ls, Label(t, Continue));
    if IsChecking(ss'[|ls'|].threads[t].pc) {
      ss', ls' := Settles(ss', ls', t);
    }
  }

  lemma Parks<T>(ss: seq<State<T>>, ls: seq<Label<T>>, t: Tid)
    returns (ss': seq<State<T>>, ls': seq<Label<T>>)
    requires Behavior(ss, ls) && Init(ss[0]) && IsBlocking(ss[|ls|], t) && !IsBusy(ss[|ls|].threads[t].pc)
    ensures Behavior(ss', ls') && ss <= ss' && OnlyMoved(ss[|ls|], ss'[|ls'|], t)
    ensures ss'[|ls'|].threads[t].state == Blocked && ss'[|ls'|].threads[t].pc.Parked?
  {
    assert ThreadOk(ss[|ls|].threads[t], |ss[|ls|].queues|) by {
      RegistrationsAreKept(ss, ls);
    }
    ss', ls' := ss, ls;
    if IsChecking(ss[|ls|].threads[t].pc) {
      ss', ls' := Settles(ss, ls, t);
    }
    if ss'[|ls'|].threads[t].pc.UserCode? {
      ss', ls' := ParksFromUserCode(ss', ls', t);
    }
  }

  // ---------------------------------------------------------------------------------------------
  // Waits to come.

  /** `w` is about to take a list with the `Blocking` thread `u` on it. */
  predicate WillTakeUp<T>(s: State<T>, w: Tid, u: Tid) {
    w < |s.threads| && s.threads[w].pc.WakeTake? && u in Waiters(s, s.threads[w].pc.list) && IsBlocking(s, u)
  }

  predicate WillWaitFor<T>(s: State<T>, w: Tid, u: Tid) {
    WaitsFor(s, w, u) || WillTakeUp(s, w, u)
  }

  ghost predicate IsThreatenedIn<T>(s: State<T>, w: Tid, group: set<Tid>) {
    w < |s.threads| && IsBusy(s.threads[w].pc) && exists u :: u in group && WillWaitFor(s, w, u)
  }

  /** A stuck group, if those who are about to take a list count as having taken it. */
  ghost predicate LoomingGroup<T>(s: State<T>, group: set<Tid>) {
    forall w {:trigger IsThreatenedIn(s, w, group)} :: w in group ==> IsThreatenedIn(s, w, group)
  }

  ghost predicate IsThreatened<T>(s: State<T>, w: Tid) {
    exists group :: w in group && LoomingGroup(s, group)
  }

  /** From `s` to `s'` only `x` made progress in a walk, and nobody waits for anybody new. */
  ghost predicate Eases<T>(s: State<T>, s': State<T>, x: Tid) {
    && |s'.threads| == |s.threads| && |s'.servers| == |s.servers|
    && (forall u :: 0 <= u < |s.threads| && u != x && (IsBusy(s.threads[u].pc) || IsBusy(s'.threads[u].pc)) ==>
          s'.threads[u].pc == s.threads[u].pc)
    && (forall u :: IsBlocking(s', u) ==> IsBlocking(s, u))
    && (forall l: WaitList, u: Tid :: IsBlocking(s', u) && u in Waiters(s', l) ==> u in Waiters(s, l))
    && (forall v :: 0 <= v < |s.servers| ==>
          s'.servers[v].threads == s.servers[v].threads
          && s'.servers[v].walker in {s.servers[v].walker, None, Some(x)})
  }

  lemma EasesJoins<T>(s: State<T>, s1: State<T>, s2: State<T>, x: Tid)
    requires Eases(s, s1, x) && Eases(s1, s2, x)
    ensures Eases(s, s2, x)
  {
  }

  lemma ParkingEases<T>(s: State<T>, s': State<T>, u: Tid, x: Tid)
    requires OnlyMoved(s, s', u) && IsBlocking(s, u) && !IsBusy(s.threads[u].pc)
    requires s'.threads[u].state == Blocked && s'.threads[u].pc.Parked?
    ensures Eases(s, s', x)
  {
    forall t | IsBlocking(s', t)
      ensures t != u && IsBlocking(s, t)
    {
    }
  }

  /** A region of a walk that has nobody `Blocking` next eases. */
  lemma WalkingEases<T>(s: State<T>, x: Tid)
    requires CanStep(s, x, Continue) && IsBusy(s.threads[x].pc)
    ensures Eases(s, Step(s, x, Continue), x)
  {
    var s' := Step(s, x, Continue);
    CountsStay(s, x, Continue);
    forall u | 0 <= u < |s.threads| && u != x
      ensures s'.threads[u].pc == s.threads[u].pc
    {
      OthersStay(s, x, Continue, u);
    }
    forall u | IsBlocking(s', u)
      ensures IsBlocking(s, u)
    {
      if u != x {
        OthersStay(s, x, Continue, u);
      }
    }
    forall l: WaitList, u: Tid | u in Waiters(s', l)
      ensures u in Waiters(s, l)
    {
      ListsStay(s, x, Continue, l);
    }
    forall v | 0 <= v < |s.servers|
      ensures s'.servers[v].threads == s.servers[v].threads
    {
      ServersStay(s, x, Continue, v);
    }
  }

  // ---------------------------------------------------------------------------------------------
  // A walk that waits for no other walk can be finished.

  predicate IsBusyThread<T>(s: State<T>, t: Tid) {
    t < |s.threads| && IsBusy(s.threads[t].pc)
  }

  /** `x` is in a walk, or about to be, and waits for nobody who is. */
  ghost predicate IsLeaf<T>(s: State<T>, x: Tid) {
    IsBusyThread(s, x) && forall u: Tid :: WillWaitFor(s, x, u) ==> u < |s.threads| && !IsBusyThread(s, u)
  }

  lemma LeafAfter<T>(s: State<T>, s': State<T>, x: Tid)
    requires IsLeaf(s, x) && Eases(s, s', x) && IsBusyThread(s', x)
    requires forall u: Tid :: WillWaitFor(s', x, u) ==> WillWaitFor(s, x, u)
    ensures IsLeaf(s', x)
  {
    forall u: Tid | WillWaitFor(s', x, u)
      ensures u < |s'.threads| && !IsBusyThread(s', u)
    {
      assert WillWaitFor(s, x, u);
    }
  }

  /** What a thread in a walk waits for only shrinks, by its own steps and when others park. */
  lemma OwnWaitsShrink<T>(s: State<T>, x: Tid, u: Tid)
    requires CanStep(s, x, Continue) && IsBusyThread(s, x) && WillWaitFor(Step(s, x, Continue), x, u)
    ensures WillWaitFor(s, x, u)
  {
    var s' := Step(s, x, Continue);
    CountsStay(s, x, Continue);
    assert IsBehind(s', x, u) && IsBlocking(s', u);
    WalkingEases(s, x);
    assert IsBlocking(s, u);
    var pc := s.threads[x].pc;
    if pc.WakeLoop? {
      assert pc.rest != [] && u in pc.rest[1..];
    } else if pc.AbortWalk? {
      ServersStay(s, x, Continue, pc.server);
      var tasks := s.servers[pc.server].threads;
      var i :| pc.next + 1 <= i < |tasks| && tasks[i] == u;
      assert tasks[pc.next..][i - pc.next] == u;
    }
  }

  lemma SamePcWaitsShrink<T>(s: State<T>, s': State<T>, x: Tid, u: Tid)
    requires Eases(s, s', x) && IsBusyThread(s, x) && s'.threads[x].pc == s.threads[x].pc
    requires s'.servers == s.servers && WillWaitFor(s', x, u)
    ensures WillWaitFor(s, x, u)
  {
  }

  /** The thread that a walk comes to next. */
  function NextTarget<T>(s: State<T>, x: Tid): Option<Tid>
    requires x < |s.threads|
  {
    match s.threads[x].pc
    case WakeLoop(_, rest) => if rest == [] then None else Some(rest[0])
    case AbortWalk(v, k) =>
      if v < |s.servers| && k < |s.servers[v].threads| then Some(s.servers[v].threads[k]) else None
    case _ => None
  }

  lemma {:induction false} ServersExist<T>(ss: seq<State<T>>, ls: seq<Label<T>>, x: Tid)
    requires Behavior(ss, ls) && Init(ss[0]) && x < |ss[|ls|].threads|
    ensures var pc := ss[|ls|].threads[x].pc; pc.AbortLock? || pc.AbortWalk? ==> pc.server < |ss[|ls|].servers|
    decreases |ls|
  {
    if ls != [] {
      var n := |ls| - 1;
      LastStep(ss, ls);
      CountsStay(ss[n], ls[n].thread, ls[n].action);
      ServersExist(ss[..n + 1], ls[..n], x);
      if ls[n].thread != x {
        OthersStay(ss[n], ls[n].thread, ls[n].action, x);
      }
    }
  }

  lemma NextTargetExists<T>(ss: seq<State<T>>, ls: seq<Label<T>>, x: Tid)
    requires Behavior(ss, ls) && Init(ss[0]) && IsBusyThread(ss[|ls|], x)
    ensures var u := NextTarget(ss[|ls|], x); u.Some? ==> u.value < |ss[|ls|].threads| && IsBehind(ss[|ls|], x, u.value)
  {
    var s := ss[|ls|];
    HeldExist(ss, ls, x);
    ServersExist(ss, ls, x);
    if s.threads[x].pc.WakeLoop? && s.threads[x].pc.rest != [] {
      assert s.threads[x].pc.rest[0] in s.threads[x].pc.rest;
    } else if s.threads[x].pc.AbortWalk? {
      var v, k := s.threads[x].pc.server, s.threads[x].pc.next;
      AttachedExist(ss, ls, v);
      if k < |s.servers[v].threads| {
        assert s.servers[v].threads[k] in s.servers[v].threads;
        assert s.servers[v].threads[k..][0] == s.servers[v].threads[k];
      }
    }
  }

  /** The thread that comes next is brought to park, if it is `Blocking`. */
  lemma ClearsTarget<T>(ss: seq<State<T>>, ls: seq<Label<T>>, x: Tid)
    returns (ss': seq<State<T>>, ls': seq<Label<T>>)
    requires Behavior(ss, ls) && Init(ss[0]) && IsLeaf(ss[|ls|], x)
    ensures Behavior(ss', ls') && ss <= ss' && Eases(ss[|ls|], ss'[|ls'|], x) && IsLeaf(ss'[|ls'|], x)
    ensures ss'[|ls'|].threads[x].pc == ss[|ls|].threads[x].pc && ss'[|ls'|].servers == ss[|ls|].servers
    ensures var u := NextTarget(ss'[|ls'|], x); u.Some? ==> CanUnpark(ss'[|ls'|], u.value)
    ensures forall l :: ss[|ls|].threads[x].pc == WakeTake(l) ==> ss'[|ls'|] == ss[|ls|]
  {
    NextTargetExists(ss, ls, x);
    var s, target := ss[|ls|], NextTarget(ss[|ls|], x);
    if target.Some? && IsBlocking(s, target.value) {
      var u := target.value;
      assert WillWaitFor(s, x, u);
      ss', ls' := Parks(ss, ls, u);
      var s' := ss'[|ls'|];
      ParkingEases(s, s', u, x);
      forall y: Tid | WillWaitFor(s', x, y)
        ensures WillWaitFor(s, x, y)
      {
        SamePcWaitsShrink(s, s', x, y);
      }
      LeafAfter(s, s', x);
    } else {
      ss', ls' := ss, ls;
    }
  }

  lemma LeafCanStep<T>(ss: seq<State<T>>, ls: seq<Label<T>>, x: Tid)
    requires Behavior(ss, ls) && Init(ss[0]) && IsLeaf(ss[|ls|], x)
    requires var u := NextTarget(ss[|ls|], x); u.Some? ==> CanUnpark(ss[|ls|], u.value)
    ensures CanStep(ss[|ls|], x, Continue)
  {
    var s := ss[|ls|];
    ServersExist(ss, ls, x);
    if s.threads[x].pc.AbortLock? {
      var v := s.threads[x].pc.server;
      if s.servers[v].walker.Some? {
        var u := s.servers[v].walker.value;
        assert WillWaitFor(s, x, u);
        assert LockOk(s, u, v) by {
          BehaviorKeepsAborts(ss, ls);
        }
      }
    }
  }

  /** An upper bound on the regions of a walk that are ahead. */
  function WalkAhead<T>(s: State<T>, x: Tid): nat
    requires x < |s.threads|
  {
    match s.threads[x].pc
    case WakeTake(l) => |Waiters(s, l)| + 2
    case WakeLoop(_, rest) => |rest| + 1
    case AbortLock(v) => if v < |s.servers| then |s.servers[v].threads| + 2 else 0
    case AbortWalk(v, k) =>
      if v < |s.servers| && k <= |s.servers[v].threads| then |s.servers[v].threads| - k + 1 else 1
    case _ => 0
  }

  lemma Advances<T>(s: State<T>, x: Tid)
    requires IsLeaf(s, x) && CanStep(s, x, Continue)
    ensures var s' := Step(s, x, Continue);
            Eases(s, s', x) && (s'.threads[x].pc.UserCode? || (IsLeaf(s', x) && WalkAhead(s', x) < WalkAhead(s, x)))
  {
    var s' := Step(s, x, Continue);
    WalkingEases(s, x);
    if !s'.threads[x].pc.UserCode? {
      forall u: Tid | WillWaitFor(s', x, u)
        ensures WillWaitFor(s, x, u)
      {
        OwnWaitsShrink(s, x, u);
      }
      LeafAfter(s, s', x);
    }
  }

  lemma {:induction false} FinishesLeaf<T>(ss: seq<State<T>>, ls: seq<Label<T>>, x: Tid)
    returns (ss': seq<State<T>>, ls': seq<Label<T>>)
    requires Behavior(ss, ls) && Init(ss[0]) && IsLeaf(ss[|ls|], x)
    ensures Behavior(ss', ls') && ss <= ss' && Eases(ss[|ls|], ss'[|ls'|], x) && ss'[|ls'|].threads[x].pc.UserCode?
    decreases WalkAhead(ss[|ls|], x)
  {
    ss', ls' := ClearsTarget(ss, ls, x);
    var s1 := ss'[|ls'|];
    LeafCanStep(ss', ls', x);
    Advances(s1, x);
    ss', ls' := Then(ss', ls', Label(x, Continue));
    EasesJoins(ss[|ls|], s1, ss'[|ls'|], x);
    var s2 := ss'[|ls'|];
    if !s2.threads[x].pc.UserCode? {
      ss', ls' := FinishesLeaf(ss', ls', x);
      EasesJoins(ss[|ls|], s2, ss'[|ls'|], x);
    }
  }

  // ---------------------------------------------------------------------------------------------
  // Main results.

  ghost function BusyThreads<T>(s: State<T>): set<Tid> {
    set t | 0 <= t < |s.threads| && IsBusyThread(s, t)
  }

  /** If no walk is a leaf, all of them together loom. */
  lemma SomeLeaf<T>(s: State<T>, w: Tid) returns (x: Tid)
    requires IsBusyThread(s, w) && !IsThreatened(s, w) && BusyWaitsExist(s)
    ensures IsLeaf(s, x)
  {
    if forall x: Tid :: !IsLeaf(s, x) {
      var group := BusyThreads(s);
      forall x | x in group
        ensures IsThreatenedIn(s, x, group)
      {
        assert !IsLeaf(s, x);
        var u: Tid :| WillWaitFor(s, x, u) && !(u < |s.threads| && !IsBusyThread(s, u));
        assert u in group;
      }
      assert w in group && LoomingGroup(s, group);
    }
    x :| IsLeaf(s, x);
  }

  /** Whoever is waited for exists. */
  ghost predicate BusyWaitsExist<T>(s: State<T>) {
    forall x: Tid, u: Tid :: WillWaitFor(s, x, u) ==> u < |s.threads|
  }

  lemma WaitsExist<T>(ss: seq<State<T>>, ls: seq<Label<T>>)
    requires Behavior(ss, ls) && Init(ss[0])
    ensures BusyWaitsExist(ss[|ls|])
  {
    var s := ss[|ls|];
    forall x: Tid, u: Tid | WillWaitFor(s, x, u)
      ensures u < |s.threads|
    {
      if WantsLockOf(s, x, u) {
        WalkersExist(ss, ls, s.threads[x].pc.server);
      }
    }
  }

  lemma {:induction false} WalkersExist<T>(ss: seq<State<T>>, ls: seq<Label<T>>, v: nat)
    requires Behavior(ss, ls) && Init(ss[0]) && v < |ss[|ls|].servers|
    ensures ss[|ls|].servers[v].walker.Some? ==> ss[|ls|].servers[v].walker.value < |ss[|ls|].threads|
    decreases |ls|
  {
    if ls != [] {
      var n := |ls| - 1;
      LastStep(ss, ls);
      CountsStay(ss[n], ls[n].thread, ls[n].action);
      ServersStay(ss[n], ls[n].thread, ls[n].action, v);
      WalkersExist(ss[..n + 1], ls[..n], v);
    }
  }

  /** When the walk of `x` is over, the others wait for nobody new. */
  lemma OthersWaitShrinks<T>(s: State<T>, s': State<T>, x: Tid, y: Tid, u: Tid)
    requires Eases(s, s', x) && y != x && u != x && IsBusyThread(s', y) && WillWaitFor(s', y, u)
    ensures WillWaitFor(s, y, u) && s.threads[y].pc == s'.threads[y].pc
  {
    if IsBehind(s', y, u) && IsBlocking(s', u) {
      assert IsBehind(s, y, u) && IsBlocking(s, u);
    }
  }

  lemma LoomingBefore<T>(s: State<T>, s': State<T>, x: Tid, group: set<Tid>)
    requires Eases(s, s', x) && !IsBusyThread(s', x) && LoomingGroup(s', group)
    ensures LoomingGroup(s, group)
  {
    forall y | y in group
      ensures IsThreatenedIn(s, y, group)
    {
      assert IsThreatenedIn(s', y, group);
      var u :| u in group && WillWaitFor(s', y, u);
      assert IsThreatenedIn(s', u, group);
      OthersWaitShrinks(s, s', x, y, u);
    }
  }

  lemma FewerBusy<T>(s: State<T>, s': State<T>, x: Tid)
    requires Eases(s, s', x) && IsBusyThread(s, x) && !IsBusyThread(s', x)
    ensures BusyThreads(s') < BusyThreads(s)
  {
    forall t | t in BusyThreads(s')
      ensures t in BusyThreads(s)
    {
      assert t != x;
    }
    assert x in BusyThreads(s) && x !in BusyThreads(s');
  }

  /** When a walk is over, nobody looms that did not loom before, and one thread less is busy. */
  lemma LessLooms<T>(s: State<T>, s': State<T>, x: Tid, w: Tid)
    requires Eases(s, s', x) && IsBusyThread(s, x) && s'.threads[x].pc.UserCode? && w != x
    requires IsBusyThread(s, w) && !IsThreatened(s, w)
    ensures IsBusyThread(s', w) && !IsThreatened(s', w) && BusyThreads(s') < BusyThreads(s)
  {
    if IsThreatened(s', w) {
      var group :| w in group && LoomingGroup(s', group);
      LoomingBefore(s, s', x, group);
    }
    FewerBusy(s, s', x);
  }

  /** A walk that does not loom can be finished. */
  lemma {:induction false} Finishes<T>(ss: seq<State<T>>, ls: seq<Label<T>>, w: Tid)
    returns (ss': seq<State<T>>, ls': seq<Label<T>>)
    requires Behavior(ss, ls) && Init(ss[0]) && IsBusyThread(ss[|ls|], w) && !IsThreatened(ss[|ls|], w)
    ensures Behavior(ss', ls') && ss <= ss' && ss'[|ls'|].threads != [] && w < |ss'[|ls'|].threads|
    ensures ss'[|ls'|].threads[w].pc.UserCode?
    decreases BusyThreads(ss[|ls|])
  {
    WaitsExist(ss, ls);
    var x := SomeLeaf(ss[|ls|], w);
    ss', ls' := FinishesLeaf(ss, ls, x);
    if x != w {
      LessLooms(ss[|ls|], ss'[|ls'|], x, w);
      ss', ls' := Finishes(ss', ls', w);
    }
  }

  /** `scope` has whatever its members wait for; none that is `Blocking` is about to take up a `Blocking` thread. */
  ghost predicate IsDecidedIn<T>(s: State<T>, scope: set<Tid>) {
    && (forall t: Tid, u: Tid :: t in scope && WillWaitFor(s, t, u) ==> u in scope)
    && (forall t: Tid, u: Tid :: t in scope && IsBlocking(s, t) ==> !WillTakeUp(s, t, u))
  }

  /**
   None of the `Blocking` threads that `w` waits for, directly or not, is about to take a list with a `Blocking` thread
   on it. Who gets such a list is open as yet.
   */
  ghost predicate IsDecided<T>(s: State<T>, w: Tid) {
    exists scope :: w in scope && IsDecidedIn(s, scope)
  }

  /** Whoever is waited for, and looms, is in a walk already. */
  lemma NextIsInWalk<T>(s: State<T>, scope: set<Tid>, t: Tid, u: Tid, all: set<Tid>)
    requires IsDecidedIn(s, scope) && LocksOk(s) && t in scope && WillWaitFor(s, t, u) && IsThreatenedIn(s, u, all)
    requires t < |s.threads| && InWalk(s.threads[t].pc)
    ensures u in scope && InWalk(s.threads[u].pc) && WaitsFor(s, t, u)
  {
    if WantsLockOf(s, t, u) {
      assert LockOk(s, u, s.threads[t].pc.server);
    } else {
      var y :| y in all && WillWaitFor(s, u, y);
      assert !WillTakeUp(s, u, y);
      assert WaitsFor(s, u, y);
    }
  }

  ghost function WalksIn<T>(s: State<T>, scope: set<Tid>): set<Tid> {
    set t | t in scope && t < |s.threads| && InWalk(s.threads[t].pc)
  }

  lemma WalkIsMember<T>(s: State<T>, scope: set<Tid>, all: set<Tid>, t: Tid)
    requires IsDecidedIn(s, scope) && LocksOk(s) && LoomingGroup(s, all) && t in all * WalksIn(s, scope)
    ensures IsMember(s, t, all * WalksIn(s, scope))
  {
    assert IsThreatenedIn(s, t, all);
    var u :| u in all && WillWaitFor(s, t, u);
    assert IsThreatenedIn(s, u, all);
    NextIsInWalk(s, scope, t, u, all);
    assert u in all * WalksIn(s, scope);
  }

  /** Where all lists in question are taken, what looms is stuck. */
  lemma DecidedIsStuck<T>(s: State<T>, w: Tid)
    requires w < |s.threads| && InWalk(s.threads[w].pc) && IsDecided(s, w) && LocksOk(s) && IsThreatened(s, w)
    ensures IsStuck(s, w)
  {
    var all :| w in all && LoomingGroup(s, all);
    var scope :| w in scope && IsDecidedIn(s, scope);
    var group := all * WalksIn(s, scope);
    forall t | t in group
      ensures IsMember(s, t, group)
    {
      WalkIsMember(s, scope, all, t);
    }
    assert w in group && StuckGroup(s, group);
  }

  ghost predicate FinishesIn<T>(ss: seq<State<T>>, ss': seq<State<T>>, ls': seq<Label<T>>, w: Tid) {
    Behavior(ss', ls') && ss <= ss' && w < |ss'[|ls'|].threads| && ss'[|ls'|].threads[w].pc.UserCode?
  }

  /** Some continuation of the run ends the walk of `w`. */
  ghost predicate CanFinish<T(!new)>(ss: seq<State<T>>, w: Tid) {
    exists ss': seq<State<T>>, ls': seq<Label<T>> :: FinishesIn(ss, ss', ls', w)
  }

  lemma StuckCannotFinish<T>(s: State<T>, ss': seq<State<T>>, ls': seq<Label<T>>, i: nat, w: Tid)
    requires Behavior(ss', ls') && Init(ss'[0]) && i <= |ls'| && ss'[i] == s && IsStuck(s, w)
    ensures w < |ss'[|ls'|].threads| && InWalk(ss'[|ls'|].threads[w].pc)
  {
    var group :| w in group && StuckGroup(s, group);
    StuckForever(ss', ls', i, group);
    assert IsMember(ss'[|ls'|], w, group);
  }

  /**
   In every reachable state, a walk can be brought to its end if and only if its thread is in no stuck group, provided
   that the lists in question are taken.
   */
  lemma FinishesExactly<T(!new)>(ss: seq<State<T>>, ls: seq<Label<T>>, w: Tid)
    requires Behavior(ss, ls) && Init(ss[0])
    requires w < |ss[|ls|].threads| && InWalk(ss[|ls|].threads[w].pc) && IsDecided(ss[|ls|], w)
    ensures CanFinish(ss, w) <==> !IsStuck(ss[|ls|], w)
  {
    if IsStuck(ss[|ls|], w) {
      forall ss': seq<State<T>>, ls': seq<Label<T>>
        ensures !FinishesIn(ss, ss', ls', w)
      {
        if FinishesIn(ss, ss', ls', w) {
          StuckCannotFinish(ss[|ls|], ss', ls', |ls|, w);
        }
      }
    } else {
      assert LocksOk(ss[|ls|]) by {
        BehaviorKeepsAborts(ss, ls);
      }
      if IsThreatened(ss[|ls|], w) {
        DecidedIsStuck(ss[|ls|], w);
      }
      var ss', ls' := Finishes(ss, ls, w);
      assert FinishesIn(ss, ss', ls', w);
    }
  }

  /** The same of a call to `abort`, in the state it leads to. */
  lemma AbortReturnsExactly<T(!new)>(ss: seq<State<T>>, ls: seq<Label<T>>, t: Tid, v: nat)
    requires Behavior(ss, ls) && Init(ss[0]) && CanStep(ss[|ls|], t, Abort(v))
    requires IsDecided(Step(ss[|ls|], t, Abort(v)), t)
    ensures var s := Step(ss[|ls|], t, Abort(v)); CanFinish(ss + [s], t) <==> !IsStuck(s, t)
  {
    var ss1, ls1 := Then(ss, ls, Label(t, Abort(v)));
    assert ss1 == ss + [Step(ss[|ls|], t, Abort(v))];
    FinishesExactly(ss1, ls1, t);
  }

  /**
   While a list is not taken both may happen. A `Blocking` thread that takes a list it is on spins on itself, and is
   stuck; if another waker is first, it finds the list empty and is done at once.
   */
  lemma OwnTakeIsStuck<T>(s: State<T>, t: Tid, l: WaitList)
    requires WillTake(s, t, l) && IsBlocking(s, t) && t in Waiters(s, l)
    ensures IsStuck(Step(s, t, Continue), t)
  {
    SpinnerIsStuck(Step(s, t, Continue), t);
  }

  lemma LateTakeFinishes<T>(ss: seq<State<T>>, ls: seq<Label<T>>, t: Tid, y: Tid, l: WaitList)
    returns (ss': seq<State<T>>, ls': seq<Label<T>>)
    requires Behavior(ss, ls) && t != y && WillTake(ss[|ls|], t, l) && WillTake(ss[|ls|], y, l)
    ensures Behavior(ss', ls') && ss <= ss' && ls' == ls + [Label(y, Continue), Label(t, Continue), Label(t, Continue)]
    ensures t < |ss'[|ls'|].threads| && ss'[|ls'|].threads[t].pc.UserCode?
  {
    OthersStay(ss[|ls|], y, Continue, t);
    ss', ls' := Then(ss, ls, Label(y, Continue));
    assert Waiters(ss'[|ls'|], l) == [];
    ss', ls' := Then(ss', ls', Label(t, Continue));
    assert ss'[|ls'|].threads[t].pc == WakeLoop(l, []);
    ss', ls' := Then(ss', ls', Label(t, Continue));
  }
}
