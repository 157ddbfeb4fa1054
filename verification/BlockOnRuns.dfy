/** What `block_on` does when nobody interferes, as continuations of a run by one thread alone. */
module BlockOnRuns {
  import opened Wrappers
  import opened QueueSpec
  import opened Tasks
  import opened Protocol
  import opened ProtocolProofs

  predicate InBlockOn(pc: Pc) {
    IsChecking(pc) || pc.Parked? || pc.AbortCheckAfter?
  }

  /** `s'` differs from `s` in thread `t` at most, and in `t`'s place on the wait lists. */
  ghost predicate OnlyMoved<T>(s: State<T>, s': State<T>, t: Tid) {
    && |s'.threads| == |s.threads| && |s'.queues| == |s.queues| && s'.servers == s.servers
    && (forall u :: 0 <= u < |s.threads| && u != t ==> s'.threads[u] == s.threads[u])
    && (forall q :: 0 <= q < |s.queues| ==> s'.queues[q].channel == s.queues[q].channel)
    && (forall l: WaitList, u: Tid :: u != t ==> (u in Waiters(s', l) <==> u in Waiters(s, l)))
  }

  lemma OnlyMovedJoins<T>(s: State<T>, s1: State<T>, s2: State<T>, t: Tid)
    requires OnlyMoved(s, s1, t) && OnlyMoved(s1, s2, t)
    ensures OnlyMoved(s, s2, t)
  {
  }

  /** A region of `block_on`, or a change of the current server, moves nobody else. */
  lemma OwnStepMoves<T>(s: State<T>, t: Tid, a: Action<T>)
    requires CanStep(s, t, a)
    requires a.Block? || a.SetCurrent? || (a.Continue? && InBlockOn(s.threads[t].pc))
    ensures OnlyMoved(s, Step(s, t, a), t)
  {
    var s' := Step(s, t, a);
    forall u | 0 <= u < |s.threads| && u != t
      ensures s'.threads[u] == s.threads[u]
    {
    }
    forall l: WaitList, u: Tid | u != t
      ensures u in Waiters(s', l) <==> u in Waiters(s, l)
    {
      ListsStay(s, t, a, l);
      RemovedKeepsOthers(Waiters(s, l), t, u);
    }
  }

  /** `block_on` up to the first blocker. */
  lemma EntersBlockOn<T>(ss: seq<State<T>>, ls: seq<Label<T>>, t: Tid, bs: seq<Blocker>)
    returns (ss': seq<State<T>>, ls': seq<Label<T>>)
    requires Behavior(ss, ls) && t < |ss[|ls|].threads| && ss[|ls|].threads[t].pc.UserCode?
    requires !IsAborted(ss[|ls|], ss[|ls|].threads[t].current) && forall b :: b in bs ==> b.queue < |ss[|ls|].queues|
    ensures Behavior(ss', ls') && ss <= ss' && ls <= ls' && OnlyMoved(ss[|ls|], ss'[|ls'|], t)
    ensures ss'[|ls'|].threads[t] == Thread(Blocking, AfterChecks(bs, 0), ss[|ls|].threads[t].current)
    ensures forall l :: Waiters(ss'[|ls'|], l) == Waiters(ss[|ls|], l)
  {
    OwnStepMoves(ss[|ls|], t, Block(bs));
    ss', ls' := Then(ss, ls, Label(t, Block(bs)));
    OwnStepMoves(ss'[|ls'|], t, Continue);
    ss', ls' := Then(ss', ls', Label(t, Continue));
  }

  /** It passes a blocker that is not ready, and stays on its list. */
  lemma PassesBlocker<T>(ss: seq<State<T>>, ls: seq<Label<T>>, t: Tid, bs: seq<Blocker>, i: nat, current: Option<nat>)
    returns (ss': seq<State<T>>, ls': seq<Label<T>>)
    requires Behavior(ss, ls) && t < |ss[|ls|].threads| && i < |bs|
    requires ss[|ls|].threads[t] == Thread(Blocking, Register(bs, i), current)
    requires bs[i].queue < |ss[|ls|].queues| && !ShouldTry(ss[|ls|], bs[i])
    ensures Behavior(ss', ls') && ss <= ss' && ls <= ls' && OnlyMoved(ss[|ls|], ss'[|ls'|], t)
    ensures ss'[|ls'|].threads[t] == Thread(Blocking, AfterChecks(bs, i + 1), current)
    ensures t in Waiters(ss'[|ls'|], ListOf(bs[i]))
    ensures forall l :: l != ListOf(bs[i]) ==> Waiters(ss'[|ls'|], l) == Waiters(ss[|ls|], l)
  {
    OwnStepMoves(ss[|ls|], t, Continue);
    ss', ls' := Then(ss, ls, Label(t, Continue));
    OwnStepMoves(ss'[|ls'|], t, Continue);
    ss', ls' := Then(ss', ls', Label(t, Continue));
  }

  /** It stops at the first blocker that is ready, and leaves that blocker's list only. */
  lemma StopsAtBlocker<T>(ss: seq<State<T>>, ls: seq<Label<T>>, t: Tid, bs: seq<Blocker>, i: nat, current: Option<nat>)
    returns (ss': seq<State<T>>, ls': seq<Label<T>>)
    requires Behavior(ss, ls) && t < |ss[|ls|].threads| && i < |bs|
    requires ss[|ls|].threads[t] == Thread(Blocking, Register(bs, i), current) && ShouldTry(ss[|ls|], bs[i])
    ensures Behavior(ss', ls') && ss <= ss' && ls <= ls' && OnlyMoved(ss[|ls|], ss'[|ls'|], t)
    ensures ss'[|ls'|].threads[t] == Thread(Blocking, UserCode, current)
    ensures forall l :: l != ListOf(bs[i]) ==> Waiters(ss'[|ls'|], l) == Waiters(ss[|ls|], l)
  {
    ss', ls' := FindsReady(ss, ls, t, bs, i, current);
    ss', ls' := Deregisters(ss', ls', t, bs, i, 0, current);
  }

  lemma FindsReady<T>(ss: seq<State<T>>, ls: seq<Label<T>>, t: Tid, bs: seq<Blocker>, i: nat, current: Option<nat>)
    returns (ss': seq<State<T>>, ls': seq<Label<T>>)
    requires Behavior(ss, ls) && t < |ss[|ls|].threads| && i < |bs|
    requires ss[|ls|].threads[t] == Thread(Blocking, Register(bs, i), current) && ShouldTry(ss[|ls|], bs[i])
    ensures Behavior(ss', ls') && ss <= ss' && ls <= ls' && OnlyMoved(ss[|ls|], ss'[|ls'|], t)
    ensures ss'[|ls'|].threads[t] == Thread(Blocking, Deregister(bs, i, 0), current)
    ensures forall l :: l != ListOf(bs[i]) ==> Waiters(ss'[|ls'|], l) == Waiters(ss[|ls|], l)
  {
    OwnStepMoves(ss[|ls|], t, Continue);
    ss', ls' := Then(ss, ls, Label(t, Continue));
    OwnStepMoves(ss'[|ls'|], t, Continue);
    ss', ls' := Then(ss', ls', Label(t, Continue));
  }

  lemma {:induction false} Deregisters<T>(
    ss: seq<State<T>>, ls: seq<Label<T>>, t: Tid, bs: seq<Blocker>, i: nat, k: nat, current: Option<nat>)
    returns (ss': seq<State<T>>, ls': seq<Label<T>>)
    requires Behavior(ss, ls) && t < |ss[|ls|].threads| && k <= i < |bs|
    requires ss[|ls|].threads[t] == Thread(Blocking, Deregister(bs, i, k), current)
    ensures Behavior(ss', ls') && ss <= ss' && ls <= ls' && OnlyMoved(ss[|ls|], ss'[|ls'|], t)
    ensures ss'[|ls'|].threads[t] == Thread(Blocking, UserCode, current)
    ensures forall l :: l != ListOf(bs[i]) ==> Waiters(ss'[|ls'|], l) == Waiters(ss[|ls|], l)
    decreases i - k
  {
    OwnStepMoves(ss[|ls|], t, Continue);
    ss', ls' := Then(ss, ls, Label(t, Continue));
    if k < i {
      ss', ls' := Deregisters(ss', ls', t, bs, i, k + 1, current);
    }
  }

  /** A `block_on` on two blockers of which only the second is ready: the thread stays on the list of the first. */
  lemma ReturnsEarly<T>(ss: seq<State<T>>, ls: seq<Label<T>>, t: Tid, b0: Blocker, b1: Blocker)
    returns (ss': seq<State<T>>, ls': seq<Label<T>>)
    requires Behavior(ss, ls) && t < |ss[|ls|].threads| && ss[|ls|].threads[t].pc.UserCode?
    requires !IsAborted(ss[|ls|], ss[|ls|].threads[t].current) && ListOf(b0) != ListOf(b1)
    requires b0.queue < |ss[|ls|].queues| && !ShouldTry(ss[|ls|], b0) && ShouldTry(ss[|ls|], b1)
    ensures Behavior(ss', ls') && ss <= ss' && ls <= ls' && OnlyMoved(ss[|ls|], ss'[|ls'|], t)
    ensures ss'[|ls'|].threads[t] == Thread(Blocking, UserCode, ss[|ls|].threads[t].current)
    ensures t in Waiters(ss'[|ls'|], ListOf(b0))
    ensures forall l :: l != ListOf(b0) && l != ListOf(b1) ==> Waiters(ss'[|ls'|], l) == Waiters(ss[|ls|], l)
  {
    var current, bs := ss[|ls|].threads[t].current, [b0, b1];
    ss', ls' := EntersBlockOn(ss, ls, t, bs);
    ss', ls' := PassesBlocker(ss', ls', t, bs, 0, current);
    ss', ls' := StopsAtBlocker(ss', ls', t, bs, 1, current);
  }

  /** An operation that wakes a list, up to taking the list. */
  lemma OperatesAndTakes<T>(ss: seq<State<T>>, ls: seq<Label<T>>, t: Tid, l: WaitList, e: Event<T>)
    returns (ss': seq<State<T>>, ls': seq<Label<T>>)
    requires Behavior(ss, ls) && t < |ss[|ls|].threads| && ss[|ls|].threads[t].pc.UserCode?
    requires l.queue < |ss[|ls|].queues| && Wakes(e) == Some(l.kind)
    requires QueueSpec.Enabled(ss[|ls|].queues[l.queue].channel, e)
    ensures Behavior(ss', ls') && ss <= ss' && ls <= ls'
    ensures var s, s' := ss[|ls|], ss'[|ls'|];
            && s'.threads == s.threads[t := s.threads[t].(pc := WakeLoop(l, Waiters(s, l)))]
            && |s'.queues| == |s.queues| && s'.servers == s.servers
            && (forall m: WaitList :: m != l ==> Waiters(s', m) == Waiters(s, m))
            && (forall q :: 0 <= q < |s.queues| && q != l.queue ==> s'.queues[q].channel == s.queues[q].channel)
  {
    ss', ls' := Then(ss, ls, Label(t, Operate(l.queue, e)));
    assert Waiters(ss'[|ls'|], l) == Waiters(ss[|ls|], l);
    ss', ls' := Then(ss', ls', Label(t, Continue));
  }
}
