/**
 Every registration on a wait list is accounted for: it is still on the list, in the vector of a waker that took
 the list, or it was delivered by an `unpark`, or withdrawn by its own task. None is lost and none is used twice.
 */
module WaitListConservation {
  import opened Tasks
  import opened Protocol
  import opened ProtocolProofs

  function Occurrences(tasks: seq<Tid>, u: Tid): nat {
    if tasks == [] then 0 else Count(tasks[0] == u) + Occurrences(tasks[1..], u)
  }

  lemma {:induction false} OccurrencesAppend(tasks: seq<Tid>, t: Tid, u: Tid)
    ensures Occurrences(tasks + [t], u) == Occurrences(tasks, u) + Count(t == u)
  {
    if tasks == [] {
      assert tasks + [t] == [t];
    } else {
      assert (tasks + [t])[1..] == tasks[1..] + [t];
      OccurrencesAppend(tasks[1..], t, u);
    }
  }

  function HeldBy(th: Thread, l: WaitList, u: Tid): nat {
    if th.pc.WakeLoop? && th.pc.list == l then Occurrences(th.pc.rest, u) else 0
  }

  /** How often `u`, taken off `l`, is in the vectors of all the wakers together. */
  function Held(threads: seq<Thread>, l: WaitList, u: Tid): nat {
    if threads == [] then 0 else HeldBy(threads[0], l, u) + Held(threads[1..], l, u)
  }

  function OnList<T>(s: State<T>, l: WaitList, u: Tid): nat {
    Occurrences(Waiters(s, l), u)
  }

  /** The label puts `u` on list `l`. */
  predicate Registers<T>(s: State<T>, x: Label<T>, l: WaitList, u: Tid) {
    && x.thread == u < |s.threads| && x.action.Continue? && s.threads[u].pc.Register?
    && s.threads[u].pc.i < |s.threads[u].pc.blockers| && ListOf(s.threads[u].pc.blockers[s.threads[u].pc.i]) == l
    && l.queue < |s.queues| && u !in Waiters(s, l)
  }

  /** The label unparks `u` for a registration on list `l`. */
  predicate Delivers<T>(s: State<T>, x: Label<T>, l: WaitList, u: Tid) {
    && x.thread < |s.threads| && x.action.Continue? && s.threads[x.thread].pc.WakeLoop?
    && s.threads[x.thread].pc.list == l && s.threads[x.thread].pc.rest != [] && s.threads[x.thread].pc.rest[0] == u
  }

  /** The label is `u` taking itself off list `l`. */
  predicate Withdraws<T>(s: State<T>, x: Label<T>, l: WaitList, u: Tid) {
    && x.thread == u < |s.threads| && x.action.Continue? && s.threads[u].pc.Deregister?
    && s.threads[u].pc.i < |s.threads[u].pc.blockers| && ListOf(s.threads[u].pc.blockers[s.threads[u].pc.i]) == l
    && u in Waiters(s, l)
  }

  function Count(b: bool): nat { if b then 1 else 0 }

  function Registrations<T>(ss: seq<State<T>>, ls: seq<Label<T>>, l: WaitList, u: Tid): nat
    requires |ls| <= |ss|
  {
    if ls == [] then 0 else Count(Registers(ss[0], ls[0], l, u)) + Registrations(ss[1..], ls[1..], l, u)
  }

  function Deliveries<T>(ss: seq<State<T>>, ls: seq<Label<T>>, l: WaitList, u: Tid): nat
    requires |ls| <= |ss|
  {
    if ls == [] then 0 else Count(Delivers(ss[0], ls[0], l, u)) + Deliveries(ss[1..], ls[1..], l, u)
  }

  function Withdrawals<T>(ss: seq<State<T>>, ls: seq<Label<T>>, l: WaitList, u: Tid): nat
    requires |ls| <= |ss|
  {
    if ls == [] then 0 else Count(Withdraws(ss[0], ls[0], l, u)) + Withdrawals(ss[1..], ls[1..], l, u)
  }

  lemma {:induction false} HeldDiffersByOne(a: seq<Thread>, b: seq<Thread>, t: Tid, l: WaitList, u: Tid)
    requires |a| == |b| && t < |a|
    requires forall w :: 0 <= w < |a| && w != t ==> HeldBy(a[w], l, u) == HeldBy(b[w], l, u)
    ensures Held(b, l, u) + HeldBy(a[t], l, u) == Held(a, l, u) + HeldBy(b[t], l, u)
  {
    if t == 0 {
      HeldIsLocal(a[1..], b[1..], l, u);
    } else {
      HeldDiffersByOne(a[1..], b[1..], t - 1, l, u);
    }
  }

  lemma {:induction false} HeldIsLocal(a: seq<Thread>, b: seq<Thread>, l: WaitList, u: Tid)
    requires |a| == |b|
    requires forall w :: 0 <= w < |a| ==> HeldBy(a[w], l, u) == HeldBy(b[w], l, u)
    ensures Held(a, l, u) == Held(b, l, u)
  {
    if a != [] {
      HeldIsLocal(a[1..], b[1..], l, u);
    }
  }

  lemma {:induction false} NobodyHoldsAtFirst(threads: seq<Thread>, l: WaitList, u: Tid)
    requires forall w :: 0 <= w < |threads| ==> !threads[w].pc.WakeLoop?
    ensures Held(threads, l, u) == 0
  {
    if threads != [] {
      NobodyHoldsAtFirst(threads[1..], l, u);
    }
  }

  lemma {:induction false} RemovedCount(tasks: seq<Tid>, t: Tid, u: Tid)
    ensures Occurrences(Removed(tasks, t), u) + Count(t == u && u in tasks) == Occurrences(tasks, u)
  {
    if tasks != [] && tasks[0] != t {
      RemovedCount(tasks[1..], t, u);
      assert u in tasks <==> u == tasks[0] || u in tasks[1..];
    }
  }

  /** The account of `u` on list `l` after the label, against the account before it. */
  ghost predicate Balances<T>(s: State<T>, x: Label<T>, s': State<T>, l: WaitList, u: Tid, before: nat, after: nat) {
    OnList(s, l, u) + before + Count(Registers(s, x, l, u))
    == OnList(s', l, u) + after + Count(Delivers(s, x, l, u)) + Count(Withdraws(s, x, l, u))
  }

  lemma RegisterBalances<T>(s: State<T>, x: Label<T>, s': State<T>, l: WaitList, u: Tid)
    requires Moves(s, x, s') && x.action.Continue? && s.threads[x.thread].pc.Register?
    ensures Balances(s, x, s', l, u, HeldBy(s.threads[x.thread], l, u), HeldBy(s'.threads[x.thread], l, u))
  {
    OccurrencesAppend(Waiters(s, l), x.thread, u);
  }

  lemma DeregisterBalances<T>(s: State<T>, x: Label<T>, s': State<T>, l: WaitList, u: Tid)
    requires Moves(s, x, s') && x.action.Continue? && s.threads[x.thread].pc.Deregister?
    ensures Balances(s, x, s', l, u, HeldBy(s.threads[x.thread], l, u), HeldBy(s'.threads[x.thread], l, u))
  {
    RemovedCount(Waiters(s, l), x.thread, u);
  }

  lemma WakeStepBalances<T>(s: State<T>, x: Label<T>, s': State<T>, l: WaitList, u: Tid)
    requires Moves(s, x, s') && x.action.Continue?
    requires var pc := s.threads[x.thread].pc; pc.WakeTake? || pc.WakeLoop?
    ensures Balances(s, x, s', l, u, HeldBy(s.threads[x.thread], l, u), HeldBy(s'.threads[x.thread], l, u))
  {
  }

  /** What the acting thread's own step does to the account of `u` on list `l`. */
  lemma OwnAccount<T>(s: State<T>, x: Label<T>, s': State<T>, l: WaitList, u: Tid)
    requires Moves(s, x, s')
    ensures Balances(s, x, s', l, u, HeldBy(s.threads[x.thread], l, u), HeldBy(s'.threads[x.thread], l, u))
  {
    var pc := s.threads[x.thread].pc;
    if x.action.Continue? && pc.Register? {
      RegisterBalances(s, x, s', l, u);
    } else if x.action.Continue? && pc.Deregister? {
      DeregisterBalances(s, x, s', l, u);
    } else if x.action.Continue? && (pc.WakeTake? || pc.WakeLoop?) {
      WakeStepBalances(s, x, s', l, u);
    } else {
      ListsStay(s, x.thread, x.action, l);
    }
  }

  lemma StepConserves<T>(s: State<T>, x: Label<T>, s': State<T>, l: WaitList, u: Tid)
    requires Moves(s, x, s')
    ensures Balances(s, x, s', l, u, Held(s.threads, l, u), Held(s'.threads, l, u))
  {
    forall w | 0 <= w < |s.threads| && w != x.thread
      ensures |s'.threads| == |s.threads| && HeldBy(s.threads[w], l, u) == HeldBy(s'.threads[w], l, u)
    {
      OthersStay(s, x.thread, x.action, w);
    }
    HeldDiffersByOne(s.threads, s'.threads, x.thread, l, u);
    OwnAccount(s, x, s', l, u);
  }

  lemma {:induction false} AccountsAddUp<T>(ss: seq<State<T>>, ls: seq<Label<T>>, l: WaitList, u: Tid)
    requires Behavior(ss, ls)
    ensures OnList(ss[0], l, u) + Held(ss[0].threads, l, u) + Registrations(ss, ls, l, u)
         == OnList(ss[|ls|], l, u) + Held(ss[|ls|].threads, l, u) + Deliveries(ss, ls, l, u) + Withdrawals(ss, ls, l, u)
    decreases |ls|
  {
    if ls != [] {
      assert Moves(ss[0], ls[0], ss[1]);
      StepConserves(ss[0], ls[0], ss[1], l, u);
      BehaviorSuffix(ss, ls);
      AccountsAddUp(ss[1..], ls[1..], l, u);
    }
  }

  lemma BehaviorSuffix<T>(ss: seq<State<T>>, ls: seq<Label<T>>)
    requires Behavior(ss, ls) && ls != []
    ensures Behavior(ss[1..], ls[1..])
  {
    forall i | 0 <= i < |ls| - 1
      ensures Moves(ss[1..][i], ls[1..][i], ss[1..][i + 1])
    {
      assert Moves(ss[i + 1], ls[i + 1], ss[i + 2]);
    }
  }

  lemma RegistrationsAreConserved<T>(ss: seq<State<T>>, ls: seq<Label<T>>, l: WaitList, u: Tid)
    requires Behavior(ss, ls) && Init(ss[0])
    ensures Registrations(ss, ls, l, u)
         == OnList(ss[|ls|], l, u) + Held(ss[|ls|].threads, l, u) + Deliveries(ss, ls, l, u) + Withdrawals(ss, ls, l, u)
  {
    NobodyHoldsAtFirst(ss[0].threads, l, u);
    assert Waiters(ss[0], l) == [];
    AccountsAddUp(ss, ls, l, u);
  }

  /** A list never holds a task twice. */
  lemma {:induction false} ListsAreDistinct<T>(ss: seq<State<T>>, ls: seq<Label<T>>, l: WaitList)
    requires Behavior(ss, ls) && Init(ss[0])
    ensures ListOk(ss[|ls|], l)
    decreases |ls|
  {
    if ls == [] {
      assert Waiters(ss[0], l) == [];
    } else {
      var n := |ls| - 1;
      assert Moves(ss[n], ls[n], ss[n + 1]);
      ListsAreDistinct(ss[..n + 1], ls[..n], l);
      StepKeepsListOk(ss[n], ls[n].thread, ls[n].action, l);
    }
  }
}
