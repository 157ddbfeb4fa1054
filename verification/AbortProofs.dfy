/** Aborting a server reaches every one of its threads that is parked, or about to park, in `block_on`. */
module AbortProofs {
  import opened Wrappers
  import opened Tasks
  import opened Protocol
  import opened ProtocolProofs

  /** The thread is in `block_on`, past the first abort check, and will not return without parking or being woken. */
  predicate IsPastAbortCheck(th: Thread) {
    th.pc.Register? || th.pc.Check? || th.pc.Park? || (th.pc.Parked? && th.state == Blocked)
  }

  /** Attached thread `u` of server `v` works for that server and could sleep through its abort. */
  predicate CouldMissAbort<T>(s: State<T>, u: Tid, v: nat) {
    && u < |s.threads| && v < |s.servers| && u in s.servers[v].threads
    && s.threads[u].current == Some(v) && IsPastAbortCheck(s.threads[u])
  }

  /** `f` has set the flag of server `v` and still has `u` to unpark. */
  predicate WillUnpark<T>(s: State<T>, f: Tid, u: Tid, v: nat) {
    && f < |s.threads| && v < |s.servers|
    && (|| (s.threads[f].pc == AbortLock(v) && u in s.servers[v].threads)
        || (s.threads[f].pc.AbortWalk? && s.threads[f].pc.server == v && s.threads[f].pc.next <= |s.servers[v].threads|
            && u in s.servers[v].threads[s.threads[f].pc.next..]))
  }

  ghost predicate AbortKept<T>(s: State<T>, u: Tid, v: nat) {
    CouldMissAbort(s, u, v) && s.servers[v].aborted ==>
      s.servers[v].firstAborter.Some? && WillUnpark(s, s.servers[v].firstAborter.value, u, v)
  }

  /** The lock on a server's thread list belongs to the thread that walks it, and to nobody else. */
  ghost predicate LockOk<T>(s: State<T>, t: Tid, v: nat) {
    t < |s.threads| && v < |s.servers| ==>
      (s.servers[v].walker == Some(t) <==> s.threads[t].pc.AbortWalk? && s.threads[t].pc.server == v)
  }

  ghost predicate AbortInv<T>(s: State<T>) {
    && (forall t :: 0 <= t < |s.threads| ==> ThreadOk(s.threads[t], |s.queues|))
    && (forall u: nat, v: nat :: AbortKept(s, u, v))
    && (forall t: nat, v: nat :: LockOk(s, t, v))
  }

  /** The thread lists only grow, and a flag stays set with its first setter on record. */
  lemma ServersStay<T>(s: State<T>, t: Tid, a: Action<T>, v: nat)
    requires CanStep(s, t, a) && v < |s.servers|
    ensures var s' := Step(s, t, a);
            && |s'.servers| == |s.servers|
            && s'.servers[v].threads == s.servers[v].threads + (if a == Attach(v) then [t] else [])
            && (s.servers[v].aborted ==>
                  s'.servers[v].aborted && s'.servers[v].firstAborter == s.servers[v].firstAborter)
            && (!s.servers[v].aborted && s'.servers[v].aborted ==>
                  a == Abort(v) && s'.servers[v].firstAborter == Some(t) && s'.threads[t].pc == AbortLock(v))
  {
  }

  lemma StepKeepsLock<T>(s: State<T>, t: Tid, a: Action<T>, u: Tid, v: nat)
    requires CanStep(s, t, a) && LockOk(s, u, v) && LockOk(s, t, v)
    ensures LockOk(Step(s, t, a), u, v)
  {
    if u < |s.threads| && u != t {
      OthersStay(s, t, a, u);
    }
  }

  /** A thread gets past the abort check only while its server is not aborted. */
  lemma PastCheckWasPastCheck<T>(s: State<T>, t: Tid, a: Action<T>, u: Tid, v: nat)
    requires CanStep(s, t, a) && CouldMissAbort(Step(s, t, a), u, v) && v < |s.servers| && s.servers[v].aborted
    ensures CouldMissAbort(s, u, v)
  {
    ServersStay(s, t, a, v);
    if u != t {
      OthersStay(s, t, a, u);
    }
  }

  /** The aborting thread passes over `u` only by unparking it. */
  lemma UnparkKept<T>(s: State<T>, t: Tid, a: Action<T>, f: Tid, u: Tid, v: nat)
    requires CanStep(s, t, a) && WillUnpark(s, f, u, v) && u < |s.threads|
    ensures WillUnpark(Step(s, t, a), f, u, v)
         || (s.threads[u].state != Blocking && Step(s, t, a).threads[u].state == Running)
  {
    ServersStay(s, t, a, v);
    if f != t {
      OthersStay(s, t, a, f);
      if s.threads[f].pc.AbortWalk? {
        InLongerTail(s.servers[v].threads, Step(s, t, a).servers[v].threads, s.threads[f].pc.next, u);
      }
    } else if s.threads[f].pc.AbortWalk? {
      var k := s.threads[f].pc.next;
      assert k < |s.servers[v].threads|;
      assert u == s.servers[v].threads[k] || u in s.servers[v].threads[k + 1..];
    }
  }

  lemma InLongerTail(tasks: seq<Tid>, more: seq<Tid>, k: nat, u: Tid)
    requires k <= |tasks| && u in tasks[k..] && tasks <= more
    ensures u in more[k..]
  {
    var i :| k <= i < |tasks| && tasks[i] == u;
    assert more[k..][i - k] == u;
  }

  lemma StepKeepsAbort<T>(s: State<T>, t: Tid, a: Action<T>, u: Tid, v: nat)
    requires CanStep(s, t, a) && AbortKept(s, u, v)
    requires u < |s.threads| ==> ThreadOk(s.threads[u], |s.queues|)
    ensures AbortKept(Step(s, t, a), u, v)
  {
    var s' := Step(s, t, a);
    if CouldMissAbort(s', u, v) && s'.servers[v].aborted {
      ServersStay(s, t, a, v);
      if s.servers[v].aborted {
        PastCheckWasPastCheck(s, t, a, u, v);
        UnparkKept(s, t, a, s.servers[v].firstAborter.value, u, v);
        StepKeepsThreadOk(s, t, a, u);
      }
    }
  }

  lemma {:induction false} BehaviorKeepsAborts<T>(ss: seq<State<T>>, ls: seq<Label<T>>)
    requires Behavior(ss, ls) && Init(ss[0])
    ensures AbortInv(ss[|ls|])
    decreases |ls|
  {
    if ls != [] {
      var n := |ls| - 1;
      assert Moves(ss[n], ls[n], ss[n + 1]);
      BehaviorKeepsAborts(ss[..n + 1], ls[..n]);
      var s, t, a := ss[n], ls[n].thread, ls[n].action;
      forall u | 0 <= u < |s.threads|
        ensures ThreadOk(Step(s, t, a).threads[u], |s.queues|)
      {
        StepKeepsThreadOk(s, t, a, u);
      }
      forall u: nat, v: nat
        ensures AbortKept(Step(s, t, a), u, v) && LockOk(Step(s, t, a), u, v)
      {
        assert AbortKept(s, u, v) && LockOk(s, u, v) && LockOk(s, t, v);
        StepKeepsAbort(s, t, a, u, v);
        StepKeepsLock(s, t, a, u, v);
      }
    }
  }

  /**
   In every reachable state, dropped readers or not: when a server is aborted and one of its attached threads is
   parked with that server as its current one, the thread that first set the flag still has it to unpark.
   */
  lemma AbortReachesParkedThreads<T>(ss: seq<State<T>>, ls: seq<Label<T>>, u: Tid, v: nat)
    requires Behavior(ss, ls) && Init(ss[0])
    requires var s := ss[|ls|];
             && u < |s.threads| && v < |s.servers| && u in s.servers[v].threads && s.threads[u].current == Some(v)
             && s.servers[v].aborted && s.threads[u].state == Blocked
    ensures var s := ss[|ls|];
            && s.servers[v].firstAborter.Some?
            && WillUnpark(s, s.servers[v].firstAborter.value, u, v)
  {
    BehaviorKeepsAborts(ss, ls);
    assert AbortKept(ss[|ls|], u, v);
  }

  predicate Walks<T>(s: State<T>, t: Tid, v: nat) {
    t < |s.threads| && v < |s.servers| && s.threads[t].pc.AbortWalk? && s.threads[t].pc.server == v
  }

  /** Only one thread at a time walks a server's threads, and `park` is only ever entered in state `Blocking`. */
  lemma LocksAndParkAssertion<T>(ss: seq<State<T>>, ls: seq<Label<T>>)
    requires Behavior(ss, ls) && Init(ss[0])
    ensures forall t :: 0 <= t < |ss[|ls|].threads| && ss[|ls|].threads[t].pc.Park? ==>
              ss[|ls|].threads[t].state == Blocking
    ensures forall t, u, v :: Walks(ss[|ls|], t, v) && Walks(ss[|ls|], u, v) ==> t == u
  {
    BehaviorKeepsAborts(ss, ls);
    var s := ss[|ls|];
    forall t, u, v | Walks(s, t, v) && Walks(s, u, v)
      ensures t == u
    {
      assert LockOk(s, t, v) && LockOk(s, u, v);
    }
  }
}
