/** How a wakeup is lost: dropping the last reader in the way of a full queue wakes no sender. */
module LostWakeup {
  import opened Wrappers
  import opened QueueSpec
  import opened Tasks
  import opened Protocol
  import opened ProtocolProofs
  import opened BlockOnRuns

  /** Thread `u` is in user code, and nobody is about to wake the senders of queue `q`. */
  ghost predicate CanBlockUnnoticed<T>(s: State<T>, u: Tid, q: nat) {
    && u < |s.threads| && s.threads[u].pc.UserCode? && !IsAborted(s, s.threads[u].current) && q < |s.queues|
    && forall w :: !WillTake(s, w, WaitList(q, PutList)) && !Holds(s, w, u, WaitList(q, PutList))
  }

  /** `u` sleeps beside queue `q`, which has room, and nobody is on the way to wake it. */
  ghost predicate IsOverslept<T>(s: State<T>, u: Tid, q: nat) {
    Oversleeps(s, u, 0) && s.threads[u].pc.blockers[0] == Blocker(q, ToSend)
  }

  lemma StaysUnnoticed<T>(s: State<T>, s': State<T>, u: Tid, q: nat)
    requires CanBlockUnnoticed(s, u, q) && OnlyMoved(s, s', u)
    requires s'.threads[u].pc.Park? || s'.threads[u].pc.Parked?
    ensures !WakeupPending(s', u, WaitList(q, PutList))
  {
    var l := WaitList(q, PutList);
    forall w: nat
      ensures !WillTake(s', w, l) && !Holds(s', w, u, l)
    {
      assert !WillTake(s, w, l) && !Holds(s, w, u, l);
    }
  }

  /**
   From every reachable state in which `u` is about to block on sending to the full queue `q`, and `t` owns a reader
   whose drop would free it: if the drop comes after `u`'s check, `u` oversleeps. Whether the drop comes before or after
   `u` parks makes no difference.
   */
  lemma DroppedReaderLosesAWakeup<T>(
    ss: seq<State<T>>, ls: seq<Label<T>>, u: Tid, t: Tid, q: nat, e: Event<T>, beforeParking: bool)
    returns (ss': seq<State<T>>, ls': seq<Label<T>>)
    requires Behavior(ss, ls) && Init(ss[0]) && CanBlockUnnoticed(ss[|ls|], u, q)
    requires t != u && CanStep(ss[|ls|], t, Operate(q, e)) && FreesRoomSilently(ss[|ls|], Operate(q, e))
    ensures Behavior(ss', ls') && ss <= ss' && ls <= ls' && IsOverslept(ss'[|ls'|], u, q)
    ensures var drop := Label(t, Operate(q, e));
            if beforeParking then |ls'| > |ls| + 1 && ls'[|ls'| - 2..] == [drop, Label(u, Continue)]
            else |ls'| > |ls| && ls'[|ls'| - 1] == drop
  {
    var drop := Label(t, Operate(q, e));
    ss', ls' := FindsQueueFull(ss, ls, u, q, beforeParking);
    var s := ss'[|ls'|];
    ss', ls' := Then(ss', ls', drop);
    assert Basic(ss'[|ls'|]) by {
      RegistrationsAreKept(ss', ls');
    }
    DropIsUnnoticed(s, t, drop.action, u);
    LossIsASleeper(ss'[|ls'|], u, 0);
    if beforeParking {
      ss', ls' := Then(ss', ls', Label(u, Continue));
    }
  }

  /** `u` goes as far as parking, or not quite as far, with nobody about to wake it. */
  lemma FindsQueueFull<T>(ss: seq<State<T>>, ls: seq<Label<T>>, u: Tid, q: nat, beforeParking: bool)
    returns (ss': seq<State<T>>, ls': seq<Label<T>>)
    requires Behavior(ss, ls) && CanBlockUnnoticed(ss[|ls|], u, q) && !HasRoom(ss[|ls|].queues[q].channel)
    ensures Behavior(ss', ls') && ss <= ss' && ls <= ls' && OnlyMoved(ss[|ls|], ss'[|ls'|], u)
    ensures WaitsUnnoticed(ss'[|ls'|], u, 0, q)
    ensures var pc := ss'[|ls'|].threads[u].pc; if beforeParking then pc.Park? else pc.Parked?
  {
    var bs := [Blocker(q, ToSend)];
    ss', ls' := EntersBlockOn(ss, ls, u, bs);
    ss', ls' := PassesBlocker(ss', ls', u, bs, 0, ss[|ls|].threads[u].current);
    if !beforeParking {
      ss', ls' := Then(ss', ls', Label(u, Continue));
    }
    StaysUnnoticed(ss[|ls|], ss'[|ls'|], u, q);
  }

  lemma DropIsUnnoticed<T>(s: State<T>, t: Tid, a: Action<T>, u: Tid)
    requires CanStep(s, t, a) && FreesRoomSilently(s, a) && WaitsUnnoticed(s, u, 0, a.queue)
    ensures Step(s, t, a).threads == s.threads && !WakeupKept(Step(s, t, a), u, 0)
  {
    var s', l := Step(s, t, a), WaitList(a.queue, PutList);
    assert s'.threads == s.threads && Waiters(s', l) == Waiters(s, l);
    assert forall w :: WillTake(s', w, l) <==> WillTake(s, w, l);
    assert forall w :: Holds(s', w, u, l) <==> Holds(s, w, u, l);
  }

  // ---------------------------------------------------------------------------------------------
  // How long it sleeps.

  ghost predicate NobodyWakes<T>(s: State<T>, u: Tid, l: WaitList) {
    forall w: nat :: !WillTake(s, w, l) && !Holds(s, w, u, l)
  }

  /** A receive or an observation on queue `q`, which wakes its senders. */
  predicate WakesSenders<T>(a: Action<T>, q: nat) {
    a.Operate? && a.queue == q && Wakes(a.event) == Some(PutList)
  }

  lemma StillNobodyWakes<T>(s: State<T>, x: Label<T>, s': State<T>, u: Tid, q: nat)
    requires Moves(s, x, s') && NobodyWakes(s, u, WaitList(q, PutList)) && !WakesSenders(x.action, q)
    ensures NobodyWakes(s', u, WaitList(q, PutList))
  {
    var l := WaitList(q, PutList);
    forall w: nat
      ensures !WillTake(s', w, l) && !Holds(s', w, u, l)
    {
      assert !WillTake(s, w, l) && !Holds(s, w, u, l);
      if w < |s.threads| && w != x.thread {
        OthersStay(s, x.thread, x.action, w);
      }
      CountsStay(s, x.thread, x.action);
    }
  }

  /** Until somebody receives from the queue or observes it, nobody is on the way to wake the sleeper for it. */
  lemma {:induction false} OversleepsUntilWoken<T>(ss: seq<State<T>>, ls: seq<Label<T>>, i: nat, u: Tid, q: nat)
    requires Behavior(ss, ls) && Init(ss[0]) && i <= |ls| && IsOverslept(ss[i], u, q)
    requires forall k :: i <= k < |ls| ==> !WakesSenders(ls[k].action, q)
    ensures NobodyWakes(ss[|ls|], u, WaitList(q, PutList))
    decreases |ls|
  {
    if i < |ls| {
      var n := |ls| - 1;
      LastStep(ss, ls);
      OversleepsUntilWoken(ss[..n + 1], ls[..n], i, u, q);
      StillNobodyWakes(ss[n], ls[n], ss[n + 1], u, q);
    } else {
      var s, l := ss[i], WaitList(q, PutList);
      assert RegistrationKept(s, u, 0) by {
        RegistrationsAreKept(ss, ls);
      }
      forall w: nat
        ensures !WillTake(s, w, l) && !Holds(s, w, u, l)
      {
      }
    }
  }

  /** A fresh system in which it happens: the two slots hold a value that thread 1's receiver has not taken. */
  lemma FreshSystemLosesAWakeup(beforeParking: bool) returns (ss: seq<State<int>>, ls: seq<Label<int>>)
    ensures Behavior(ss, ls) && Init(ss[0]) && IsOverslept(ss[|ls|], 0, 0)
  {
    var full := Channel(2, 0, false, [7], Attached(1, 0), map[]);
    var s := State([IDLE, IDLE], [QueueState(full, [], [])], []);
    ss, ls := DroppedReaderLosesAWakeup([s], [], 0, 1, 0, ReceiverDropped, beforeParking);
  }
}
