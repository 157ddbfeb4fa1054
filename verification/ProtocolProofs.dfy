/** What the runs of the protocol keep: registrations always, wakeups exactly when no dropped reader loses one. */
module ProtocolProofs {
  import opened QueueSpec
  import opened Tasks
  import opened Protocol

  // ---------------------------------------------------------------------------------------------
  // The invariant.

  /** The program counters of `block_on` between setting `Blocking` and parking or returning. */
  predicate IsChecking(pc: Pc) {
    pc.AbortCheckBefore? || pc.Register? || pc.Check? || pc.Deregister? || pc.Park?
  }

  ghost predicate ThreadOk(th: Thread, queues: nat) {
    && (IsChecking(th.pc) ==> th.state == Blocking)
    && (th.pc.Parked? ==> th.state != Blocking)
    && (th.pc.AbortCheckAfter? ==> th.state == Running)
    && (th.state == Blocked ==> th.pc.Parked?)
    && (th.pc.Register? || th.pc.Check? || th.pc.Deregister? ==> th.pc.i < |th.pc.blockers|)
    && (IsChecking(th.pc) || th.pc.Parked? ==> forall b :: b in th.pc.blockers ==> b.queue < queues)
  }

  /** In the current `block_on`, `prepare_to_wait` was called on blocker `j` and the task still waits. */
  predicate Registered(th: Thread, j: nat) {
    match th.pc
    case Register(bs, i) => j < i && j < |bs|
    case Check(bs, i) => j <= i && j < |bs|
    case Park(bs) => j < |bs|
    case Parked(bs) => j < |bs| && th.state == Blocked
    case _ => false
  }

  /** In the current `block_on`, `should_try` was false for blocker `j` and the task still waits. */
  predicate Checked(th: Thread, j: nat) {
    Registered(th, j) && (th.pc.Check? ==> j < th.pc.i)
  }

  /** `w` took `u` off list `l` and has not unparked it yet. */
  predicate Holds<T>(s: State<T>, w: Tid, u: Tid, l: WaitList) {
    w < |s.threads| && s.threads[w].pc.WakeLoop? && s.threads[w].pc.list == l && u in s.threads[w].pc.rest
  }

  /** `w` has changed the queue and is about to take list `l`. */
  predicate WillTake<T>(s: State<T>, w: Tid, l: WaitList) {
    w < |s.threads| && s.threads[w].pc == WakeTake(l)
  }

  ghost predicate OnListOrHeld<T>(s: State<T>, u: Tid, l: WaitList) {
    u in Waiters(s, l) || exists w :: Holds(s, w, u, l)
  }

  /** Somebody is on the way to wake `u`. */
  ghost predicate WakeupPending<T>(s: State<T>, u: Tid, l: WaitList) {
    || (u in Waiters(s, l) && exists w :: WillTake(s, w, l))
    || (exists w :: Holds(s, w, u, l))
  }

  ghost predicate RegistrationKept<T>(s: State<T>, u: Tid, j: nat) {
    u < |s.threads| && Registered(s.threads[u], j) ==>
      OnListOrHeld(s, u, ListOf(s.threads[u].pc.blockers[j]))
  }

  ghost predicate WakeupKept<T>(s: State<T>, u: Tid, j: nat) {
    u < |s.threads| && Checked(s.threads[u], j) && ShouldTry(s, s.threads[u].pc.blockers[j]) ==>
      WakeupPending(s, u, ListOf(s.threads[u].pc.blockers[j]))
  }

  ghost predicate ListOk<T>(s: State<T>, l: WaitList) {
    Distinct(Waiters(s, l)) && forall u :: u in Waiters(s, l) ==> u < |s.threads|
  }

  ghost predicate Basic<T>(s: State<T>) {
    && (forall t :: 0 <= t < |s.threads| ==> ThreadOk(s.threads[t], |s.queues|))
    && (forall q :: 0 <= q < |s.queues| ==> WellFormed(s.queues[q].channel))
    && (forall l :: ListOk(s, l))
  }

  ghost predicate Inv<T>(s: State<T>) {
    && Basic(s)
    && (forall u, j :: RegistrationKept(s, u, j))
    && (forall u, j :: WakeupKept(s, u, j))
  }

  // ---------------------------------------------------------------------------------------------
  // What one step leaves alone.

  /** A step moves only the acting thread; another thread can at most be unparked, when it is not checking. */
  lemma OthersStay<T>(s: State<T>, t: Tid, a: Action<T>, u: Tid)
    requires CanStep(s, t, a) && u < |s.threads| && u != t
    ensures var s' := Step(s, t, a);
            && |s'.threads| == |s.threads|
            && s'.threads[u].pc == s.threads[u].pc && s'.threads[u].current == s.threads[u].current
            && (s'.threads[u].state == s.threads[u].state
                || (s.threads[u].state != Blocking && s'.threads[u].state == Running))
  {
  }

  /** The acting thread keeps its place in nothing but its own lists, and a list changes in three ways. */
  lemma ListsStay<T>(s: State<T>, t: Tid, a: Action<T>, l: WaitList)
    requires CanStep(s, t, a)
    ensures var s' := Step(s, t, a);
            || Waiters(s', l) == Waiters(s, l)
            || (a.Continue? && s.threads[t].pc.Register? && Waiters(s', l) == Added(Waiters(s, l), t))
            || (a.Continue? && s.threads[t].pc.Deregister? && Waiters(s', l) == Removed(Waiters(s, l), t))
            || (a.Continue? && s.threads[t].pc == WakeTake(l) && Waiters(s', l) == []
                && s'.threads[t].pc == WakeLoop(l, Waiters(s, l)))
  {
  }

  lemma ChannelsStay<T>(s: State<T>, t: Tid, a: Action<T>, q: nat)
    requires CanStep(s, t, a) && q < |s.queues|
    ensures var s' := Step(s, t, a);
            && |s'.queues| == |s.queues|
            && s'.queues[q].channel == if a.Operate? && a.queue == q then Apply(s.queues[q].channel, a.event)
                                       else s.queues[q].channel
  {
  }

  lemma CountsStay<T>(s: State<T>, t: Tid, a: Action<T>)
    requires CanStep(s, t, a)
    ensures |Step(s, t, a).threads| == |s.threads| && |Step(s, t, a).queues| == |s.queues|
    ensures |Step(s, t, a).servers| == |s.servers|
  {
  }

  lemma StepKeepsThreadOk<T>(s: State<T>, t: Tid, a: Action<T>, u: Tid)
    requires CanStep(s, t, a) && u < |s.threads| && ThreadOk(s.threads[u], |s.queues|)
    ensures ThreadOk(Step(s, t, a).threads[u], |s.queues|) && |Step(s, t, a).queues| == |s.queues|
  {
    if u != t {
      OthersStay(s, t, a, u);
    }
  }

  lemma StepKeepsListOk<T>(s: State<T>, t: Tid, a: Action<T>, l: WaitList)
    requires CanStep(s, t, a) && ListOk(s, l)
    ensures ListOk(Step(s, t, a), l)
  {
    ListsStay(s, t, a, l);
    AddedIsDistinct(Waiters(s, l), t);
    RemovedIsDistinct(Waiters(s, l), t);
    forall u | u in Removed(Waiters(s, l), t)
      ensures u in Waiters(s, l)
    {
      RemovedKeepsOthers(Waiters(s, l), t, u);
    }
  }

  lemma StepKeepsBasic<T>(s: State<T>, t: Tid, a: Action<T>)
    requires CanStep(s, t, a) && Basic(s)
    ensures Basic(Step(s, t, a))
  {
    var s' := Step(s, t, a);
    forall u | 0 <= u < |s'.threads|
      ensures ThreadOk(s'.threads[u], |s'.queues|)
    {
      StepKeepsThreadOk(s, t, a, u);
    }
    forall q | 0 <= q < |s'.queues|
      ensures WellFormed(s'.queues[q].channel)
    {
      ChannelsStay(s, t, a, q);
      if a.Operate? && a.queue == q {
        NextKeepsWellFormed(s.queues[q].channel, a.event, s'.queues[q].channel);
      }
    }
    forall l
      ensures ListOk(s', l)
    {
      StepKeepsListOk(s, t, a, l);
    }
  }

  // ---------------------------------------------------------------------------------------------
  // Registrations and wakeups of one thread across one step.

  /** Another thread's place on a list moves at most into the vector of the waker that took the list. */
  lemma PlaceKept<T>(s: State<T>, t: Tid, a: Action<T>, u: Tid, l: WaitList)
    requires CanStep(s, t, a) && u != t && u in Waiters(s, l)
    ensures u in Waiters(Step(s, t, a), l) || (s.threads[t].pc == WakeTake(l) && Holds(Step(s, t, a), t, u, l))
  {
    ListsStay(s, t, a, l);
    RemovedKeepsOthers(Waiters(s, l), t, u);
  }

  /** A waker lets go of a thread only by unparking it, which it can only do to one that is not checking. */
  lemma HoldKept<T>(s: State<T>, t: Tid, a: Action<T>, w: Tid, u: Tid, l: WaitList)
    requires CanStep(s, t, a) && Holds(s, w, u, l)
    ensures Holds(Step(s, t, a), w, u, l)
         || (w == t && u < |s.threads| && s.threads[u].state != Blocking && Step(s, t, a).threads[u].state == Running)
  {
    if w != t {
      OthersStay(s, t, a, w);
    }
  }

  lemma StepKeepsRegistration<T>(s: State<T>, t: Tid, a: Action<T>, u: Tid, j: nat)
    requires CanStep(s, t, a) && Basic(s) && RegistrationKept(s, u, j)
    ensures RegistrationKept(Step(s, t, a), u, j)
  {
    var s' := Step(s, t, a);
    if u < |s'.threads| && Registered(s'.threads[u], j) {
      assert ThreadOk(s.threads[u], |s.queues|);
      var l := ListOf(s'.threads[u].pc.blockers[j]);
      if u != t {
        OthersStay(s, t, a, u);
        if u in Waiters(s, l) {
          PlaceKept(s, t, a, u, l);
        } else {
          var w :| Holds(s, w, u, l);
          HoldKept(s, t, a, w, u, l);
        }
      } else {
        OwnRegistration(s, t, a, j);
      }
    }
  }

  /** The acting thread registers where it says it does, and its earlier registrations are as safe as anybody's. */
  lemma OwnRegistration<T>(s: State<T>, t: Tid, a: Action<T>, j: nat)
    requires CanStep(s, t, a) && Basic(s) && RegistrationKept(s, t, j)
    requires Registered(Step(s, t, a).threads[t], j)
    ensures OnListOrHeld(Step(s, t, a), t, ListOf(Step(s, t, a).threads[t].pc.blockers[j]))
  {
    var s' := Step(s, t, a);
    assert ThreadOk(s.threads[t], |s.queues|);
    var l := ListOf(s'.threads[t].pc.blockers[j]);
    ListsStay(s, t, a, l);
    if !Registered(s.threads[t], j) {
      assert s.threads[t].pc.Register? && j == s.threads[t].pc.i;
      assert t in Waiters(s', l);
    } else if t in Waiters(s, l) {
      assert t in Waiters(s', l);
    } else {
      var w :| Holds(s, w, t, l);
      HoldKept(s, t, a, w, t, l);
    }
  }

  /** A pending wakeup stays pending until the thread is unparked. */
  lemma PendingKept<T>(s: State<T>, t: Tid, a: Action<T>, u: Tid, l: WaitList)
    requires CanStep(s, t, a) && WakeupPending(s, u, l)
    requires u < |s.threads| && (u == t ==> IsChecking(s.threads[t].pc) && !s.threads[t].pc.Deregister?)
    ensures WakeupPending(Step(s, t, a), u, l)
         || (s.threads[u].state != Blocking && Step(s, t, a).threads[u].state == Running)
  {
    var s' := Step(s, t, a);
    if w :| Holds(s, w, u, l) {
      HoldKept(s, t, a, w, u, l);
    } else {
      var w :| WillTake(s, w, l);
      if u != t {
        PlaceKept(s, t, a, u, l);
      } else {
        ListsStay(s, t, a, l);
      }
      if w != t {
        OthersStay(s, t, a, w);
        assert WillTake(s', w, l);
      }
    }
  }

  /** A blocker that becomes ready under a waiting thread is announced by the thread that made it so. */
  lemma NewlyReady<T>(s: State<T>, t: Tid, a: Action<T>, u: Tid, b: Blocker)
    requires CanStep(s, t, a) && Basic(s) && !FreesRoomSilently(s, a)
    requires OnListOrHeld(s, u, ListOf(b)) && !ShouldTry(s, b) && ShouldTry(Step(s, t, a), b)
    ensures WakeupPending(Step(s, t, a), u, ListOf(b))
  {
    var s', l := Step(s, t, a), ListOf(b);
    ChannelsStay(s, t, a, b.queue);
    assert a.Operate? && a.queue == b.queue;
    ReadinessIsAnnounced(s.queues[b.queue].channel, a.event, s'.queues[b.queue].channel, b.interest);
    assert WillTake(s', t, l);
    ListsStay(s, t, a, l);
    if u !in Waiters(s, l) {
      var w :| Holds(s, w, u, l);
      HoldKept(s, t, a, w, u, l);
    }
  }

  /** A blocker found not ready stays so until a queue operation; a thread that checked it still waits on it. */
  lemma CheckedBefore<T>(s: State<T>, t: Tid, a: Action<T>, u: Tid, j: nat)
    requires CanStep(s, t, a) && u < |s.threads| && ThreadOk(s.threads[u], |s.queues|)
    requires Checked(Step(s, t, a).threads[u], j)
    requires ShouldTry(Step(s, t, a), Step(s, t, a).threads[u].pc.blockers[j])
    ensures Registered(s.threads[u], j)
    ensures s.threads[u].pc.blockers[j] == Step(s, t, a).threads[u].pc.blockers[j]
    ensures ShouldTry(s, s.threads[u].pc.blockers[j]) ==> Checked(s.threads[u], j)
    ensures u == t ==> IsChecking(s.threads[t].pc) && !s.threads[t].pc.Deregister?
  {
    if u != t {
      OthersStay(s, t, a, u);
    }
  }

  /** Across one step, a thread that waits on a ready blocker has a wakeup on the way, unless it was unparked. */
  lemma ReadyMeansPending<T>(s: State<T>, t: Tid, a: Action<T>, u: Tid, b: Blocker)
    requires CanStep(s, t, a) && Basic(s) && !FreesRoomSilently(s, a) && u < |s.threads|
    requires OnListOrHeld(s, u, ListOf(b)) && (ShouldTry(s, b) ==> WakeupPending(s, u, ListOf(b)))
    requires u == t ==> IsChecking(s.threads[t].pc) && !s.threads[t].pc.Deregister?
    requires ShouldTry(Step(s, t, a), b)
    ensures WakeupPending(Step(s, t, a), u, ListOf(b))
         || (s.threads[u].state != Blocking && Step(s, t, a).threads[u].state == Running)
  {
    if ShouldTry(s, b) {
      PendingKept(s, t, a, u, ListOf(b));
    } else {
      NewlyReady(s, t, a, u, b);
    }
  }

  lemma StepKeepsWakeup<T>(s: State<T>, t: Tid, a: Action<T>, u: Tid, j: nat)
    requires CanStep(s, t, a) && Basic(s) && !FreesRoomSilently(s, a)
    requires RegistrationKept(s, u, j) && WakeupKept(s, u, j)
    ensures WakeupKept(Step(s, t, a), u, j)
  {
    var s' := Step(s, t, a);
    if u < |s.threads| && Checked(s'.threads[u], j) && ShouldTry(s', s'.threads[u].pc.blockers[j]) {
      StepKeepsThreadOk(s, t, a, u);
      CheckedBefore(s, t, a, u, j);
      ReadyMeansPending(s, t, a, u, s.threads[u].pc.blockers[j]);
    }
  }

  // ---------------------------------------------------------------------------------------------
  // Main results.

  lemma InitIsOk<T>(s: State<T>)
    requires Init(s)
    ensures Inv(s)
  {
  }

  /**
   In every run, dropped readers or not: a thread that registered with a blocker and still waits is on that
   blocker's list, or in the vector of a waker that took the list.
   */
  lemma {:induction false} RegistrationsAreKept<T>(ss: seq<State<T>>, ls: seq<Label<T>>)
    requires Behavior(ss, ls) && Init(ss[0])
    ensures Basic(ss[|ls|]) && forall u, j :: RegistrationKept(ss[|ls|], u, j)
    decreases |ls|
  {
    if ls == [] {
      InitIsOk(ss[0]);
    } else {
      var n := |ls| - 1;
      assert Moves(ss[n], ls[n], ss[n + 1]);
      RegistrationsAreKept(ss[..n + 1], ls[..n]);
      var s, s' := ss[n], ss[n + 1];
      StepKeepsBasic(s, ls[n].thread, ls[n].action);
      forall u, j
        ensures RegistrationKept(s', u, j)
      {
        assert RegistrationKept(s, u, j);
        StepKeepsRegistration(s, ls[n].thread, ls[n].action, u, j);
      }
    }
  }

  /** `u` found queue `q` full as its `j`-th blocker and still waits, with nobody on the way to wake it. */
  ghost predicate WaitsUnnoticed<T>(s: State<T>, u: Tid, j: nat, q: nat) {
    && u < |s.threads| && Checked(s.threads[u], j) && s.threads[u].pc.blockers[j] == Blocker(q, ToSend)
    && !WakeupPending(s, u, WaitList(q, PutList))
  }

  /** A dropped reader frees a full queue that somebody waits on unnoticed. */
  ghost predicate LosesAWakeup<T>(s: State<T>, a: Action<T>) {
    FreesRoomSilently(s, a) && exists u: nat, j: nat :: WaitsUnnoticed(s, u, j, a.queue)
  }

  /** Dropping a reader moves no thread and no list, and makes at most its own queue's senders ready. */
  lemma DetachStays<T>(s: State<T>, t: Tid, a: Action<T>, b: Blocker)
    requires CanStep(s, t, a) && Basic(s) && a.Operate? && a.event.IsDetach()
    ensures Step(s, t, a).threads == s.threads
    ensures forall l: WaitList :: Waiters(Step(s, t, a), l) == Waiters(s, l)
    ensures !ShouldTry(s, b) && ShouldTry(Step(s, t, a), b) ==> b == Blocker(a.queue, ToSend)
  {
    var s' := Step(s, t, a);
    forall l: WaitList
      ensures Waiters(s', l) == Waiters(s, l)
    {
      ListsStay(s, t, a, l);
    }
    if !ShouldTry(s, b) && ShouldTry(s', b) {
      ChannelsStay(s, t, a, b.queue);
      ReadinessIsAnnounced(s.queues[b.queue].channel, a.event, s'.queues[b.queue].channel, b.interest);
    }
  }

  lemma DetachKeepsPending<T>(s: State<T>, t: Tid, a: Action<T>, u: Tid, l: WaitList)
    requires CanStep(s, t, a) && Basic(s) && a.Operate? && a.event.IsDetach()
    ensures WakeupPending(Step(s, t, a), u, l) <==> WakeupPending(s, u, l)
  {
    var s' := Step(s, t, a);
    DetachStays(s, t, a, Blocker(0, ToSend));
    assert forall w :: WillTake(s', w, l) <==> WillTake(s, w, l);
    assert forall w :: Holds(s', w, u, l) <==> Holds(s, w, u, l);
  }

  /** The wakeups of one thread survive any step that frees no room it waits for unnoticed. */
  lemma StepKeepsNoticedWakeup<T>(s: State<T>, t: Tid, a: Action<T>, u: Tid, j: nat)
    requires CanStep(s, t, a) && Basic(s) && !(FreesRoomSilently(s, a) && WaitsUnnoticed(s, u, j, a.queue))
    requires RegistrationKept(s, u, j) && WakeupKept(s, u, j)
    ensures WakeupKept(Step(s, t, a), u, j)
  {
    if !FreesRoomSilently(s, a) {
      StepKeepsWakeup(s, t, a, u, j);
    } else if u < |s.threads| && Checked(s.threads[u], j) {
      var b := s.threads[u].pc.blockers[j];
      DetachStays(s, t, a, b);
      DetachKeepsPending(s, t, a, u, ListOf(b));
    } else {
      DetachStays(s, t, a, Blocker(0, ToSend));
    }
  }

  /**
   A step keeps the whole invariant if and only if it is not a dropped reader that frees a full queue on which
   somebody waits unnoticed: parked, or past its check of that queue and not parked yet.
   */
  lemma StepKeepsInvExactly<T>(s: State<T>, t: Tid, a: Action<T>)
    requires CanStep(s, t, a) && Inv(s)
    ensures Inv(Step(s, t, a)) <==> !LosesAWakeup(s, a)
  {
    var s' := Step(s, t, a);
    if LosesAWakeup(s, a) {
      var u: nat, j: nat :| WaitsUnnoticed(s, u, j, a.queue);
      DetachStays(s, t, a, Blocker(a.queue, ToSend));
      DetachKeepsPending(s, t, a, u, WaitList(a.queue, PutList));
      ChannelsStay(s, t, a, a.queue);
      assert !WakeupKept(s', u, j);
    } else {
      StepKeepsBasic(s, t, a);
      forall u, j
        ensures RegistrationKept(s', u, j) && WakeupKept(s', u, j)
      {
        assert RegistrationKept(s, u, j) && WakeupKept(s, u, j);
        StepKeepsRegistration(s, t, a, u, j);
        StepKeepsNoticedWakeup(s, t, a, u, j);
      }
    }
  }

  ghost predicate NoStepLosesAWakeup<T>(ss: seq<State<T>>, ls: seq<Label<T>>)
    requires |ls| <= |ss|
  {
    forall i :: 0 <= i < |ls| ==> !LosesAWakeup(ss[i], ls[i].action)
  }

  lemma {:induction false} BehaviorKeepsInv<T>(ss: seq<State<T>>, ls: seq<Label<T>>)
    requires Behavior(ss, ls) && Init(ss[0]) && NoStepLosesAWakeup(ss, ls)
    ensures Inv(ss[|ls|])
    decreases |ls|
  {
    if ls == [] {
      InitIsOk(ss[0]);
    } else {
      var n := |ls| - 1;
      assert Moves(ss[n], ls[n], ss[n + 1]);
      assert !LosesAWakeup(ss[n], ls[n].action);
      BehaviorKeepsInv(ss[..n + 1], ls[..n]);
      StepKeepsInvExactly(ss[n], ls[n].thread, ls[n].action);
    }
  }

  /** A run keeps the invariant throughout if and only if none of its steps loses a wakeup. */
  lemma RunKeepsInvExactly<T>(ss: seq<State<T>>, ls: seq<Label<T>>)
    requires Behavior(ss, ls) && Init(ss[0])
    ensures (forall k :: 0 <= k <= |ls| ==> Inv(ss[k])) <==> NoStepLosesAWakeup(ss, ls)
  {
    if NoStepLosesAWakeup(ss, ls) {
      forall k | 0 <= k <= |ls|
        ensures Inv(ss[k])
      {
        BehaviorKeepsInv(ss[..k + 1], ls[..k]);
      }
    } else {
      var i :| 0 <= i < |ls| && LosesAWakeup(ss[i], ls[i].action);
      assert Moves(ss[i], ls[i], ss[i + 1]);
      if Inv(ss[i]) {
        StepKeepsInvExactly(ss[i], ls[i].thread, ls[i].action);
      }
    }
  }

  /** `u` is parked in `block_on` on its `j`-th blocker, among others, and that blocker is ready. */
  predicate SleepsOnReady<T>(s: State<T>, u: Tid, j: nat) {
    && u < |s.threads| && s.threads[u].state == Blocked && s.threads[u].pc.Parked?
    && j < |s.threads[u].pc.blockers| && ShouldTry(s, s.threads[u].pc.blockers[j])
  }

  /**
   No wakeup is lost: a thread parked in `block_on` while one of its blockers is ready has somebody on the way
   to wake it. Either a thread that changed the queue has yet to take the list the sleeper is on, or a waker
   holds the sleeper in the list it took.
   */
  ghost predicate NoLostWakeup<T>(s: State<T>) {
    forall u: nat, j: nat :: SleepsOnReady(s, u, j) ==> WakeupPending(s, u, ListOf(s.threads[u].pc.blockers[j]))
  }

  /** It holds after every run in which no step loses a wakeup. */
  lemma NoWakeupIsLost<T>(ss: seq<State<T>>, ls: seq<Label<T>>)
    requires Behavior(ss, ls) && Init(ss[0]) && NoStepLosesAWakeup(ss, ls)
    ensures NoLostWakeup(ss[|ls|])
  {
    BehaviorKeepsInv(ss, ls);
    var s := ss[|ls|];
    forall u: nat, j: nat | SleepsOnReady(s, u, j)
      ensures WakeupPending(s, u, ListOf(s.threads[u].pc.blockers[j]))
    {
      assert WakeupKept(s, u, j);
    }
  }

  /** `u` sleeps although its `j`-th blocker is ready, and nobody is on the way to wake it. */
  ghost predicate Oversleeps<T>(s: State<T>, u: Tid, j: nat) {
    SleepsOnReady(s, u, j) && !WakeupPending(s, u, ListOf(s.threads[u].pc.blockers[j]))
  }

  lemma OversleepingIsALoss<T>(s: State<T>, u: Tid, j: nat)
    requires Oversleeps(s, u, j)
    ensures !NoLostWakeup(s)
  {
    assert SleepsOnReady(s, u, j);
  }

  /** What a lost wakeup leads to: a thread past its last check sleeps on, after its own next step at the latest. */
  lemma LossIsASleeper<T>(s: State<T>, u: Tid, j: nat)
    requires Basic(s) && !WakeupKept(s, u, j) && (s.threads[u].pc.Park? || s.threads[u].pc.Parked?)
    ensures s.threads[u].pc.Parked? ==> Oversleeps(s, u, j)
    ensures s.threads[u].pc.Park? ==> CanStep(s, u, Continue) && Oversleeps(Step(s, u, Continue), u, j)
  {
    var l := ListOf(s.threads[u].pc.blockers[j]);
    if s.threads[u].pc.Park? {
      assert ThreadOk(s.threads[u], |s.queues|);
      var s' := Step(s, u, Continue);
      assert SleepsOnReady(s', u, j);
      ListsStay(s, u, Continue, l);
      assert forall w :: WillTake(s', w, l) ==> WillTake(s, w, l);
      assert forall w :: Holds(s', w, u, l) ==> Holds(s, w, u, l);
    }
  }

  /**
   The early return of `block_on` takes the thread off one list, that of the blocker that was ready. The design says
   it takes the thread off all the lists it is on by then, which it does only when that is the same list.
   */
  lemma DeregistersFromOneList<T>(s: State<T>, t: Tid, l: WaitList)
    requires CanStep(s, t, Continue) && Basic(s) && s.threads[t].pc.Deregister?
    requires s.threads[t].pc.i < |s.threads[t].pc.blockers|
    ensures t in Waiters(Step(s, t, Continue), l)
       <==> t in Waiters(s, l) && l != ListOf(s.threads[t].pc.blockers[s.threads[t].pc.i])
  {
    assert ThreadOk(s.threads[t], |s.queues|);
    assert ListOk(s, l);
    RemovedIsDistinct(Waiters(s, l), t);
  }
}
