/**
 What the operations on a channel come to, in terms of the history and of what each reader still has to see. Together
 with the laws on runs in `QueueSpec` this fixes every event without reference to how the channel computes it.
 */
module QueueLaws {
  import opened Wrappers
  import opened QueueSpec

  /** What strong observer `j` has still to be shown. */
  function PendingFor<T>(c: Channel<T>, j: nat): seq<T> {
    if j in c.observers && c.observers[j] <= c.Tail() then c.history[c.observers[j]..] else []
  }

  /** A reader for whom one more value would fill the ring. */
  predicate IsFullFor<T>(c: Channel<T>, pending: seq<T>) {
    |pending| + 1 == c.capacity
  }

  // ---------------------------------------------------------------------------------------------
  // Attempts and readiness.

  /** A handle is ready exactly when its reader has something pending, or when no reader would be overtaken. */
  lemma ReadyMeans<T>(c: Channel<T>)
    requires WellFormed(c)
    ensures Ready(c, ToReceive) <==> Pending(c) != []
    ensures forall j :: Ready(c, ToObserve(j)) <==> PendingFor(c, j) != []
    ensures forall seen: nat :: Ready(c, ToSeeNews(seen)) <==> seen < |c.history|
    ensures Ready(c, ToSend)
       <==> (c.receivers.Attached? ==> |Pending(c)| + 1 < c.capacity)
            && (forall j :: j in c.observers ==> |PendingFor(c, j)| + 1 < c.capacity)
  {
    forall j | j in c.observers
      ensures |PendingFor(c, j)| == c.Tail() - c.observers[j]
    {
    }
  }

  /** An attempt succeeds when its handle is ready, and fails when it is not. */
  lemma AttemptsMatchReadiness<T>(c: Channel<T>, e: Event<T>, c': Channel<T>)
    requires WellFormed(c) && Next(c, e, c')
    ensures e.Sent? ==> Ready(c, ToSend)
    ensures e.SendRefused? ==> !Ready(c, ToSend)
    ensures e.Received? ==> Ready(c, ToReceive)
    ensures e.ReceiveEmpty? ==> !Ready(c, ToReceive)
    ensures e.Observed? ==> Ready(c, ToObserve(e.slot))
    ensures e.ObserveEmpty? ==> !Ready(c, ToObserve(e.slot))
  {
  }

  /** A send is refused only on account of a reader with a whole window pending, and accepted if there is none. */
  lemma SendMeans<T>(c: Channel<T>, e: Event<T>, c': Channel<T>)
    requires WellFormed(c) && Next(c, e, c')
    ensures e.Sent? ==> c' == c.(history := c.history + [e.value])
    ensures e.Sent? ==> !(c.receivers.Attached? && IsFullFor(c, Pending(c)))
                        && forall j :: j in c.observers ==> !IsFullFor(c, PendingFor(c, j))
    ensures e.SendRefused? ==> c' == c
    ensures e.SendRefused? ==> (c.receivers.Attached? && IsFullFor(c, Pending(c)))
                               || exists j :: j in c.observers && IsFullFor(c, PendingFor(c, j))
  {
    forall j | j in c.observers
      ensures |PendingFor(c, j)| == c.Tail() - c.observers[j]
    {
    }
  }

  /** A receive hands out the first pending value, and reports an empty queue only when nothing is pending. */
  lemma ReceiveMeans<T>(c: Channel<T>, e: Event<T>, c': Channel<T>)
    requires WellFormed(c) && Next(c, e, c')
    ensures e.Received? || e.ReceiveEmpty? ==> c.receivers.Attached?
    ensures e.Received? ==> Pending(c) == [e.value] + Pending(c') && c' == c.(receivers := c'.receivers)
    ensures e.Received? ==> c'.receivers.Attached? && c'.receivers.count == c.receivers.count
    ensures e.ReceiveEmpty? ==> Pending(c) == [] && c' == c
  {
  }

  /** The same for one strong observer. No other reader is touched. */
  lemma ObserveMeans<T>(c: Channel<T>, e: Event<T>, c': Channel<T>)
    requires WellFormed(c) && Next(c, e, c')
    ensures e.Observed? || e.ObserveEmpty? || e.ObserveContended? ==> e.slot in c.observers
    ensures e.Observed? ==> PendingFor(c, e.slot) == [e.value] + PendingFor(c', e.slot)
    ensures e.Observed? ==> c' == c.(observers := c'.observers) && c'.observers.Keys == c.observers.Keys
    ensures e.Observed? ==> forall j :: j in c.observers && j != e.slot ==> c'.observers[j] == c.observers[j]
    ensures e.ObserveEmpty? ==> PendingFor(c, e.slot) == [] && c' == c
    ensures e.ObserveContended? || e.WeakObserved? ==> c' == c
  {
  }

  /** Readers come with nothing pending, unless they share a cursor, and go without touching the others. */
  lemma AttachMeans<T>(c: Channel<T>, e: Event<T>, c': Channel<T>)
    requires WellFormed(c) && Next(c, e, c')
    ensures e.ReceiverAttached? || e.ReceiverDropped? ==> c' == c.(receivers := c'.receivers)
    ensures e.ReceiverAttached? ==> c'.receivers.Attached? && Pending(c') == Pending(c)
    ensures e.ReceiverDropped? ==> c.receivers.Attached? && (c'.receivers.Attached? ==> Pending(c') == Pending(c))
    ensures e.ObserverAttached? ==> c.observable && e.slot < c.observerSlots && e.slot !in c.observers
    ensures e.ObserverAttached? ==> PendingFor(c', e.slot) == [] && c'.observers.Keys == c.observers.Keys + {e.slot}
    ensures e.ObserverAttached? ==> forall j :: j in c.observers ==> c'.observers[j] == c.observers[j]
    ensures e.ObserverAttachFailed? ==>
              c' == c && c.observable && forall j: nat :: j < c.observerSlots ==> j in c.observers
    ensures e.ObserverDropped? ==> e.slot in c.observers && c'.observers == c.observers - {e.slot}
    ensures e.ObserverAttached? || e.ObserverDropped? ==> c' == c.(observers := c'.observers)
  {
  }

  /** Readers are woken by each value that comes in, senders by each value that a reader moves past, and that is all. */
  lemma WakesExactly<T>(c: Channel<T>, e: Event<T>, c': Channel<T>)
    requires WellFormed(c) && Next(c, e, c')
    ensures Wakes(e) == Some(ReadList) <==> |c'.history| > |c.history|
    ensures Wakes(e) == Some(PutList) <==>
              || (c'.receivers.Attached? && c.receivers.Attached? && |Pending(c')| < |Pending(c)|)
              || exists j :: j in c.observers && j in c'.observers && |PendingFor(c', j)| < |PendingFor(c, j)|
  {
    if e.Observed? {
      assert |PendingFor(c', e.slot)| < |PendingFor(c, e.slot)|;
    }
  }

  // ---------------------------------------------------------------------------------------------
  // On runs.

  /** A weak observer that has seen the tail where the run starts is ready at its end iff something was accepted. */
  lemma NewsIsWhatWasAccepted<T>(cs: seq<Channel<T>>, es: seq<Event<T>>, seen: nat)
    requires Run(cs, es) && WellFormed(cs[0]) && |cs[0].history| == seen
    ensures Ready(cs[|es|], ToSeeNews(seen)) <==> Accepted(es) != []
  {
    RunKeepsWellFormed(cs, es);
  }

  function AttachesIn<T>(es: seq<Event<T>>): nat {
    if es == [] then 0 else AttachesIn(es[..|es| - 1]) + if es[|es| - 1].ReceiverAttached? then 1 else 0
  }

  function DropsIn<T>(es: seq<Event<T>>): nat {
    if es == [] then 0 else DropsIn(es[..|es| - 1]) + if es[|es| - 1].ReceiverDropped? then 1 else 0
  }

  function ReceiverCount<T>(c: Channel<T>): nat {
    if c.receivers.Attached? then c.receivers.count else 0
  }

  lemma NextCounts<T>(c: Channel<T>, e: Event<T>, c': Channel<T>)
    requires WellFormed(c) && Next(c, e, c')
    ensures ReceiverCount(c')
         == ReceiverCount(c) + (if e.ReceiverAttached? then 1 else 0) - (if e.ReceiverDropped? then 1 else 0)
    ensures WellFormed(c')
  {
  }

  /** The receivers are those attached and not dropped: the shared cursor goes with the last of them, not before. */
  lemma {:induction false} ReceiversAreCounted<T>(cs: seq<Channel<T>>, es: seq<Event<T>>)
    requires Run(cs, es) && WellFormed(cs[0])
    ensures ReceiverCount(cs[|es|]) == ReceiverCount(cs[0]) + AttachesIn(es) - DropsIn(es)
    ensures cs[|es|].receivers.Attached? <==> ReceiverCount(cs[|es|]) > 0
    decreases |es|
  {
    if es != [] {
      var n := |es| - 1;
      RunPrefix(cs, es, n);
      RunKeepsWellFormed(cs[..n + 1], es[..n]);
      ReceiversAreCounted(cs[..n + 1], es[..n]);
      NextCounts(cs[n], es[n], cs[n + 1]);
    }
  }

  /** Slot `j` is live after the events, if it was live or not before them. */
  function IsLiveAfter<T>(es: seq<Event<T>>, j: nat, before: bool): bool {
    if es == [] then before
    else
      var last := es[|es| - 1];
      if last.ObserverAttached? && last.slot == j then true
      else if last.ObserverDropped? && last.slot == j then false
      else IsLiveAfter(es[..|es| - 1], j, before)
  }

  lemma NextLives<T>(c: Channel<T>, e: Event<T>, c': Channel<T>, j: nat)
    requires Next(c, e, c')
    ensures j in c'.observers <==> if e.ObserverAttached? && e.slot == j then true
                                   else if e.ObserverDropped? && e.slot == j then false
                                   else j in c.observers
    ensures c'.capacity == c.capacity && c'.observerSlots == c.observerSlots && c'.observable == c.observable
  {
  }

  /** The live strong observers are those attached and not dropped since; size, slots and variant never change. */
  lemma {:induction false} LiveObserversAreTheAttached<T>(cs: seq<Channel<T>>, es: seq<Event<T>>, j: nat)
    requires Run(cs, es)
    ensures j in cs[|es|].observers <==> IsLiveAfter(es, j, j in cs[0].observers)
    ensures cs[|es|].capacity == cs[0].capacity && cs[|es|].observerSlots == cs[0].observerSlots
    ensures cs[|es|].observable == cs[0].observable
    decreases |es|
  {
    if es != [] {
      var n := |es| - 1;
      RunPrefix(cs, es, n);
      LiveObserversAreTheAttached(cs[..n + 1], es[..n], j);
      NextLives(cs[n], es[n], cs[n + 1], j);
    }
  }
}
