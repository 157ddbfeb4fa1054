/**
 What a queue means, with no ring buffer in sight: an unbounded `history` of every value ever
 accepted, one shared cursor for the receivers and one cursor for each strong observer.

 An `Event` is one lock-protected operation together with its result. `Enabled` says in which
 channels an operation may have that result, and `Apply` says what it leaves behind.
 */
module QueueSpec {
  import opened Wrappers

  /** The receivers share one cursor, which exists only while at least one of them is attached. */
  datatype Receivers = Detached | Attached(count: nat, cursor: nat)

  datatype Channel<T> = Channel(
    capacity: nat,            // number of slots in the ring
    observerSlots: nat,       // number of strong observers supported
    observable: bool,         // values are cloned out and stay visible to observers
    history: seq<T>,          // every value ever accepted, oldest first
    receivers: Receivers,
    observers: map<nat, nat>  // live strong observer slots and their cursors
  )
  {
    function Tail(): nat { |history| }
  }

  datatype Event<T> =
    | Sent(value: T)
    | SendRefused(value: T)
    | Received(value: T)
    | ReceiveEmpty
    | Observed(slot: nat, value: T)
    | ObserveEmpty(slot: nat)
    | ObserveContended(slot: nat)  // the queue lock was taken, so nothing was tried
    | ReceiverAttached
    | ReceiverDropped
    | ObserverAttached(slot: nat)
    | ObserverAttachFailed
    | ObserverDropped(slot: nat)
    | WeakObserved(index: nat, result: Option<T>)
  {
    predicate IsDetach() { ReceiverDropped? || ObserverDropped? }
  }

  /** A reader at `cursor` has not been overtaken: fewer than `capacity` values wait for it. */
  predicate InWindow(cursor: nat, tail: nat, capacity: nat) {
    cursor <= tail < cursor + capacity
  }

  ghost predicate WellFormed<T>(c: Channel<T>) {
    && 1 <= c.capacity
    && (c.receivers.Attached? ==> 0 < c.receivers.count && InWindow(c.receivers.cursor, c.Tail(), c.capacity))
    && (forall j :: j in c.observers ==> j < c.observerSlots && InWindow(c.observers[j], c.Tail(), c.capacity))
  }

  /** One more value would still leave every attached reader fewer than `capacity` behind. */
  predicate HasRoom<T>(c: Channel<T>) {
    && (c.receivers.Attached? ==> InWindow(c.receivers.cursor, c.Tail() + 1, c.capacity))
    && (forall j :: j in c.observers ==> InWindow(c.observers[j], c.Tail() + 1, c.capacity))
  }

  /** What a weak observer sees at index `i`. The last case is the one the source's guard lets through. */
  function WeakView<T>(history: seq<T>, capacity: nat, i: nat): Option<T>
    requires 1 <= capacity
  {
    if i < |history| - capacity || |history| < i then None
    else if i < |history| then Some(history[i])
    else if |history| < capacity then None
    else Some(history[|history| - capacity])
  }

  predicate Enabled<T(==)>(c: Channel<T>, e: Event<T>) {
    match e
    case Sent(_) => HasRoom(c)
    case SendRefused(_) => !HasRoom(c)
    case Received(v) =>
      c.receivers.Attached? && c.receivers.cursor < c.Tail() && v == c.history[c.receivers.cursor]
    case ReceiveEmpty => c.receivers.Attached? && c.receivers.cursor == c.Tail()
    case Observed(j, v) => j in c.observers && c.observers[j] < c.Tail() && v == c.history[c.observers[j]]
    case ObserveEmpty(j) => j in c.observers && c.observers[j] == c.Tail()
    case ObserveContended(j) => j in c.observers
    case ReceiverAttached => true
    case ReceiverDropped => c.receivers.Attached?
    case ObserverAttached(j) => c.observable && j < c.observerSlots && j !in c.observers
    case ObserverAttachFailed => c.observable && forall j: nat :: j < c.observerSlots ==> j in c.observers
    case ObserverDropped(j) => j in c.observers
    case WeakObserved(i, r) => c.observable && 1 <= c.capacity && r == WeakView(c.history, c.capacity, i)
  }

  function Apply<T>(c: Channel<T>, e: Event<T>): Channel<T> {
    match e
    case Sent(v) => c.(history := c.history + [v])
    case Received(_) =>
      if c.receivers.Attached? then c.(receivers := c.receivers.(cursor := c.receivers.cursor + 1)) else c
    case Observed(j, _) =>
      if j in c.observers then c.(observers := c.observers[j := c.observers[j] + 1]) else c
    case ReceiverAttached =>
      c.(receivers := match c.receivers
                      case Detached => Attached(1, c.Tail())
                      case Attached(n, cursor) => Attached(n + 1, cursor))
    case ReceiverDropped =>
      c.(receivers := match c.receivers
                      case Detached => Detached
                      case Attached(n, cursor) => if n <= 1 then Detached else Attached(n - 1, cursor))
    case ObserverAttached(j) => c.(observers := c.observers[j := c.Tail()])
    case ObserverDropped(j) => c.(observers := c.observers - {j})
    case _ => c
  }

  ghost predicate Next<T>(c: Channel<T>, e: Event<T>, c': Channel<T>) {
    Enabled(c, e) && c' == Apply(c, e)
  }

  // ---------------------------------------------------------------------------------------------
  // Runs: any interleaving of operations by any number of handles, in the order they held the lock.

  ghost predicate Run<T>(cs: seq<Channel<T>>, es: seq<Event<T>>) {
    && |cs| == |es| + 1
    && forall i :: 0 <= i < |es| ==> Next(cs[i], es[i], cs[i + 1])
  }

  function AcceptedBy<T>(e: Event<T>): seq<T> { if e.Sent? then [e.value] else [] }

  function TakenBy<T>(e: Event<T>): seq<T> { if e.Received? then [e.value] else [] }

  function ShownBy<T>(e: Event<T>, j: nat): seq<T> { if e.Observed? && e.slot == j then [e.value] else [] }

  /** The values that senders got accepted. */
  function Accepted<T>(es: seq<Event<T>>): seq<T> {
    if es == [] then [] else Accepted(es[..|es| - 1]) + AcceptedBy(es[|es| - 1])
  }

  /** The values handed to all the receivers together. */
  function Taken<T>(es: seq<Event<T>>): seq<T> {
    if es == [] then [] else Taken(es[..|es| - 1]) + TakenBy(es[|es| - 1])
  }

  /** The values shown to strong observer `j`. */
  function ShownTo<T>(es: seq<Event<T>>, j: nat): seq<T> {
    if es == [] then [] else ShownTo(es[..|es| - 1], j) + ShownBy(es[|es| - 1], j)
  }

  lemma NextKeepsWellFormed<T>(c: Channel<T>, e: Event<T>, c': Channel<T>)
    requires WellFormed(c) && Next(c, e, c')
    ensures WellFormed(c')
    ensures c'.history == c.history + AcceptedBy(e)
  {
  }

  lemma NextTakes<T>(c: Channel<T>, e: Event<T>, c': Channel<T>)
    requires WellFormed(c) && Next(c, e, c') && c.receivers.Attached? && c'.receivers.Attached?
    ensures c'.receivers.cursor == c.receivers.cursor + |TakenBy(e)| <= c.Tail()
    ensures TakenBy(e) == c.history[c.receivers.cursor..c'.receivers.cursor]
  {
  }

  lemma NextShows<T>(c: Channel<T>, e: Event<T>, c': Channel<T>, j: nat)
    requires WellFormed(c) && Next(c, e, c') && j in c.observers && j in c'.observers
    ensures c'.observers[j] == c.observers[j] + |ShownBy(e, j)| <= c.Tail()
    ensures ShownBy(e, j) == c.history[c.observers[j]..c'.observers[j]]
  {
  }

  lemma RunPrefix<T>(cs: seq<Channel<T>>, es: seq<Event<T>>, n: nat)
    requires Run(cs, es) && |es| == n + 1
    ensures Run(cs[..n + 1], es[..n])
    ensures Next(cs[n], es[n], cs[n + 1])
  {
  }

  /** A run leads to a state in which no reader was overtaken, and nothing accepted was forgotten or rewritten. */
  lemma {:induction false} RunKeepsWellFormed<T>(cs: seq<Channel<T>>, es: seq<Event<T>>)
    requires Run(cs, es) && WellFormed(cs[0])
    ensures WellFormed(cs[|es|])
    ensures cs[|es|].history == cs[0].history + Accepted(es)
    decreases |es|
  {
    if es != [] {
      var n := |es| - 1;
      RunPrefix(cs, es, n);
      RunKeepsWellFormed(cs[..n + 1], es[..n]);
      NextKeepsWellFormed(cs[n], es[n], cs[n + 1]);
    }
  }

  lemma StretchesJoin<T>(h: seq<T>, more: seq<T>, a: nat, b: nat, c: nat)
    requires a <= b <= c <= |h|
    ensures h[a..b] + h[b..c] == (h + more)[a..c]
  {
  }

  lemma {:induction false} TakenIsAStretch<T>(cs: seq<Channel<T>>, es: seq<Event<T>>)
    requires Run(cs, es) && WellFormed(cs[0])
    requires forall i :: 0 <= i < |cs| ==> cs[i].receivers.Attached?
    ensures cs[0].receivers.cursor <= cs[|es|].receivers.cursor <= cs[|es|].Tail()
    ensures Taken(es) == cs[|es|].history[cs[0].receivers.cursor..cs[|es|].receivers.cursor]
    decreases |es|
  {
    if es != [] {
      var n := |es| - 1;
      RunPrefix(cs, es, n);
      RunKeepsWellFormed(cs[..n + 1], es[..n]);
      TakenIsAStretch(cs[..n + 1], es[..n]);
      NextTakes(cs[n], es[n], cs[n + 1]);
      StretchesJoin(
        cs[n].history, AcceptedBy(es[n]), cs[0].receivers.cursor, cs[n].receivers.cursor, cs[n + 1].receivers.cursor);
      NextKeepsWellFormed(cs[n], es[n], cs[n + 1]);
    }
  }

  lemma PendingSplits<T>(h: seq<T>, more: seq<T>, a: nat, b: nat)
    requires a <= |h| && a <= b <= |h + more|
    ensures (h + more)[a..b] + (h + more)[b..] == h[a..] + more
  {
  }

  /** What the next receivers will be handed. */
  function Pending<T>(c: Channel<T>): seq<T> {
    if c.receivers.Attached? && c.receivers.cursor <= c.Tail() then c.history[c.receivers.cursor..] else []
  }

  /**
   Exactly once to exactly one: while a receiver stays attached, what the receivers took, in lock
   order, followed by what is still pending, is what was pending at the start followed by what was sent.
   */
  lemma {:induction false} ExactlyOnceToOne<T>(cs: seq<Channel<T>>, es: seq<Event<T>>)
    requires Run(cs, es) && WellFormed(cs[0])
    requires forall i :: 0 <= i < |cs| ==> cs[i].receivers.Attached?
    ensures Taken(es) + Pending(cs[|es|]) == Pending(cs[0]) + Accepted(es)
    ensures |Pending(cs[|es|])| < cs[|es|].capacity
  {
    RunKeepsWellFormed(cs, es);
    TakenIsAStretch(cs, es);
    PendingSplits(cs[0].history, Accepted(es), cs[0].receivers.cursor, cs[|es|].receivers.cursor);
  }

  /**
   Exactly once to each: while strong observer `j` stays attached, what it was shown is the stretch
   of history its cursor moved over, with no gap and no repeat, whatever every other reader does.
   */
  lemma {:induction false} ExactlyOnceToEach<T>(cs: seq<Channel<T>>, es: seq<Event<T>>, j: nat)
    requires Run(cs, es) && WellFormed(cs[0])
    requires forall i :: 0 <= i < |cs| ==> j in cs[i].observers
    ensures cs[0].observers[j] <= cs[|es|].observers[j] <= cs[|es|].Tail()
    ensures ShownTo(es, j) == cs[|es|].history[cs[0].observers[j]..cs[|es|].observers[j]]
    decreases |es|
  {
    if es != [] {
      var n := |es| - 1;
      RunPrefix(cs, es, n);
      RunKeepsWellFormed(cs[..n + 1], es[..n]);
      ExactlyOnceToEach(cs[..n + 1], es[..n], j);
      NextShows(cs[n], es[n], cs[n + 1], j);
      StretchesJoin(cs[n].history, AcceptedBy(es[n]), cs[0].observers[j], cs[n].observers[j], cs[n + 1].observers[j]);
      NextKeepsWellFormed(cs[n], es[n], cs[n + 1]);
    }
  }

  // ---------------------------------------------------------------------------------------------
  // Readiness: what a blocked handle waits for, and on which wait list.

  datatype Interest =
    | ToSend
    | ToReceive
    | ToObserve(slot: nat)
    | ToSeeNews(seen: nat)  // a weak observer that has seen the tail at `seen`

  datatype ListKind = PutList | ReadList

  predicate Ready<T>(c: Channel<T>, w: Interest) {
    match w
    case ToSend => HasRoom(c)
    case ToReceive => c.receivers.Attached? && c.receivers.cursor != c.Tail()
    case ToObserve(j) => j in c.observers && c.observers[j] != c.Tail()
    case ToSeeNews(seen) => seen < c.Tail()
  }

  function WaitsOn(w: Interest): ListKind {
    if w.ToSend? then PutList else ReadList
  }

  /** The wait list that the operation wakes after it has released the queue lock. */
  function Wakes<T>(e: Event<T>): Option<ListKind> {
    match e
    case Sent(_) => Some(ReadList)
    case Received(_) => Some(PutList)
    case Observed(_, _) => Some(PutList)
    case _ => None
  }

  /**
   The contract of `Blocker`: an operation that makes a waiting handle ready wakes the list the
   handle waits on. The exception is a dropped reader, which can only make a sender ready.
   */
  lemma ReadinessIsAnnounced<T>(c: Channel<T>, e: Event<T>, c': Channel<T>, w: Interest)
    requires WellFormed(c) && Next(c, e, c')
    requires !Ready(c, w) && Ready(c', w)
    ensures Wakes(e) == Some(WaitsOn(w)) || (e.IsDetach() && w.ToSend?)
  {
    if w.ToSend? && Wakes(e) != Some(PutList) && !e.IsDetach() {
      assert forall j :: j in c.observers ==> j in c'.observers && c'.observers[j] == c.observers[j];
    }
  }
}
