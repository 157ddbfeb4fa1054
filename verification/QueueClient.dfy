/** Any sequence of operations on one table, by whatever handles, is a run of the channel it stands for. */
module QueueClient {
  import opened Wrappers
  import opened QueueSpec
  import opened QueueLaws
  import opened LockingQueue

  datatype Op<T> =
    | Send(value: T)
    | Receive
    | Observe(slot: nat, contended: bool)
    | WeakObserve(index: nat)
    | AttachReceiver
    | DropReceiver
    | AttachObserver
    | DropObserver(slot: nat)

  /** The handle that the operation needs exists, and the tail stays below the mark. */
  ghost predicate HasHandle<T>(c: Channel<T>, op: Op<T>) {
    match op
    case Send(_) => c.Tail() + 1 < USIZE_MAX
    case Receive => c.receivers.Attached?
    case DropReceiver => c.receivers.Attached?
    case Observe(j, _) => j in c.observers
    case DropObserver(j) => j in c.observers
    case AttachObserver => c.observable
    case WeakObserve(_) => c.observable
    case AttachReceiver => true
  }

  /** `e` is an outcome of operation `op`. */
  predicate IsOutcome<T(==)>(op: Op<T>, e: Event<T>) {
    match op
    case Send(v) => e == Sent(v) || e == SendRefused(v)
    case Receive => e.Received? || e.ReceiveEmpty?
    case Observe(j, contended) =>
      if contended then e == ObserveContended(j) else (e.Observed? || e.ObserveEmpty?) && e.slot == j
    case WeakObserve(i) => e.WeakObserved? && e.index == i
    case AttachReceiver => e.ReceiverAttached?
    case DropReceiver => e.ReceiverDropped?
    case AttachObserver => e.ObserverAttached? || e.ObserverAttachFailed?
    case DropObserver(j) => e == ObserverDropped(j)
  }

  ghost predicate HasOutcome<T(!new)>(c: Channel<T>, op: Op<T>) {
    exists e: Event<T> :: IsOutcome(op, e) && Enabled(c, e)
  }

  /** An operation has an outcome exactly when its handle exists: none is skipped that could have been performed. */
  lemma HandleIsEnough<T(!new)>(c: Channel<T>, op: Op<T>)
    requires WellFormed(c) && (op.Send? ==> c.Tail() + 1 < USIZE_MAX)
    ensures HasHandle(c, op) <==> HasOutcome(c, op)
  {
    match op
    case Send(v) => assert IsOutcome(op, Sent(v)) && IsOutcome(op, SendRefused(v));
    case Receive =>
      if c.receivers.Attached? {
        var e := if c.receivers.cursor < c.Tail() then Received(c.history[c.receivers.cursor]) else ReceiveEmpty;
        assert IsOutcome(op, e) && Enabled(c, e);
      }
    case Observe(j, contended) =>
      if j in c.observers {
        var e := if contended then ObserveContended(j)
                 else if c.observers[j] < c.Tail() then Observed(j, c.history[c.observers[j]]) else ObserveEmpty(j);
        assert IsOutcome(op, e) && Enabled(c, e);
      }
    case WeakObserve(i) => assert IsOutcome(op, WeakObserved(i, WeakView(c.history, c.capacity, i)));
    case AttachReceiver => assert IsOutcome<T>(op, ReceiverAttached) && Enabled(c, ReceiverAttached);
    case DropReceiver => assert IsOutcome<T>(op, ReceiverDropped);
    case AttachObserver =>
      if c.observable {
        if j: nat :| j < c.observerSlots && j !in c.observers {
          assert IsOutcome<T>(op, ObserverAttached(j)) && Enabled(c, ObserverAttached(j));
        } else {
          assert IsOutcome<T>(op, ObserverAttachFailed) && Enabled(c, ObserverAttachFailed);
        }
      }
    case DropObserver(j) => assert IsOutcome<T>(op, ObserverDropped(j));
  }

  /** What each operation does to the channel, whichever of its outcomes it has. */
  lemma OperationMeans<T>(c: Channel<T>, op: Op<T>, e: Event<T>, c': Channel<T>)
    requires WellFormed(c) && HasHandle(c, op) && IsOutcome(op, e) && Next(c, e, c')
    ensures op.Send? ==> c' == if Ready(c, ToSend) then c.(history := c.history + [op.value]) else c
    ensures op.Send? ==> (e == Sent(op.value) <==> Ready(c, ToSend))
    ensures op.Receive? ==> Pending(c) == (if e.Received? then [e.value] else []) + Pending(c')
                            && (e.Received? <==> Pending(c) != [])
    ensures op.Observe? && !op.contended ==>
              PendingFor(c, op.slot) == (if e.Observed? then [e.value] else []) + PendingFor(c', op.slot)
              && (e.Observed? <==> PendingFor(c, op.slot) != [])
    ensures op.WeakObserve? || (op.Observe? && op.contended) ==> c' == c
    ensures op.WeakObserve? ==> e == WeakObserved(op.index, WeakView(c.history, c.capacity, op.index))
    ensures op.AttachReceiver? ==> ReceiverCount(c') == ReceiverCount(c) + 1
    ensures op.DropReceiver? ==> ReceiverCount(c') == ReceiverCount(c) - 1
    ensures op.AttachObserver? && (exists j: nat :: j < c.observerSlots && j !in c.observers) ==>
              |c'.observers| == |c.observers| + 1 && c.observers.Keys <= c'.observers.Keys
    ensures op.DropObserver? ==> c'.observers == c.observers - {op.slot}
    ensures !op.Send? ==> c'.history == c.history
  {
    AttemptsMatchReadiness(c, e, c');
    ReceiveMeans(c, e, c');
    ObserveMeans(c, e, c');
    AttachMeans(c, e, c');
    if e.ObserverAttached? {
      assert |c'.observers.Keys| == |c.observers.Keys| + 1;
    }
  }

  method Perform<T(==)>(table: LockingTable<T>, op: Op<T>) returns (e: Event<T>)
    requires table.Valid() && HasHandle(table.Abs(), op)
    modifies table, table.buffer
    ensures table.Valid() && IsOutcome(op, e)
    ensures Next(old(table.Abs()), e, table.Abs())
  {
    match op
    case Send(v) =>
      var refused := table.TrySend(v);
      e := if refused.None? then Sent(v) else SendRefused(v);
    case Receive =>
      e := PerformReceive(table);
    case Observe(j, contended) =>
      var res := table.TryStrongObserve(j, contended);
      e := if res.Some? then Observed(j, res.value) else if contended then ObserveContended(j) else ObserveEmpty(j);
    case WeakObserve(i) =>
      var res := table.TryWeakObserve(i);
      e := WeakObserved(i, res);
    case AttachReceiver =>
      table.AttachReceiver();
      e := ReceiverAttached;
    case DropReceiver =>
      table.DropReceiver();
      e := ReceiverDropped;
    case AttachObserver =>
      var slot := table.AttachStrongObserver();
      e := if slot.Some? then ObserverAttached(slot.value) else ObserverAttachFailed;
    case DropObserver(j) =>
      table.DropStrongObserver(j);
      e := ObserverDropped(j);
  }

  /** The observable queue's receivers clone, the plain queue's move; the channel cannot tell. */
  method PerformReceive<T(==)>(table: LockingTable<T>) returns (e: Event<T>)
    requires table.Valid() && table.nReceivers > 0
    modifies table, table.buffer
    ensures table.Valid() && (e.Received? || e.ReceiveEmpty?)
    ensures Next(old(table.Abs()), e, table.Abs())
  {
    var res: Option<T>;
    if table.observable {
      res := table.TryReceiveClone();
    } else {
      res := table.TryReceive();
    }
    e := if res.Some? then Received(res.value) else ReceiveEmpty;
  }

  /** The operation led to the event, or was skipped because its handle is missing: nobody could ask for it. */
  ghost predicate Answers<T>(c: Channel<T>, op: Op<T>, e: Option<Event<T>>, c': Channel<T>) {
    if HasHandle(c, op) then e.Some? && IsOutcome(op, e.value) && Next(c, e.value, c') else e.None? && c' == c
  }

  /** The operations were performed in order, each with the event it led to. */
  ghost predicate IsScript<T>(cs: seq<Channel<T>>, ops: seq<Op<T>>, es: seq<Option<Event<T>>>) {
    && |cs| == |ops| + 1 && |es| == |ops|
    && forall k :: 0 <= k < |ops| ==> Answers(cs[k], ops[k], es[k], cs[k + 1])
  }

  function Happened<T>(es: seq<Option<Event<T>>>): seq<Event<T>> {
    if es == [] then []
    else Happened(es[..|es| - 1]) + match es[|es| - 1] { case Some(e) => [e] case None => [] }
  }

  /** What happened is a run of the channel, so all that is proved about runs holds of it. */
  lemma {:induction false} ScriptIsRun<T>(cs: seq<Channel<T>>, ops: seq<Op<T>>, es: seq<Option<Event<T>>>)
    returns (run: seq<Channel<T>>)
    requires IsScript(cs, ops, es)
    ensures Run(run, Happened(es)) && run[0] == cs[0] && run[|Happened(es)|] == cs[|ops|]
    ensures forall c :: c in run ==> c in cs
    decreases |ops|
  {
    if ops == [] {
      run := [cs[0]];
    } else {
      var n := |ops| - 1;
      assert Answers(cs[n], ops[n], es[n], cs[n + 1]);
      run := ScriptIsRun(cs[..n + 1], ops[..n], es[..n]);
      if es[n].Some? {
        RunGrows(run, Happened(es[..n]), es[n].value, cs[n + 1]);
        run := run + [cs[n + 1]];
      } else {
        assert Happened(es) == Happened(es[..n]);
      }
    }
  }

  lemma RunGrows<T>(cs: seq<Channel<T>>, es: seq<Event<T>>, e: Event<T>, c: Channel<T>)
    requires Run(cs, es) && Next(cs[|es|], e, c)
    ensures Run(cs + [c], es + [e])
  {
    forall i | 0 <= i < |es| + 1
      ensures Next((cs + [c])[i], (es + [e])[i], (cs + [c])[i + 1])
    {
      assert i < |es| ==> Next(cs[i], es[i], cs[i + 1]);
    }
  }

  method PerformAll<T(==)>(table: LockingTable<T>, ops: seq<Op<T>>)
    returns (es: seq<Option<Event<T>>>, ghost cs: seq<Channel<T>>)
    requires table.Valid()
    modifies table, table.buffer
    ensures table.Valid() && IsScript(cs, ops, es)
    ensures cs[0] == old(table.Abs()) && cs[|ops|] == table.Abs()
  {
    es, cs := [], [table.Abs()];
    for k := 0 to |ops|
      invariant table.Valid() && IsScript(cs, ops[..k], es)
      invariant cs[0] == old(table.Abs()) && cs[k] == table.Abs()
    {
      var asked := HandleExists(table, ops[k]);
      var e := None;
      if asked {
        var event := Perform(table, ops[k]);
        e := Some(event);
      }
      ScriptGrows(cs, ops[..k], es, ops[k], e, table.Abs());
      assert ops[..k + 1] == ops[..k] + [ops[k]];
      es, cs := es + [e], cs + [table.Abs()];
    }
    assert ops[..|ops|] == ops;
  }

  lemma ScriptGrows<T>(
    cs: seq<Channel<T>>, ops: seq<Op<T>>, es: seq<Option<Event<T>>>, op: Op<T>, e: Option<Event<T>>, c: Channel<T>)
    requires IsScript(cs, ops, es) && Answers(cs[|ops|], op, e, c)
    ensures IsScript(cs + [c], ops + [op], es + [e])
  {
    forall k | 0 <= k < |ops| + 1
      ensures Answers((cs + [c])[k], (ops + [op])[k], (es + [e])[k], (cs + [c])[k + 1])
    {
      assert k < |ops| ==> Answers(cs[k], ops[k], es[k], cs[k + 1]);
    }
  }

  method HandleExists<T(==)>(table: LockingTable<T>, op: Op<T>) returns (b: bool)
    requires table.Valid()
    ensures b <==> HasHandle(table.Abs(), op)
  {
    match op
    case Send(_) => b := table.tailIndex + 1 < USIZE_MAX;
    case Receive => b := table.nReceivers > 0;
    case DropReceiver => b := table.nReceivers > 0;
    case Observe(j, _) => b := j < |table.strongObserverHeads| && table.strongObserverHeads[j] != USIZE_MAX;
    case DropObserver(j) => b := j < |table.strongObserverHeads| && table.strongObserverHeads[j] != USIZE_MAX;
    case AttachObserver => b := table.observable;
    case WeakObserve(_) => b := table.observable;
    case AttachReceiver => b := true;
  }
}
