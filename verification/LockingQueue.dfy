/**
 The ring buffer behind both locking queues, proved to refine `QueueSpec`: each method is one
 lock-protected operation, and its contract names the event of the unbounded-history channel that
 it performs. The indices only ever grow and are compared modulo the number of slots.
 */
module LockingQueue {
  import opened Wrappers
  import opened QueueSpec

  /** `usize::MAX` on a 64-bit target. It doubles as the "no reader here" mark among the heads. */
  const USIZE_MAX: nat := 0xFFFF_FFFF_FFFF_FFFF

  lemma MultiplesSpread(n: int, k: int)
    requires 1 <= n
    ensures 1 <= k ==> n <= n * k
    ensures k <= -1 ==> n * k <= -n
  {
  }

  /** Two indices less than one turn of the ring apart share a slot only if they are equal. */
  lemma SlotsDistinct(i: nat, j: nat, n: nat)
    requires 1 <= n && i <= j < i + n
    ensures i % n == j % n <==> i == j
  {
    if i % n == j % n {
      var a, b := i / n, j / n;
      assert i == n * a + i % n && j == n * b + j % n;
      assert n * (b - a) == n * b - n * a;
      MultiplesSpread(n, b - a);
    }
  }

  /** A full turn of the ring leads back to the same slot. */
  lemma SlotAfterTurn(i: nat, n: nat)
    requires 1 <= n
    ensures (i + n) % n == i % n
  {
    var a, b := i / n, (i + n) / n;
    assert i == n * a + i % n && i + n == n * b + (i + n) % n;
    assert n * (b - a - 1) == n * b - n * a - n;
    MultiplesSpread(n, b - a - 1);
  }

  lemma SlotOfSmall(i: nat, n: nat)
    requires i < n
    ensures i % n == i
  {
  }

  /** The full test on slots is the full test on indices. */
  lemma FullTest(head: nat, tail: nat, n: nat)
    requires InWindow(head, tail, n)
    ensures (tail + 1) % n == head % n <==> !InWindow(head, tail + 1, n)
  {
    if tail + 1 < head + n {
      SlotsDistinct(head, tail + 1, n);
    } else {
      assert tail + 1 == head + n;
      SlotAfterTurn(head, n);
    }
  }

  /** The cursors of the live strong observers: the heads that do not carry the mark. */
  ghost function LiveHeads(heads: seq<nat>): map<nat, nat> {
    map j: nat | j < |heads| && heads[j] != USIZE_MAX :: heads[j]
  }

  lemma LiveHeadsUpdate(heads: seq<nat>, slot: nat, head: nat)
    requires slot < |heads|
    ensures LiveHeads(heads[slot := head])
         == if head == USIZE_MAX then LiveHeads(heads) - {slot} else LiveHeads(heads)[slot := head]
  {
  }

  /** Every value from index `oldest` on is still in its slot of the `n` slots. */
  ghost predicate Holds<T>(cells: seq<Option<T>>, n: nat, history: seq<T>, oldest: nat) {
    && |cells| == n >= 1
    && forall i :: oldest <= i < |history| ==> cells[i % n] == Some(history[i])
  }

  lemma HoldsAfterSend<T>(cells: seq<Option<T>>, n: nat, history: seq<T>, oldest: nat, oldest': nat, v: T)
    requires Holds(cells, n, history, oldest) && oldest <= oldest' && |history| < oldest' + n
    ensures Holds(cells[|history| % n := Some(v)], n, history + [v], oldest')
  {
    forall i | oldest' <= i < |history|
      ensures i % n != |history| % n
    {
      SlotsDistinct(i, |history|, n);
    }
  }

  lemma HoldsAfterTake<T>(cells: seq<Option<T>>, n: nat, history: seq<T>, head: nat)
    requires Holds(cells, n, history, head) && InWindow(head, |history|, n)
    ensures Holds(cells[head % n := None], n, history, head + 1)
  {
    forall i | head < i < |history|
      ensures i % n != head % n
    {
      SlotsDistinct(head, i, n);
    }
  }

  class LockingTable<T(==)> {
    const observable: bool  // built by `ObservableLockingQueue`, so receivers clone instead of move
    const buffer: array<Option<T>>
    var nReceivers: nat
    var headIndex: nat
    var tailIndex: nat
    var strongObserverHeads: seq<nat>
    var freeStrongObserverHeads: seq<nat>
    ghost var history: seq<T>

    /** The oldest index whose value must still be in its slot. */
    ghost function OldestKept(): nat
      reads this
    {
      if observable then (if tailIndex < buffer.Length then 0 else tailIndex - buffer.Length)
      else if nReceivers > 0 then headIndex
      else tailIndex
    }

    ghost predicate ValidSlots()
      reads this, buffer
    {
      && Holds(buffer[..], buffer.Length, history, OldestKept())
      && (observable ==> forall k :: |history| <= k < buffer.Length ==> buffer[k] == None)
    }

    ghost predicate ValidHeads()
      reads this
    {
      && 1 <= buffer.Length
      && |history| == tailIndex < USIZE_MAX
      && (if nReceivers == 0 then headIndex == USIZE_MAX else InWindow(headIndex, tailIndex, buffer.Length))
      && (forall j :: 0 <= j < |strongObserverHeads| && strongObserverHeads[j] != USIZE_MAX
            ==> InWindow(strongObserverHeads[j], tailIndex, buffer.Length))
      && (!observable ==> strongObserverHeads == [])
    }

    /** The free list holds each slot that carries the mark exactly once, and nothing else. */
    ghost predicate ValidFreeList()
      reads this
    {
      && (forall i, j :: 0 <= i < j < |freeStrongObserverHeads|
            ==> freeStrongObserverHeads[i] != freeStrongObserverHeads[j])
      && (forall j :: j in freeStrongObserverHeads
            <==> 0 <= j < |strongObserverHeads| && strongObserverHeads[j] == USIZE_MAX)
    }

    ghost predicate Valid()
      reads this, buffer
    {
      ValidHeads() && ValidSlots() && ValidFreeList()
    }

    /** The channel this table stands for. */
    ghost function Abs(): Channel<T>
      reads this
    {
      Channel(buffer.Length, |strongObserverHeads|, observable, history,
              if nReceivers == 0 then Detached else Attached(nReceivers, headIndex),
              LiveHeads(strongObserverHeads))
    }

    lemma AbsIsWellFormed()
      requires Valid()
      ensures WellFormed(Abs())
    {
    }

    constructor (bufferSize: nat, maxStrongObservers: nat, observable: bool)
      requires 1 <= bufferSize
      requires !observable ==> maxStrongObservers == 0
      ensures Valid() && fresh(buffer)
      ensures Abs() == Channel(bufferSize, maxStrongObservers, observable, [], Detached, map[])
    {
      this.observable := observable;
      buffer := new Option<T>[bufferSize](_ => None);
      nReceivers, headIndex, tailIndex := 0, USIZE_MAX, 0;
      strongObserverHeads := seq(maxStrongObservers, _ => USIZE_MAX);
      freeStrongObserverHeads := seq(maxStrongObservers, i => i);
      history := [];
      new;
      forall j | 0 <= j < |strongObserverHeads|
        ensures j in freeStrongObserverHeads
      {
        assert freeStrongObserverHeads[j] == j;
      }
    }

    function ModLen(i: nat): nat
      requires 1 <= buffer.Length
    {
      i % buffer.Length
    }

    function CanSend(): Option<nat>
      requires 1 <= buffer.Length
      reads this
    {
      var headSlot := ModLen(headIndex);
      var nextTailSlot := ModLen(tailIndex + 1);
      if || (nReceivers > 0 && nextTailSlot == headSlot)
         || (exists j :: 0 <= j < |strongObserverHeads| && strongObserverHeads[j] != USIZE_MAX
                         && nextTailSlot == ModLen(strongObserverHeads[j]))
      then None
      else Some(tailIndex)
    }

    function CanReceive(): bool
      reads this
    {
      headIndex != tailIndex
    }

    function CanStrongObserve(slot: nat): bool
      requires slot < |strongObserverHeads|
      reads this
    {
      strongObserverHeads[slot] != tailIndex
    }

    /** The modular test refuses exactly when some attached reader is a full window behind. */
    lemma CanSendIsExact()
      requires Valid()
      ensures CanSend().Some? <==> Ready(Abs(), ToSend)
      ensures CanSend().None? <==>
        || (nReceivers > 0 && tailIndex == headIndex + (buffer.Length - 1))
        || (exists j :: 0 <= j < |strongObserverHeads| && strongObserverHeads[j] != USIZE_MAX
                        && tailIndex == strongObserverHeads[j] + (buffer.Length - 1))
    {
      if nReceivers > 0 {
        FullTest(headIndex, tailIndex, buffer.Length);
      }
      forall j | 0 <= j < |strongObserverHeads| && strongObserverHeads[j] != USIZE_MAX
        ensures ModLen(tailIndex + 1) == ModLen(strongObserverHeads[j])
           <==> tailIndex == strongObserverHeads[j] + (buffer.Length - 1)
        ensures j in Abs().observers && Abs().observers[j] == strongObserverHeads[j]
      {
        FullTest(strongObserverHeads[j], tailIndex, buffer.Length);
      }
    }

    /** The readiness tests, which compare indices, agree with the attempts, which compare slots. */
    lemma CanReceiveIsExact()
      requires Valid() && nReceivers > 0
      ensures CanReceive() <==> Ready(Abs(), ToReceive)
      ensures CanReceive() <==> headIndex < |history|
      ensures CanReceive() <==> ModLen(headIndex) != ModLen(tailIndex)
    {
      SlotsDistinct(headIndex, tailIndex, buffer.Length);
    }

    lemma CanStrongObserveIsExact(slot: nat)
      requires Valid() && slot in Abs().observers
      ensures CanStrongObserve(slot) <==> Ready(Abs(), ToObserve(slot))
      ensures CanStrongObserve(slot) <==> strongObserverHeads[slot] < |history|
      ensures CanStrongObserve(slot) <==> ModLen(strongObserverHeads[slot]) != ModLen(tailIndex)
    {
      SlotsDistinct(strongObserverHeads[slot], tailIndex, buffer.Length);
    }

    method TrySend(v: T) returns (refused: Option<T>)
      requires Valid() && tailIndex + 1 < USIZE_MAX
      modifies this, buffer
      ensures Valid()
      ensures refused.None? ==> Next(old(Abs()), Sent(v), Abs())
      ensures refused.Some? ==> refused.value == v && Next(old(Abs()), SendRefused(v), Abs())
      ensures refused.Some? <==> old(CanSend()).None?
      ensures history == if refused.None? then old(history) + [v] else old(history)
    {
      CanSendIsExact();
      var sendIndex := CanSend();
      if sendIndex.None? {
        return Some(v);
      }
      Fill(sendIndex.value, v);
      return None;
    }

    /** The accepting half of `TrySend`. */
    method Fill(index: nat, v: T)
      requires Valid() && index == tailIndex && tailIndex + 1 < USIZE_MAX
      requires nReceivers > 0 ==> InWindow(headIndex, tailIndex + 1, buffer.Length)
      requires forall j :: 0 <= j < |strongObserverHeads| && strongObserverHeads[j] != USIZE_MAX
                 ==> InWindow(strongObserverHeads[j], tailIndex + 1, buffer.Length)
      modifies this, buffer
      ensures Valid() && Abs() == old(Abs()).(history := old(history) + [v])
    {
      ghost var oldest := OldestKept();
      ghost var cells := buffer[..];
      if index < buffer.Length {
        SlotOfSmall(index, buffer.Length);
      }
      buffer[ModLen(index)] := Some(v);
      assert buffer[..] == cells[index % buffer.Length := Some(v)];
      tailIndex := tailIndex + 1;
      history := history + [v];
      HoldsAfterSend(cells, buffer.Length, old(history), oldest, OldestKept(), v);
    }

    method AttachReceiver()
      requires Valid()
      modifies this
      ensures Valid() && Next(old(Abs()), ReceiverAttached, Abs())
      ensures nReceivers == old(nReceivers) + 1
      ensures headIndex == if old(nReceivers) == 0 then |history| else old(headIndex)
    {
      if nReceivers == 0 {
        headIndex := tailIndex;
      }
      nReceivers := nReceivers + 1;
    }

    method DropReceiver()
      requires Valid() && nReceivers > 0
      modifies this
      ensures Valid() && Next(old(Abs()), ReceiverDropped, Abs())
      ensures nReceivers == old(nReceivers) - 1 && (nReceivers > 0 ==> headIndex == old(headIndex))
    {
      nReceivers := nReceivers - 1;
      if nReceivers == 0 {
        headIndex := USIZE_MAX;
      }
    }

    /** The slot to read for a reader at `head`, or `None` when the reader has caught up. */
    method TryTakeForHead(head: nat) returns (slot: Option<nat>)
      requires Valid() && OldestKept() <= head <= tailIndex && InWindow(head, tailIndex, buffer.Length)
      ensures slot.None? <==> head == tailIndex
      ensures slot.Some? ==> slot.value < buffer.Length && slot.value == head % buffer.Length
                             && buffer[slot.value] == Some(history[head])
    {
      SlotsDistinct(head, tailIndex, buffer.Length);
      if ModLen(head) == ModLen(tailIndex) {
        assert head == tailIndex;  // the source's debug assertion
        return None;
      }
      return Some(ModLen(head));
    }

    method TryReceive() returns (res: Option<T>)
      requires Valid() && nReceivers > 0 && !observable
      modifies this, buffer
      ensures Valid()
      ensures res.Some? ==> Next(old(Abs()), Received(res.value), Abs())
      ensures res.None? ==> Next(old(Abs()), ReceiveEmpty, Abs())
      ensures (res.Some? <==> old(CanReceive())) && history == old(history)
      ensures res.Some? ==> res.value == old(history)[old(headIndex)] && headIndex == old(headIndex) + 1
      ensures res.None? ==> headIndex == |history|
    {
      var slot := TryTakeForHead(headIndex);
      if slot.None? {
        return None;
      }
      assert buffer[slot.value].Some?;  // the source's "empty cell" panic cannot happen
      HoldsAfterTake(buffer[..], buffer.Length, history, headIndex);
      res := buffer[slot.value];
      buffer[slot.value] := None;
      headIndex := headIndex + 1;
      assert buffer[..] == old(buffer[..])[slot.value := None];
    }

    method TryReceiveClone() returns (res: Option<T>)
      requires Valid() && nReceivers > 0 && observable
      modifies this
      ensures Valid()
      ensures res.Some? ==> Next(old(Abs()), Received(res.value), Abs())
      ensures res.None? ==> Next(old(Abs()), ReceiveEmpty, Abs())
      ensures (res.Some? <==> old(CanReceive())) && history == old(history)
      ensures res.Some? ==> res.value == old(history)[old(headIndex)] && headIndex == old(headIndex) + 1
      ensures res.None? ==> headIndex == |history|
    {
      var slot := TryTakeForHead(headIndex);
      if slot.None? {
        return None;
      }
      assert buffer[slot.value].Some?;
      res := buffer[slot.value];
      headIndex := headIndex + 1;
    }

    /** `contended` says that another thread held the queue lock when the observer tried to take it. */
    method TryStrongObserve(slot: nat, contended: bool) returns (res: Option<T>)
      requires Valid() && slot in Abs().observers
      modifies this
      ensures Valid()
      ensures res.Some? ==> !contended && Next(old(Abs()), Observed(slot, res.value), Abs())
      ensures res.None? && contended ==> Next(old(Abs()), ObserveContended(slot), Abs())
      ensures res.None? && !contended ==> Next(old(Abs()), ObserveEmpty(slot), Abs())
      ensures (res.Some? <==> !contended && old(CanStrongObserve(slot))) && history == old(history)
      ensures res.Some? ==> res.value == old(history)[old(strongObserverHeads)[slot]]
      ensures res.Some? ==> strongObserverHeads == old(strongObserverHeads)[slot := old(strongObserverHeads)[slot] + 1]
      ensures res.None? && !contended ==> strongObserverHeads[slot] == |history|
    {
      if contended {
        return None;
      }
      var cell := TryTakeForHead(strongObserverHeads[slot]);
      if cell.None? {
        return None;
      }
      assert buffer[cell.value].Some?;
      res := buffer[cell.value];
      LiveHeadsUpdate(strongObserverHeads, slot, strongObserverHeads[slot] + 1);
      strongObserverHeads := strongObserverHeads[slot := strongObserverHeads[slot] + 1];
    }

    /** `None` is the source's allocation error. */
    method AttachStrongObserver() returns (slot: Option<nat>)
      requires Valid() && observable
      modifies this
      ensures Valid()
      ensures slot.Some? ==> Next(old(Abs()), ObserverAttached(slot.value), Abs())
      ensures slot.None? ==> Next(old(Abs()), ObserverAttachFailed, Abs())
      ensures slot.None? <==>
                forall j :: 0 <= j < |old(strongObserverHeads)| ==> old(strongObserverHeads)[j] != USIZE_MAX
      ensures slot.Some? ==>
                slot.value < |old(strongObserverHeads)| && old(strongObserverHeads)[slot.value] == USIZE_MAX
      ensures slot.Some? ==> strongObserverHeads == old(strongObserverHeads)[slot.value := |history|]
    {
      var n := |freeStrongObserverHeads|;
      if n == 0 {
        return None;
      }
      var index := freeStrongObserverHeads[n - 1];
      assert index in freeStrongObserverHeads;
      freeStrongObserverHeads := freeStrongObserverHeads[..n - 1];
      LiveHeadsUpdate(strongObserverHeads, index, tailIndex);
      strongObserverHeads := strongObserverHeads[index := tailIndex];
      assert old(freeStrongObserverHeads) == freeStrongObserverHeads + [index];
      assert forall j :: j in freeStrongObserverHeads <==> j in old(freeStrongObserverHeads) && j != index;
      return Some(index);
    }

    method DropStrongObserver(slot: nat)
      requires Valid() && slot in Abs().observers
      modifies this
      ensures Valid() && Next(old(Abs()), ObserverDropped(slot), Abs())
      ensures strongObserverHeads == old(strongObserverHeads)[slot := USIZE_MAX]
    {
      LiveHeadsUpdate(strongObserverHeads, slot, USIZE_MAX);
      strongObserverHeads := strongObserverHeads[slot := USIZE_MAX];
      freeStrongObserverHeads := freeStrongObserverHeads + [slot];
    }

    /** The slot a weak observation reads, and what it finds there. */
    lemma WeakReadIsExact(index: nat)
      requires Valid() && observable && tailIndex - buffer.Length <= index <= tailIndex
      ensures buffer[ModLen(index)] == WeakView(history, buffer.Length, index)
    {
      if index < tailIndex {
        assert buffer[..][ModLen(index)] == Some(history[index]);
      } else if buffer.Length <= tailIndex {
        SlotAfterTurn(tailIndex - buffer.Length, buffer.Length);
        assert buffer[..][ModLen(tailIndex - buffer.Length)] == Some(history[tailIndex - buffer.Length]);
      } else {
        SlotOfSmall(index, buffer.Length);
      }
    }

    method TryWeakObserve(index: nat) returns (res: Option<T>)
      requires Valid() && observable
      ensures Next(Abs(), WeakObserved(index, res), Abs())
    {
      if index < tailIndex - buffer.Length || index > tailIndex {
        return None;
      }
      WeakReadIsExact(index);
      res := buffer[ModLen(index)];
    }
  }
}
