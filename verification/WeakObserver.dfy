/**
 Weak observers: they read the observable queue's history by index and hold nothing back, so other
 handles keep sending between two of their reads.
 */
module WeakObserver {
  import opened Wrappers
  import opened QueueSpec
  import opened LockingQueue

  function Max(a: int, b: int): int { if a < b then b else a }

  function Min(a: int, b: int): int { if a < b then a else b }

  /** `h[lo..hi]`, empty when the bounds cross. */
  function Clip<T>(h: seq<T>, lo: int, hi: int): seq<T>
    requires 0 <= lo && hi <= |h|
  {
    if lo <= hi then h[lo..hi] else []
  }

  /**
   The promise of `weak_observe` is "nothing, or the value that existed at that index". The code keeps
   it at every index except the tail of a queue that has filled its ring: there the slot still holds the
   value of one turn ago.
   */
  lemma WeakObservationPromise<T>(h: seq<T>, n: nat, i: nat)
    requires 1 <= n
    ensures (WeakView(h, n, i).Some? ==> i < |h| && WeakView(h, n, i).value == h[i]) <==> !(i == |h| && n <= |h|)
    ensures |h| - n <= i < |h| ==> WeakView(h, n, i) == Some(h[i])
    ensures i == |h| && n <= |h| ==> WeakView(h, n, i) == Some(h[|h| - n])
  {
  }

  /** A run of a fresh observable queue on which the promise fails: nothing was ever sent at index 2. */
  lemma StaleReadAtTheTail() returns (cs: seq<Channel<int>>, es: seq<Event<int>>)
    ensures Run(cs, es) && cs[0] == Channel(2, 0, true, [], Detached, map[])
    ensures es == [Sent(7), Sent(8), WeakObserved(2, Some(7))] && cs[|es|].Tail() == 2
  {
    var start: Channel<int> := Channel(2, 0, true, [], Detached, map[]);
    var full := start.(history := [7, 8]);
    cs, es := [start, start.(history := [7]), full, full], [Sent(7), Sent(8), WeakObserved(2, Some(7))];
    assert [7] + [8] == [7, 8];
  }

  /** What an undisturbed range observation returns, for any bounds. */
  function QuietRange<T>(h: seq<T>, n: nat, start: nat, end: nat): seq<T>
    requires 1 <= n
  {
    Clip(h, Max(start, |h| - n), Min(end, |h|))
    + if start <= |h| < end && n <= |h| then [h[|h| - n]] else []
  }

  function Found<T>(v: Option<T>): seq<T> { match v { case Some(x) => [x] case None => [] } }

  lemma QuietRangeGrows<T>(h: seq<T>, n: nat, start: nat, end: nat)
    requires 1 <= n && start <= end
    ensures QuietRange(h, n, start, start) == []
    ensures QuietRange(h, n, start, end + 1) == QuietRange(h, n, start, end) + Found(WeakView(h, n, end))
  {
    if end < |h| {
      ClipGrows(h, Max(start, |h| - n), end);
    }
  }

  lemma ClipGrows<T>(h: seq<T>, lo: nat, hi: nat)
    requires hi < |h|
    ensures Clip(h, lo, hi + 1) == Clip(h, lo, hi) + if lo <= hi then [h[hi]] else []
  {
  }

  /**
   `res` lists, in order, the values of `h` at the strictly increasing indices `picks` in `[start, end)`.
   It has every index still in the ring, and none that had left it when the tail was at `tail0`.
   */
  ghost predicate InOrder<T>(res: seq<T>, picks: seq<nat>, h: seq<T>, n: nat, tail0: nat, start: nat, end: nat) {
    && |res| == |picks|
    && (forall k :: 0 <= k < |picks| ==>
          start <= picks[k] < end && tail0 - n <= picks[k] < |h| && res[k] == h[picks[k]])
    && (forall k, l :: 0 <= k < l < |picks| ==> picks[k] < picks[l])
    && (forall i: nat :: start <= i < end && |h| - n <= i ==> i in picks)
  }

  /** One more observation, after some more sends, keeps the result in order. */
  lemma InOrderGrows<T>(res: seq<T>, picks: seq<nat>, h: seq<T>, n: nat, tail0: nat, start: nat, i: nat)
    returns (picks': seq<nat>)
    requires 1 <= n && InOrder(res, picks, h, n, tail0, start, i)
    requires start <= i < tail0 <= |h|
    ensures InOrder(res + Found(WeakView(h, n, i)), picks', h, n, tail0, start, i + 1)
  {
    picks' := if WeakView(h, n, i).Some? then picks + [i] else picks;
    assert WeakView(h, n, i).None? ==> res + Found(WeakView(h, n, i)) == res;
  }

  /** What observing indices `start`, `start + 1`, ... returns when the k-th of them finds the history `seen[k]`. */
  function ObserveAll<T>(seen: seq<seq<T>>, n: nat, start: nat): seq<T>
    requires 1 <= n
  {
    if seen == [] then []
    else
      var last := |seen| - 1;
      ObserveAll(seen[..last], n, start) + Found(WeakView(seen[last], n, start + last))
  }

  lemma ObserveAllGrows<T>(seen: seq<seq<T>>, h: seq<T>, n: nat, start: nat)
    requires 1 <= n
    ensures ObserveAll(seen + [h], n, start) == ObserveAll(seen, n, start) + Found(WeakView(h, n, start + |seen|))
  {
    assert (seen + [h])[..|seen|] == seen;
  }

  /** Each history extends the one before it, from `h0` up to `h`. */
  ghost predicate Chain<T>(seen: seq<seq<T>>, h0: seq<T>, h: seq<T>) {
    if seen == [] then h0 <= h
    else
      var last := |seen| - 1;
      seen[last] <= h && Chain(seen[..last], h0, seen[last])
  }

  lemma {:induction false} ChainIsOrdered<T>(seen: seq<seq<T>>, h0: seq<T>, h: seq<T>)
    requires Chain(seen, h0, h)
    ensures h0 <= h
    decreases |seen|
  {
    if seen != [] {
      ChainIsOrdered(seen[..|seen| - 1], h0, seen[|seen| - 1]);
    }
  }

  lemma ChainGrows<T>(seen: seq<seq<T>>, h0: seq<T>, h: seq<T>, h': seq<T>)
    requires Chain(seen, h0, h) && h <= h'
    ensures Chain(seen + [h'], h0, h')
  {
    assert (seen + [h'])[..|seen|] == seen;
    assert Chain(seen, h0, h');
  }

  /**
   With any number of sends between the single observations, a range that ends at or before the starting
   tail comes back in order: it has every value still in the ring at the end, none that had left it at the
   start, and each of them is the value sent at its index.
   */
  lemma {:induction false} RangeIsInOrder<T>(seen: seq<seq<T>>, h0: seq<T>, h: seq<T>, n: nat, start: nat)
    returns (picks: seq<nat>)
    requires 1 <= n && Chain(seen, h0, h) && start + |seen| <= |h0|
    ensures InOrder(ObserveAll(seen, n, start), picks, h, n, |h0|, start, start + |seen|)
    decreases |seen|
  {
    if seen == [] {
      picks := [];
    } else {
      var last := |seen| - 1;
      ChainIsOrdered(seen[..last], h0, seen[last]);
      picks := RangeIsInOrder(seen[..last], h0, seen[last], n, start);
      picks := InOrderGrows(ObserveAll(seen[..last], n, start), picks, seen[last], n, |h0|, start, start + last);
      InOrderLater(ObserveAll(seen, n, start), picks, seen[last], h, n, |h0|, start, start + |seen|);
    }
  }

  lemma InOrderLater<T>(res: seq<T>, picks: seq<nat>, h: seq<T>, h': seq<T>, n: nat, tail0: nat, start: nat, end: nat)
    requires InOrder(res, picks, h, n, tail0, start, end) && h <= h'
    ensures InOrder(res, picks, h', n, tail0, start, end)
  {
  }

  /** The undisturbed observation of `length` indices from `start`, one at a time. */
  function QuietSteps<T>(h: seq<T>, n: nat, start: nat, length: nat): seq<T>
    requires 1 <= n
  {
    if length == 0 then [] else QuietSteps(h, n, start, length - 1) + Found(WeakView(h, n, start + length - 1))
  }

  lemma {:induction false} QuietObservationsAddUp<T>(seen: seq<seq<T>>, h: seq<T>, n: nat, start: nat)
    requires 1 <= n && Chain(seen, h, h)
    ensures ObserveAll(seen, n, start) == QuietSteps(h, n, start, |seen|)
    decreases |seen|
  {
    if seen != [] {
      var last := |seen| - 1;
      ChainIsOrdered(seen[..last], h, seen[last]);
      assert seen[last] == h;
      QuietObservationsAddUp(seen[..last], h, n, start);
    }
  }

  lemma {:induction false} QuietStepsAreTheRange<T>(h: seq<T>, n: nat, start: nat, length: nat)
    requires 1 <= n
    ensures QuietSteps(h, n, start, length) == QuietRange(h, n, start, start + length)
  {
    if length == 0 {
      QuietRangeGrows(h, n, start, start);
    } else {
      QuietStepsAreTheRange(h, n, start, length - 1);
      QuietRangeGrows(h, n, start, start + length - 1);
    }
  }

  /** Without sends in between, a range observation is exactly `QuietRange`, whatever its bounds. */
  lemma RangeIsExactWhenQuiet<T>(seen: seq<seq<T>>, h: seq<T>, n: nat, start: nat)
    requires 1 <= n && Chain(seen, h, h)
    ensures ObserveAll(seen, n, start) == QuietRange(h, n, start, start + |seen|)
  {
    QuietObservationsAddUp(seen, h, n, start);
    QuietStepsAreTheRange(h, n, start, |seen|);
  }

  /** The `n` values before the newest one, as far as the ring still has them. */
  function RecentValues<T>(h: seq<T>, capacity: nat, n: nat): seq<T> {
    if |h| == 0 then [] else Clip(h, Max(0, Max(|h| - 1 - n, |h| - capacity)), |h| - 1)
  }

  lemma RecentIsExactWhenQuiet<T>(seen: seq<seq<T>>, h: seq<T>, capacity: nat, n: nat)
    requires 1 <= capacity && Chain(seen, h, h) && |seen| == Min(n, Max(0, |h| - 1))
    ensures ObserveAll(seen, capacity, Max(0, |h| - 1 - n)) == RecentValues(h, capacity, n)
  {
    var from := Max(0, |h| - 1 - n);
    RangeIsExactWhenQuiet(seen, h, capacity, from);
    RecentRange(h, capacity, n, from, from + |seen|);
  }

  lemma RecentRange<T>(h: seq<T>, capacity: nat, n: nat, from: nat, now: nat)
    requires 1 <= capacity && from == Max(0, |h| - 1 - n) && now == Max(0, |h| - 1)
    ensures QuietRange(h, capacity, from, now) == RecentValues(h, capacity, n)
  {
  }

  /** `weak_observe_recent(n)` asks for index `i` and can still see it. */
  predicate IsObservedRecent(tail: nat, capacity: nat, n: nat, i: nat) {
    tail - 1 - n <= i < tail - 1 && tail - capacity <= i
  }

  /** Index `i` is one of the most recent `n` still in the ring, as the documentation words it. */
  predicate IsNewest(tail: nat, capacity: nat, n: nat, i: nat) {
    tail - n <= i < tail && tail - capacity <= i
  }

  /** The code leaves the newest value out, so it agrees with its documentation only when nothing is asked or there. */
  lemma RecentOmitsTheNewest(tail: nat, capacity: nat, n: nat)
    requires 1 <= capacity
    ensures (forall i :: IsObservedRecent(tail, capacity, n, i) <==> IsNewest(tail, capacity, n, i))
       <==> n == 0 || tail == 0
  {
    if n != 0 && tail != 0 {
      assert IsNewest(tail, capacity, n, tail - 1) && !IsObservedRecent(tail, capacity, n, tail - 1);
    }
  }

  class LockingWeakObserver<T(==)> {
    const table: LockingTable<T>
    var maxObservedTail: nat

    constructor (table: LockingTable<T>)
      ensures this.table == table && maxObservedTail == 0
    {
      this.table := table;
      maxObservedTail := 0;
    }

    ghost predicate Valid()
      reads this, table, table.buffer
    {
      table.Valid() && table.observable && maxObservedTail <= table.tailIndex
    }

    function ShouldTry(): (b: bool)
      requires Valid()
      reads this, table, table.buffer
      ensures b <==> maxObservedTail < |table.history|
      ensures b <==> Ready(table.Abs(), ToSeeNews(maxObservedTail))
    {
      table.tailIndex > maxObservedTail
    }

    /** What other handles may do while this observer does not hold the queue lock. */
    method OthersSend(values: seq<T>)
      requires Valid()
      modifies table, table.buffer
      ensures Valid() && old(table.history) <= table.history
    {
      for k := 0 to |values|
        invariant Valid() && old(table.history) <= table.history
      {
        if table.tailIndex + 1 < USIZE_MAX {
          var _ := table.TrySend(values[k]);
        }
      }
    }

    method WeakObserve(index: nat) returns (res: Option<T>)
      requires Valid()
      modifies this`maxObservedTail
      ensures Valid()
      ensures res == WeakView(table.history, table.buffer.Length, index)
      ensures maxObservedTail == table.tailIndex && !ShouldTry()
    {
      if maxObservedTail < table.tailIndex {
        maxObservedTail := table.tailIndex;
      }
      res := table.TryWeakObserve(index);
    }

    method RecentCursor() returns (cursor: nat)
      requires Valid()
      ensures cursor == Max(0, |table.history| - 1)
    {
      cursor := if table.tailIndex == 0 then 0 else table.tailIndex - 1;
    }

    /** The oldest index still in the ring, exactly. */
    method OldestCursor() returns (cursor: nat)
      requires Valid()
      ensures cursor == Max(0, |table.history| - table.buffer.Length)
    {
      var i := RecentCursor();
      if i < table.buffer.Length {
        cursor := 0;
      } else {
        cursor := i - (table.buffer.Length - 1);
      }
    }

    /** One observation of a range, after whatever the other handles did since the last one. */
    method ObserveAmongSends(index: nat) returns (res: Option<T>)
      requires Valid()
      modifies this`maxObservedTail, table, table.buffer
      ensures Valid() && old(table.history) <= table.history
      ensures res == WeakView(table.history, table.buffer.Length, index)
    {
      var values: seq<T> := *;
      OthersSend(values);
      res := WeakObserve(index);
    }

    /** `seen` is the history that each single observation found. */
    method WeakObserveRange(start: nat, end: nat) returns (res: seq<T>, ghost seen: seq<seq<T>>)
      requires Valid()
      modifies this`maxObservedTail, table, table.buffer
      ensures Valid()
      ensures |seen| == Max(0, end - start) && Chain(seen, old(table.history), table.history)
      ensures res == ObserveAll(seen, table.buffer.Length, start)
    {
      res, seen := [], [];
      ghost var n, h0 := table.buffer.Length, table.history;
      var i := start;
      while i < end
        invariant Valid() && Chain(seen, h0, table.history)
        invariant start <= i && |seen| == i - start && (i <= end || |seen| == 0)
        invariant res == ObserveAll(seen, n, start)
      {
        ghost var before := table.history;
        var v := ObserveAmongSends(i);
        if v.Some? {
          res := res + [v.value];
        }
        ObserveAllGrows(seen, table.history, n, start);
        ChainGrows(seen, h0, before, table.history);
        seen := seen + [table.history];
        i := i + 1;
      }
    }

    method WeakObserveRecent(n: nat) returns (res: seq<T>, ghost seen: seq<seq<T>>)
      requires Valid()
      modifies this`maxObservedTail, table, table.buffer
      ensures Valid() && Chain(seen, old(table.history), table.history)
      ensures |seen| == Min(n, Max(0, |old(table.history)| - 1))
      ensures res == ObserveAll(seen, table.buffer.Length, Max(0, |old(table.history)| - 1 - n))
    {
      var now := RecentCursor();
      var from := if n <= now then now - n else 0;
      res, seen := WeakObserveRange(from, now);
    }
  }
}
