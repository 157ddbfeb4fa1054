/** The two eviction policies' own lists, each method one region under the list's lock. */
module EvictionPolicy {
  import opened Wrappers

  /** `Vec::swap_remove`: the last element fills the gap. */
  function SwapRemoved<T>(xs: seq<T>, i: nat): seq<T>
    requires i < |xs|
  {
    xs[i := xs[|xs| - 1]][..|xs| - 1]
  }

  /** Exactly the chosen occurrence goes; what else is there, and where, stays except for the last element. */
  lemma SwapRemovedTakesOne<T>(xs: seq<T>, i: nat)
    requires i < |xs|
    ensures multiset(xs) == multiset(SwapRemoved(xs, i)) + multiset{xs[i]}
    ensures forall k :: 0 <= k < |xs| - 1 && k != i ==> SwapRemoved(xs, i)[k] == xs[k]
  {
    var n := |xs| - 1;
    assert xs == xs[..n] + [xs[n]];
    if i < n {
      assert xs[..n] == xs[..i] + [xs[i]] + xs[i + 1..n];
      assert SwapRemoved(xs, i) == xs[..i] + [xs[n]] + xs[i + 1..n];
    } else {
      assert SwapRemoved(xs, i) == xs[..n];
    }
  }

  class LeastRecentlyUsed {
    var blocksInCache: seq<nat>

    constructor ()
      ensures blocksInCache == []
    {
      blocksInCache := [];
    }

    /** `None` is the source's "no block to evict" error. */
    method SelectVictim() returns (victim: Option<nat>)
      modifies this
      ensures victim.None? <==> old(blocksInCache) == []
      ensures victim.None? ==> blocksInCache == []
      ensures victim.Some? ==> old(blocksInCache) == [victim.value] + blocksInCache
    {
      if blocksInCache == [] {
        return None;
      }
      victim := Some(blocksInCache[0]);
      blocksInCache := blocksInCache[1..];
    }

    method PushBack(id: nat)
      modifies this
      ensures blocksInCache == old(blocksInCache) + [id]
    {
      blocksInCache := blocksInCache + [id];
    }
  }

  class RandomPolicy {
    var blocksInCache: seq<nat>

    constructor ()
      ensures blocksInCache == []
    {
      blocksInCache := [];
    }

    /** `roll` stands for the random index, which is only drawn when there is something to remove. */
    method SelectVictim(roll: nat) returns (victim: Option<nat>)
      modifies this
      ensures victim.None? <==> old(blocksInCache) == []
      ensures victim.None? ==> blocksInCache == []
      ensures victim.Some? ==> var index := roll % |old(blocksInCache)|;
                victim.value == old(blocksInCache)[index] && blocksInCache == SwapRemoved(old(blocksInCache), index)
      ensures victim.Some? ==> multiset(old(blocksInCache)) == multiset(blocksInCache) + multiset{victim.value}
    {
      var n := |blocksInCache|;
      if n == 0 {
        return None;
      }
      var index := roll % n;
      SwapRemovedTakesOne(blocksInCache, index);
      victim := Some(blocksInCache[index]);
      blocksInCache := blocksInCache[index := blocksInCache[n - 1]];
      blocksInCache := blocksInCache[..n - 1];
    }

    method Push(id: nat)
      modifies this
      ensures blocksInCache == old(blocksInCache) + [id]
    {
      blocksInCache := blocksInCache + [id];
    }
  }
}
