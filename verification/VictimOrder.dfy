/** When the policy that calls itself least-recently-used is: hits do not move a block, so it goes by announcements. */
module VictimOrder {
  import opened Wrappers
  import opened QueueSpec
  import opened CacheProtocol
  import opened CacheProofs

  /** Of all the blocks the policy tracks, `victim` is the one whose last use is longest ago. */
  ghost predicate IsLeastRecentlyUsed(p: Policy, victim: Id) {
    victim in Tracked(p) && victim in p.used
    && forall id :: id in Tracked(p) && id != victim ==> id in p.used && p.used[victim] < p.used[id]
  }

  ghost predicate IsMostRecentlyUsed(p: Policy, victim: Id) {
    victim in Tracked(p) && victim in p.used
    && forall id :: id in Tracked(p) && id != victim ==> id in p.used && p.used[id] < p.used[victim]
  }

  /** No hit on the block since it was last announced. */
  predicate IsUnhit(p: Policy, id: Id) {
    id in p.stamps && id in p.used && p.used[id] == p.stamps[id]
  }

  /** A front block without a hit is the least recently used, whatever hits the other blocks had. */
  lemma UnhitVictimIsLeastRecentlyUsed(p: Policy)
    requires InOrder(p) && p.list != [] && IsUnhit(p, p.list[0])
    ensures IsLeastRecentlyUsed(p, p.list[0])
  {
    var tracked := Tracked(p);
    assert tracked[0] == p.list[0] && tracked[0] in tracked;
    forall id | id in tracked && id != tracked[0]
      ensures id in p.used && p.used[tracked[0]] < p.used[id]
    {
      var j :| 0 <= j < |tracked| && tracked[j] == id;
      assert p.stamps[tracked[0]] < p.stamps[tracked[j]];
    }
  }

  // ---------------------------------------------------------------------------------------------
  // The hits and announcements of a run.

  /** The step announces block `id` to the policy. */
  predicate AnnouncesBlock<D>(s: State<D>, a: Action<D>, id: Id) {
    a.InsertedOk? && !s.store.phase.Unlocked? && s.store.phase.block.id == id && s.policy.queue.receivers.Attached?
  }

  /** The step finds block `id` in the cache. */
  predicate HitsBlock<D>(s: State<D>, a: Action<D>, id: Id) {
    (a.ReadHit? && a.id == id) || (a.Request? && a.id == id && id in s.store.cache)
  }

  /** The index of the last step of `acts` that announces block `id`, or -1. */
  function LastAnnounced<D>(ss: seq<State<D>>, acts: seq<Action<D>>, id: Id): int
    requires |acts| <= |ss|
    decreases |acts|
  {
    if acts == [] then -1
    else
      var n := |acts| - 1;
      if AnnouncesBlock(ss[n], acts[n], id) then n else LastAnnounced(ss, acts[..n], id)
  }

  /** The index of the last step of `acts` that hits block `id`, or -1. */
  function LastHit<D>(ss: seq<State<D>>, acts: seq<Action<D>>, id: Id): int
    requires |acts| <= |ss|
    decreases |acts|
  {
    if acts == [] then -1
    else
      var n := |acts| - 1;
      if HitsBlock(ss[n], acts[n], id) then n else LastHit(ss, acts[..n], id)
  }

  function Later(a: int, b: int): int { if a < b then b else a }

  function LastUse<D>(ss: seq<State<D>>, acts: seq<Action<D>>, id: Id): int
    requires |acts| <= |ss|
  {
    Later(LastAnnounced(ss, acts, id), LastHit(ss, acts, id))
  }

  lemma {:induction false} LastAnnouncedIs<D>(ss: seq<State<D>>, acts: seq<Action<D>>, id: Id)
    requires |acts| <= |ss|
    ensures var k := LastAnnounced(ss, acts, id); -1 <= k < |acts| && (0 <= k ==> AnnouncesBlock(ss[k], acts[k], id))
    decreases |acts|
  {
    if acts != [] {
      LastAnnouncedIs(ss, acts[..|acts| - 1], id);
    }
  }

  lemma {:induction false} LastHitIs<D>(ss: seq<State<D>>, acts: seq<Action<D>>, id: Id)
    requires |acts| <= |ss|
    ensures var k := LastHit(ss, acts, id); -1 <= k < |acts| && (0 <= k ==> HitsBlock(ss[k], acts[k], id))
    decreases |acts|
  {
    if acts != [] {
      LastHitIs(ss, acts[..|acts| - 1], id);
    }
  }

  /** The policy's clock stamps announcements and hits, and ticks on each. */
  lemma StepStamps<D>(s: State<D>, a: Action<D>, s': State<D>, device: Id -> D, id: Id)
    requires Moves(s, a, s', device)
    ensures s.policy.clock <= s'.policy.clock
    ensures AnnouncesBlock(s, a, id) || HitsBlock(s, a, id) ==> s.policy.clock < s'.policy.clock
    ensures var p, p' := s.policy, s'.policy;
            && (if AnnouncesBlock(s, a, id) then id in p'.stamps && p'.stamps[id] == p.clock
                else (id in p'.stamps <==> id in p.stamps) && (id in p.stamps ==> p'.stamps[id] == p.stamps[id]))
            && (if AnnouncesBlock(s, a, id) || HitsBlock(s, a, id) then id in p'.used && p'.used[id] == p.clock
                else (id in p'.used <==> id in p.used) && (id in p.used ==> p'.used[id] == p.used[id]))
  {
  }

  /** What the stamps record of a block is when it was last announced, and last announced or hit. */
  lemma {:induction false} StampsAreOfTheRun<D>(
    ss: seq<State<D>>, acts: seq<Action<D>>, device: Id -> D, n: nat, id: Id)
    requires Behavior(ss, acts, device) && Init(ss[0]) && n <= |acts|
    ensures var p, k := ss[n].policy, LastAnnounced(ss, acts[..n], id);
            k < n && (id in p.stamps <==> 0 <= k) && (0 <= k ==> p.stamps[id] == ss[k].policy.clock)
    ensures var p, k := ss[n].policy, LastUse(ss, acts[..n], id);
            k < n && (id in p.used <==> 0 <= k) && (0 <= k ==> p.used[id] == ss[k].policy.clock)
  {
    if n > 0 {
      assert acts[..n][..n - 1] == acts[..n - 1] && acts[..n][n - 1] == acts[n - 1];
      StampsAreOfTheRun(ss, acts, device, n - 1, id);
      assert Moves(ss[n - 1], acts[n - 1], ss[n - 1 + 1], device);
      StepStamps(ss[n - 1], acts[n - 1], ss[n], device, id);
    }
  }

  lemma {:induction false} ClockGrows<D>(ss: seq<State<D>>, acts: seq<Action<D>>, device: Id -> D, i: nat, j: nat)
    requires Behavior(ss, acts, device) && i <= j <= |acts|
    ensures ss[i].policy.clock <= ss[j].policy.clock
    decreases j
  {
    if i < j {
      ClockGrows(ss, acts, device, i, j - 1);
      assert Moves(ss[j - 1], acts[j - 1], ss[j - 1 + 1], device);
      StepStamps(ss[j - 1], acts[j - 1], ss[j], device, 0);
    }
  }

  lemma UseTicks<D>(ss: seq<State<D>>, acts: seq<Action<D>>, device: Id -> D, id: Id, j: nat)
    requires Behavior(ss, acts, device) && 0 <= LastUse(ss, acts, id) < j <= |acts|
    ensures ss[LastUse(ss, acts, id)].policy.clock < ss[j].policy.clock
  {
    var k := LastUse(ss, acts, id);
    LastAnnouncedIs(ss, acts, id);
    LastHitIs(ss, acts, id);
    assert Moves(ss[k], acts[k], ss[k + 1], device);
    StepStamps(ss[k], acts[k], ss[k + 1], device, id);
    ClockGrows(ss, acts, device, k + 1, j);
  }

  // ---------------------------------------------------------------------------------------------
  // When the victim is the least recently used block of the run.

  /** Each other block that the policy tracks was announced or hit after `id` was. */
  ghost predicate IsLeastRecentlyUsedIn<D>(ss: seq<State<D>>, acts: seq<Action<D>>, id: Id)
    requires |ss| == |acts| + 1
  {
    forall other :: other in Tracked(ss[|acts|].policy) && other != id ==>
      LastUse(ss, acts, id) < LastUse(ss, acts, other)
  }

  /** The recorded times tell the same order as the run. */
  lemma UsedTellsLastUse<D>(ss: seq<State<D>>, acts: seq<Action<D>>, device: Id -> D, a: Id, b: Id)
    requires Behavior(ss, acts, device) && Init(ss[0]) && a in ss[|acts|].policy.used && b in ss[|acts|].policy.used
    ensures ss[|acts|].policy.used[a] < ss[|acts|].policy.used[b] <==> LastUse(ss, acts, a) < LastUse(ss, acts, b)
  {
    assert acts[..|acts|] == acts;
    StampsAreOfTheRun(ss, acts, device, |acts|, a);
    StampsAreOfTheRun(ss, acts, device, |acts|, b);
    var i, j := LastUse(ss, acts, a), LastUse(ss, acts, b);
    if i < j {
      UseTicks(ss, acts, device, a, j);
    } else {
      ClockGrows(ss, acts, device, j, i);
    }
  }

  /** If `other` was announced before the last hit of `id`, it was hit after that. */
  predicate WasHitAfter<D>(ss: seq<State<D>>, acts: seq<Action<D>>, id: Id, other: Id)
    requires |acts| <= |ss|
  {
    LastAnnounced(ss, acts, other) < LastHit(ss, acts, id) ==> LastHit(ss, acts, id) < LastHit(ss, acts, other)
  }

  /** Each other block that was announced before the last hit of `id` was itself hit after that. */
  ghost predicate OthersWereHitAfter<D>(ss: seq<State<D>>, acts: seq<Action<D>>, id: Id)
    requires |ss| == |acts| + 1
  {
    forall other :: other in Tracked(ss[|acts|].policy) && other != id ==> WasHitAfter(ss, acts, id, other)
  }

  /** The front block was announced before all others, and no step is a use of two blocks. */
  lemma FrontWasFirst<D>(ss: seq<State<D>>, acts: seq<Action<D>>, device: Id -> D, other: Id)
    requires Behavior(ss, acts, device) && Init(ss[0])
    requires var p := ss[|acts|].policy; p.kind.LRU? && p.list != [] && other in Tracked(p) && other != p.list[0]
    ensures var front := ss[|acts|].policy.list[0];
            && LastAnnounced(ss, acts, front) < LastAnnounced(ss, acts, other) != LastHit(ss, acts, front)
            && (LastHit(ss, acts, front) != LastHit(ss, acts, other) || LastHit(ss, acts, front) == -1)
  {
    var p := ss[|acts|].policy;
    var front, tracked := p.list[0], Tracked(p);
    var a, b := LastAnnounced(ss, acts, front), LastAnnounced(ss, acts, other);
    assert p.stamps[front] < p.stamps[other] && front in p.stamps && other in p.stamps by {
      BehaviorKeepsInv(ss, acts, device);
      assert tracked[0] == front && tracked[0] in tracked;
      var j :| 0 <= j < |tracked| && tracked[j] == other;
    }
    assert acts[..|acts|] == acts;
    StampsAreOfTheRun(ss, acts, device, |acts|, front);
    StampsAreOfTheRun(ss, acts, device, |acts|, other);
    if b <= a {
      ClockGrows(ss, acts, device, b, a);
    }
    LastAnnouncedIs(ss, acts, other);
    LastHitIs(ss, acts, front);
    LastHitIs(ss, acts, other);
  }

  /**
   In every run: the front block, which is the next victim, is the least recently used one if and only if each other
   tracked block that was announced before the front's last hit has had a later hit. Without hits on the front it
   always is.
   */
  lemma VictimIsLeastRecentlyUsedExactly<D>(ss: seq<State<D>>, acts: seq<Action<D>>, device: Id -> D)
    requires Behavior(ss, acts, device) && Init(ss[0])
    requires ss[|acts|].policy.kind.LRU? && ss[|acts|].policy.list != []
    ensures var front := ss[|acts|].policy.list[0];
            IsLeastRecentlyUsedIn(ss, acts, front) <==> OthersWereHitAfter(ss, acts, front)
  {
    var front := ss[|acts|].policy.list[0];
    forall other | other in Tracked(ss[|acts|].policy) && other != front
      ensures LastUse(ss, acts, front) < LastUse(ss, acts, other) <==> WasHitAfter(ss, acts, front, other)
    {
      FrontWasFirst(ss, acts, device, other);
    }
  }

  lemma HitMakesMostRecent(p: Policy, id: Id)
    requires InOrder(p) && id in Tracked(p)
    ensures IsMostRecentlyUsed(Touch(p, id), id)
    ensures |Tracked(p)| > 1 ==> !IsLeastRecentlyUsed(Touch(p, id), id)
  {
    var p', tracked := Touch(p, id), Tracked(p);
    assert Tracked(p') == tracked;
    if |tracked| > 1 {
      assert p.stamps[tracked[0]] < p.stamps[tracked[1]];
      var other := if tracked[0] == id then tracked[1] else tracked[0];
      assert other in tracked && other != id;
    }
  }

  /**
   From every reachable state with a full cache and at least two tracked blocks, one of them on the list: a hit on the
   front block and a miss on any other, and the block that goes is the one used last of all.
   */
  lemma EvictsTheMostRecentlyUsed<D>(ss: seq<State<D>>, acts: seq<Action<D>>, device: Id -> D, block: Block<D>)
    returns (ss': seq<State<D>>, acts': seq<Action<D>>)
    requires Behavior(ss, acts, device) && Init(ss[0]) && block.data == device(block.id)
    requires var s := ss[|acts|];
             && s.store.phase.Unlocked? && |s.store.cache| >= s.store.size
             && s.policy.kind.LRU? && s.policy.list != [] && |Tracked(s.policy)| > 1
    ensures Behavior(ss', acts', device) && ss <= ss' && |acts'| == |acts| + 3 && acts'[|acts| + 2] == SelectVictim(0)
    ensures var s, victim := ss'[|acts| + 2], ss[|acts|].policy.list[0];
            && ss'[|acts'|].store.phase == Removing(block, AReader, victim)
            && IsMostRecentlyUsed(s.policy, victim) && !IsLeastRecentlyUsed(s.policy, victim)
  {
    BehaviorKeepsInv(ss, acts, device);
    var s := ss[|acts|];
    var victim := s.policy.list[0];
    assert Tracked(s.policy)[0] == victim;
    HitMakesMostRecent(s.policy, victim);
    ss', acts' := Then(ss, acts, ReadHit(victim, s.store.cache[victim]), device);
    ss', acts' := Then(ss', acts', ReadMissed(block), device);
    ss', acts' := Then(ss', acts', SelectVictim(0), device);
  }

  /** One block read on a fresh cache, up to the announcement. */
  lemma Announces<D>(ss: seq<State<D>>, acts: seq<Action<D>>, device: Id -> D, id: Id)
    returns (ss': seq<State<D>>, acts': seq<Action<D>>)
    requires Behavior(ss, acts, device) && ss[|acts|].store.phase.Unlocked?
    requires var s := ss[|acts|];
             |s.store.cache| < s.store.size && id !in s.store.cache && HasRoom(s.policy.queue)
    ensures Behavior(ss', acts', device) && ss'[0] == ss[0]
    ensures var s, s' := ss[|acts|], ss'[|acts'|];
            && s'.policy == Announce(s.policy, id)
            && s'.store == s.store.(cache := s.store.cache[id := device(id)], phase := Unlocked)
  {
    ss', acts' := Then(ss, acts, ReadMissed(Block(id, device(id))), device);
    ss', acts' := Then(ss', acts', Decide, device);
    ss', acts' := Then(ss', acts', InsertedOk, device);
    ss', acts' := Then(ss', acts', Fill, device);
  }

  /** A fresh cache for two blocks with the first of them in it, and on the policy's list. */
  lemma FreshCacheWithOne<D>(device: Id -> D) returns (ss: seq<State<D>>, acts: seq<Action<D>>)
    ensures Behavior(ss, acts, device) && Init(ss[0])
    ensures ss[|acts|].store == Store(2, map[0 := device(0)], Unlocked)
    ensures var queue := Channel(16, 0, false, [0], Attached(1, 1), map[]);
            ss[|acts|].policy == Policy(LRU, [0], None, queue, {}, map[0 := 0], map[0 := 0], 1)
  {
    var queue: Channel<Id> := Channel(16, 0, false, [], Attached(1, 0), map[]);
    var policy := Policy(LRU, [], None, queue, {}, map[], map[], 0);
    ss, acts := [State(Store(2, map[], Unlocked), policy, Desk(Selecting, map[], multiset{}, [], [], []))], [];
    ss, acts := Announces(ss, acts, device, 0);
    assert Pending(ss[|acts|].policy.queue) == [0];
    ss, acts := Then(ss, acts, PolicyReceive, device);
    ss, acts := Then(ss, acts, PolicyPush, device);
  }

  /** It happens once the second is in as well. */
  lemma FreshCacheEvictsTheMostRecentlyUsed<D>(device: Id -> D)
    returns (ss: seq<State<D>>, acts: seq<Action<D>>)
    ensures Behavior(ss, acts, device) && Init(ss[0]) && |acts| > 0 && acts[|acts| - 1] == SelectVictim(0)
    ensures ss[|acts|].store.phase.Removing?
         && IsMostRecentlyUsed(ss[|acts| - 1].policy, ss[|acts|].store.phase.victim)
         && !IsLeastRecentlyUsed(ss[|acts| - 1].policy, ss[|acts|].store.phase.victim)
  {
    ss, acts := FreshCacheWithOne(device);
    ss, acts := Announces(ss, acts, device, 1);
    assert Pending(ss[|acts|].policy.queue) == [1];
    assert ss[|acts|].store.cache.Keys == {0, 1};
    ss, acts := EvictsTheMostRecentlyUsed(ss, acts, device, Block(2, device(2)));
  }
}
