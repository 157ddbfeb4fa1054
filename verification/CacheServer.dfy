/**
 The cache server's methods in their own shape, on its own fields, with the policy's thread free to run between
 any two regions of the policy's server. Each method only ever takes steps of `CacheProtocol`.
 */
module CacheServer {
  import opened Wrappers
  import opened QueueSpec
  import opened CacheProtocol
  import opened CacheProofs
  import opened EvictionServer
  import Runs

  ghost function Stepping<D>(device: Id -> D): (State<D>, Action<D>, State<D>) -> bool {
    (s, a, s') => Moves(s, a, s', device)
  }

  /** A run of the protocol from fresh servers. */
  ghost predicate IsRun<D>(ss: seq<State<D>>, acts: seq<Action<D>>, device: Id -> D) {
    Runs.IsRun(Stepping(device), ss, acts) && Init(ss[0])
  }

  lemma RunIsBehavior<D>(ss: seq<State<D>>, acts: seq<Action<D>>, device: Id -> D)
    requires IsRun(ss, acts, device)
    ensures Behavior(ss, acts, device) && Init(ss[0])
  {
    forall i | 0 <= i < |acts|
      ensures Moves(ss[i], acts[i], ss[i + 1], device)
    {
      Runs.StepOf(Stepping(device), ss, acts, i);
    }
  }

  /** What the policy lists while a victim is wanted is in the cache. */
  lemma ListedIsCached<D>(ss: seq<State<D>>, acts: seq<Action<D>>, device: Id -> D, i: nat)
    requires IsRun(ss, acts, device)
    requires ss[|acts|].store.phase.Evicting? && i < |ss[|acts|].policy.list|
    ensures ss[|acts|].policy.list[i] in ss[|acts|].store.cache
  {
    RunIsBehavior(ss, acts, device);
    BehaviorKeepsInv(ss, acts, device);
    var p := ss[|acts|].policy;
    assert Tracked(p)[i] == p.list[i];
  }

  lemma CachedIsTrue<D>(ss: seq<State<D>>, acts: seq<Action<D>>, device: Id -> D, id: Id)
    requires IsRun(ss, acts, device) && id in ss[|acts|].store.cache
    ensures ss[|acts|].store.cache[id] == device(id) && |ss[|acts|].store.cache| <= ss[|acts|].store.size
  {
    RunIsBehavior(ss, acts, device);
    BehaviorKeepsInv(ss, acts, device);
  }

  /** A cache after the insertion of a block, with what is left in it after the eviction. */
  function Inserted<D>(left: map<Id, D>, size: nat, block: Block<D>): map<Id, D> {
    if |left| >= size || block.id in left then left else left[block.id := block.data]
  }

  /**
   Reading a block that is in a full cache by the time it is to be inserted: the cache stays as it was if and only if no
   victim was found, or the victim was the block itself, which is then put back; any other victim is gone for nothing.
   */
  lemma CachedBlockCostsAVictimExactly<D>(cache: map<Id, D>, size: nat, block: Block<D>, victim: Option<Id>)
    requires |cache| == size && block.id in cache && cache[block.id] == block.data
    requires victim.Some? ==> victim.value in cache
    ensures Inserted(if victim.Some? then cache - {victim.value} else cache, size, block) == cache
       <==> victim.None? || victim.value == block.id
    ensures victim.Some? && victim.value != block.id ==>
              Inserted(cache - {victim.value}, size, block) == cache - {victim.value}
  {
    if victim.Some? {
      var left := cache - {victim.value};
      assert cache.Keys == left.Keys + {victim.value};
      assert |cache.Keys| == |left.Keys| + 1;
    }
  }

  lemma CacheIsWithinSize<D>(ss: seq<State<D>>, acts: seq<Action<D>>, device: Id -> D)
    requires IsRun(ss, acts, device)
    ensures |ss[|acts|].store.cache| <= ss[|acts|].store.size
  {
    RunIsBehavior(ss, acts, device);
    BehaviorKeepsInv(ss, acts, device);
  }

  /** The block is in after the insertion exactly when it was, or there was room, or a victim made room; others stay. */
  lemma InsertionFits<D>(cache: map<Id, D>, size: nat, block: Block<D>, victim: Option<Id>)
    requires |cache| <= size && (victim.Some? ==> victim.value in cache)
    requires block.id in cache ==> cache[block.id] == block.data
    ensures var left := if victim.Some? then cache - {victim.value} else cache;
            var after := Inserted(left, size, block);
            && |after| <= size && (block.id in after ==> after[block.id] == block.data)
            && (block.id !in cache ==> (block.id in after <==> |cache| < size || victim.Some?))
            && (forall id :: id != block.id ==> (id in after <==> id in cache && victim != Some(id)))
  {
    var left := if victim.Some? then cache - {victim.value} else cache;
    if victim.Some? {
      assert cache.Keys == left.Keys + {victim.value};
      assert |cache.Keys| == |left.Keys| + 1;
    }
    if block.id !in left && |left| < size {
      assert left[block.id := block.data].Keys == left.Keys + {block.id};
    }
  }

  /** How the two calls to the policy's server end, and the random policy's number. */
  datatype Luck = Luck(selectFails: bool, insertedFails: bool, roll: nat)

  class Cache<D(==)> {
    const size: nat
    const underlying: Id -> D  // the device below
    var cache: map<Id, D>
    var outstanding: map<Id, seq<Ticket>>
    const policy: PolicyServer  // the other server
    ghost var phase: Phase<D>
    ghost var work: Work<D>
    var asked: seq<Id>            // the requests received; a ticket stands for a request's reply handle
    var answers: seq<Answer<D>>   // the replies sent
    var dispatched: seq<Id>       // the requests sent to the device below
    ghost var inFlight: multiset<Id>  // those it has not replied to
    ghost var states: seq<State<D>>
    ghost var acts: seq<Action<D>>

    ghost function Abs(): State<D>
      reads this, policy, policy.lru, policy.random
    {
      State(Store(size, cache, phase), policy.Abs(), Desk(work, outstanding, inFlight, asked, answers, dispatched))
    }

    /** The server is in the last state of the run recorded so far. */
    ghost predicate Valid()
      reads this, policy, policy.lru, policy.random
    {
      policy.Valid() && IsRun(states, acts, underlying) && states[|acts|] == Abs()
    }

    constructor (size: nat, underlying: Id -> D, policy: PolicyServer)
      requires policy.Valid() && policy.queue.history == [] && policy.held.None? && policy.Listed() == []
      requires policy.leaked == {} && policy.stamps == map[] && policy.used == map[] && policy.clock == 0
      ensures Valid() && this.size == size && this.underlying == underlying && cache == map[] && outstanding == map[]
      ensures phase.Unlocked? && work.Selecting? && Init(Abs())
    {
      this.size, this.underlying, this.policy := size, underlying, policy;
      cache, outstanding := map[], map[];
      phase, work, asked, answers, dispatched, inFlight := Unlocked, Selecting, [], [], [], multiset{};
      new;
      states, acts := [Abs()], [];
    }

    /** Records that the fields have just taken step `a`. */
    ghost method Record(a: Action<D>)
      requires policy.Valid() && IsRun(states, acts, underlying)
      requires Moves(states[|acts|], a, Abs(), underlying)
      modifies this`states, this`acts
      ensures Valid() && acts == old(acts) + [a]
    {
      Runs.Grows(Stepping(underlying), states, acts, a, Abs());
      states, acts := states + [Abs()], acts + [a];
    }

    /** One region of the policy's own thread: it pushes the block it holds, or else receives the next one. */
    method PolicyThreadTurn()
      requires Valid() && (policy.held.Some? || Pending(policy.queue) != [])
      modifies this`states, this`acts, policy, policy.lru, policy.random
      ensures Valid() && old(acts) <= acts && policy.leaked == old(policy.leaked)
      ensures old(policy.Listed()) <= policy.Listed()
      ensures if old(policy.held).Some? then policy.held.None? && policy.queue == old(policy.queue)
              else policy.held.Some? && |Pending(policy.queue)| == |Pending(old(policy.queue))| - 1
    {
      if policy.held.Some? {
        policy.Push();
        Record(PolicyPush);
      } else {
        policy.Receive();
        Record(PolicyReceive);
      }
    }

    /** The policy's thread runs on as far as it likes. */
    method PolicyThreadRuns()
      requires Valid()
      modifies this`states, this`acts, policy, policy.lru, policy.random
      ensures Valid() && old(acts) <= acts && policy.leaked == old(policy.leaked)
      ensures old(policy.Listed()) <= policy.Listed()
    {
      var turns: seq<bool> := *;
      for n := 0 to |turns|
        invariant Valid() && old(acts) <= acts && policy.leaked == old(policy.leaked)
        invariant old(policy.Listed()) <= policy.Listed()
      {
        if policy.held.Some? || Pending(policy.queue) != [] {
          PolicyThreadTurn();
        }
      }
    }

    /** The wait in `send`: nobody but the policy's thread can make room, and it does so in two turns. */
    method AwaitRoom()
      requires Valid()
      modifies this`states, this`acts, policy, policy.lru, policy.random
      ensures Valid() && old(acts) <= acts && policy.leaked == old(policy.leaked) && HasRoom(policy.queue)
    {
      while !HasRoom(policy.queue)
        invariant Valid() && old(acts) <= acts && policy.leaked == old(policy.leaked)
        decreases |Pending(policy.queue)|, policy.held.Some?
      {
        policy.FullIsPending();
        PolicyThreadTurn();
      }
    }

    /** `select_victim`. `fails` and `roll` stand for a failing call and for the policy's random number. */
    method AskForVictim(fails: bool, roll: nat) returns (victim: Option<Id>)
      requires Valid() && phase.Evicting?
      modifies this`phase, this`states, this`acts, policy.lru, policy.random
      ensures Valid() && old(acts) <= acts
      ensures victim.None? <==> fails || old(policy.Listed()) == []
      ensures victim.Some? && policy.kind.LRU? ==> victim.value == old(policy.Listed())[0]
      ensures victim.None? ==> phase == Deciding(old(phase).block, old(phase).owner)
      ensures victim.Some? ==>
                phase == Removing(old(phase).block, old(phase).owner, victim.value) && victim.value in cache
    {
      victim := None;
      ghost var index := 0;
      if !fails {
        victim, index := policy.SelectVictim(roll);
      }
      if victim.None? {
        phase := Deciding(phase.block, phase.owner);
        Record(SelectFails);
      } else {
        ListedIsCached(states, acts, underlying, index);
        phase := Removing(phase.block, phase.owner, victim.value);
        Record(SelectVictim(index));
      }
    }

    method RemoveEntry(k: Id)
      requires Valid() && phase.Removing? && phase.victim == k
      modifies this`cache, this`phase, this`states, this`acts, policy, policy.lru, policy.random
      ensures Valid() && old(acts) <= acts && phase == Deciding(old(phase).block, old(phase).owner)
      ensures cache == old(cache) - {k}
    {
      PolicyThreadRuns();
      cache := cache - {k};
      phase := Deciding(phase.block, phase.owner);
      Record(RemoveVictim);
    }

    method EvictBlock(fails: bool, roll: nat) returns (victim: Option<Id>)
      requires Valid() && phase.Evicting?
      modifies this`cache, this`phase, this`states, this`acts, policy, policy.lru, policy.random
      ensures Valid() && old(acts) <= acts && phase == Deciding(old(phase).block, old(phase).owner)
      ensures !fails && old(policy.Listed()) != [] ==> victim.Some?
      ensures fails ==> victim.None?
      ensures victim.Some? && old(policy.Listed()) != [] && policy.kind.LRU? ==> victim.value == old(policy.Listed())[0]
      ensures victim.None? ==> cache == old(cache)
      ensures victim.Some? ==> victim.value in old(cache) && cache == old(cache) - {victim.value}
    {
      PolicyThreadRuns();
      assert old(policy.Listed()) != [] ==> policy.Listed()[0] == old(policy.Listed())[0];
      victim := AskForVictim(fails, roll);
      if victim.Some? {
        RemoveEntry(victim.value);
      }
    }

    /** The lock is taken and the length checked for the first time. */
    ghost method Begin(block: Block<D>, owner: Owner)
      requires Valid() && phase.Unlocked? && block.data == underlying(block.id)
      requires owner.TheHandler? ==> work.Selecting? && block.id in inFlight
      modifies this`phase, this`work, this`inFlight, this`states, this`acts
      ensures Valid() && old(acts) < acts
      ensures phase == if |cache| >= size then Evicting(block, owner) else Deciding(block, owner)
      ensures work == if owner.TheHandler? then Inserting(block) else old(work)
      ensures acts == old(acts) + [if owner.TheHandler? then Reply(block) else ReadMissed(block)]
    {
      phase := if |cache| >= size then Evicting(block, owner) else Deciding(block, owner);
      if owner.TheHandler? {
        work := Inserting(block);
        inFlight := inFlight - multiset{block.id};
        Record(Reply(block));
      } else {
        Record(ReadMissed(block));
      }
    }

    /** The second length check and the look at the entry. */
    method DecideToInsert(block: Block<D>, owner: Owner) returns (vacant: bool)
      requires Valid() && phase == Deciding(block, owner) && (owner.TheHandler? ==> work == Inserting(block))
      modifies this`phase, this`work, this`states, this`acts
      ensures Valid() && old(acts) <= acts && vacant == (|cache| < size && block.id !in cache)
      ensures vacant ==> phase == Announcing(block, owner) && work == old(work)
      ensures !vacant ==> phase.Unlocked? && work == if owner.TheHandler? then Answering(block) else old(work)
    {
      vacant := |cache| < size && block.id !in cache;
      if vacant {
        phase := Announcing(block, owner);
      } else {
        phase := Unlocked;
        if owner.TheHandler? {
          work := Answering(block);
        }
      }
      Record(Decide);
    }

    method FillEntry(block: Block<D>, owner: Owner)
      requires Valid() && phase == Filling(block, owner) && (owner.TheHandler? ==> work == Inserting(block))
      modifies this`cache, this`phase, this`work, this`states, this`acts, policy, policy.lru, policy.random
      ensures Valid() && old(acts) <= acts && phase.Unlocked? && cache == old(cache)[block.id := block.data]
      ensures work == if owner.TheHandler? then Answering(block) else old(work)
    {
      PolicyThreadRuns();
      cache := cache[block.id := block.data];
      phase := Unlocked;
      if owner.TheHandler? {
        work := Answering(block);
      }
      Record(Fill);
    }

    /**
     `insert_cached_block`. The block goes in when there is room for it after at most one eviction; an entry
     that is already there is kept as it is.
     */
    method InsertCachedBlock(block: Block<D>, owner: Owner, luck: Luck) returns (evicted: Option<Id>)
      requires Valid() && phase.Unlocked? && block.data == underlying(block.id)
      requires owner.TheHandler? ==> work.Selecting? && block.id in inFlight
      modifies this`inFlight, this`cache, this`phase, this`work, this`states, this`acts
      modifies policy, policy.lru, policy.random
      ensures Valid() && phase.Unlocked? && old(acts) < acts
      ensures work == if owner.TheHandler? then Answering(block) else old(work)
      ensures evicted.Some? ==> |old(cache)| >= size && evicted.value in old(cache)
      ensures |old(cache)| >= size && !luck.selectFails && old(policy.Listed()) != [] ==>
                evicted.Some? && (policy.kind.LRU? ==> evicted.value == old(policy.Listed())[0])
      ensures cache == Inserted(if evicted.Some? then old(cache) - {evicted.value} else old(cache), size, block)
      ensures block.id in old(cache) && luck.selectFails ==> cache == old(cache)
      ensures block.id in old(cache) && |old(cache)| >= size && !luck.selectFails && old(policy.Listed()) != [] ==>
                (cache == old(cache) <==> evicted == Some(block.id))
                && (policy.kind.LRU? ==> (cache == old(cache) <==> old(policy.Listed())[0] == block.id))
      ensures acts[|old(acts)|] == if owner.TheHandler? then Reply(block) else ReadMissed(block)
      ensures |cache| <= size && (block.id in cache ==> cache[block.id] == block.data)
      ensures block.id !in old(cache) ==> (block.id in cache <==> |old(cache)| < size || evicted.Some?)
      ensures forall id :: id != block.id ==> (id in cache <==> id in old(cache) && evicted != Some(id))
    {
      CacheIsWithinSize(states, acts, underlying);
      if block.id in cache {
        CachedIsTrue(states, acts, underlying, block.id);
      }
      evicted := MakeRoom(block, owner, luck);
      InsertIfVacant(block, owner, luck.insertedFails);
      if block.id in old(cache) && |old(cache)| >= size && evicted.Some? {
        CachedBlockCostsAVictimExactly(old(cache), size, block, evicted);
      }
      InsertionFits(old(cache), size, block, evicted);
    }

    /** The part up to the eviction. */
    method MakeRoom(block: Block<D>, owner: Owner, luck: Luck) returns (evicted: Option<Id>)
      requires Valid() && phase.Unlocked? && block.data == underlying(block.id)
      requires owner.TheHandler? ==> work.Selecting? && block.id in inFlight
      modifies this`inFlight, this`cache, this`phase, this`work, this`states, this`acts
      modifies policy, policy.lru, policy.random
      ensures Valid() && phase == Deciding(block, owner) && old(acts) < acts
      ensures work == if owner.TheHandler? then Inserting(block) else old(work)
      ensures evicted.Some? ==> |old(cache)| >= size && evicted.value in old(cache)
      ensures |old(cache)| >= size && luck.selectFails ==> evicted.None?
      ensures |old(cache)| >= size && !luck.selectFails && old(policy.Listed()) != [] ==>
                evicted.Some? && (policy.kind.LRU? ==> evicted.value == old(policy.Listed())[0])
      ensures cache == if evicted.Some? then old(cache) - {evicted.value} else old(cache)
      ensures acts[|old(acts)|] == if owner.TheHandler? then Reply(block) else ReadMissed(block)
    {
      Begin(block, owner);
      evicted := None;
      if |cache| >= size {
        evicted := EvictBlock(luck.selectFails, luck.roll);
      }
    }

    /** The part after the eviction. */
    method InsertIfVacant(block: Block<D>, owner: Owner, fails: bool)
      requires Valid() && phase == Deciding(block, owner) && (owner.TheHandler? ==> work == Inserting(block))
      modifies this`cache, this`phase, this`work, this`states, this`acts, policy, policy.lru, policy.random
      ensures Valid() && phase.Unlocked? && old(acts) <= acts && cache == Inserted(old(cache), size, block)
      ensures work == if owner.TheHandler? then Answering(block) else old(work)
    {
      PolicyThreadRuns();
      var vacant := DecideToInsert(block, owner);
      if vacant {
        InsertVacant(block, owner, fails);
      }
    }

    method InsertVacant(block: Block<D>, owner: Owner, fails: bool)
      requires Valid() && phase == Announcing(block, owner) && (owner.TheHandler? ==> work == Inserting(block))
      modifies this`cache, this`phase, this`work, this`states, this`acts, policy, policy.lru, policy.random
      ensures Valid() && phase.Unlocked? && old(acts) <= acts && cache == old(cache)[block.id := block.data]
      ensures work == if owner.TheHandler? then Answering(block) else old(work)
    {
      AnnounceInserted(block, owner, fails);
      FillEntry(block, owner);
    }

    /** The call to the policy's `inserted`, which waits until its queue has room. */
    method AnnounceInserted(block: Block<D>, owner: Owner, fails: bool)
      requires Valid() && phase == Announcing(block, owner)
      modifies this`phase, this`states, this`acts, policy, policy.lru, policy.random
      ensures Valid() && old(acts) <= acts && phase == Filling(block, owner)
      ensures policy.leaked == if fails then old(policy.leaked) + {block.id} else old(policy.leaked)
    {
      PolicyThreadRuns();
      if fails {
        LeakBlock(block, owner);
      } else {
        AwaitRoom();
        Announce(block, owner);
      }
    }

    method LeakBlock(block: Block<D>, owner: Owner)
      requires Valid() && phase == Announcing(block, owner)
      modifies this`phase, this`states, this`acts, policy`leaked
      ensures Valid() && old(acts) <= acts && phase == Filling(block, owner)
      ensures policy.leaked == old(policy.leaked) + {block.id}
    {
      policy.Leak(block.id);
      phase := Filling(block, owner);
      Record(InsertedFails);
    }

    method Announce(block: Block<D>, owner: Owner)
      requires Valid() && phase == Announcing(block, owner) && HasRoom(policy.queue)
      modifies this`phase, this`states, this`acts, policy
      ensures Valid() && old(acts) <= acts && phase == Filling(block, owner) && policy.leaked == old(policy.leaked)
    {
      policy.Inserted(block.id);
      phase := Filling(block, owner);
      Record(InsertedOk);
    }

    /** `read`: whatever is or gets cached, the caller receives the device's data for the block it asked for. */
    method Read(id: Id, luck: Luck) returns (block: Block<D>)
      requires Valid() && phase.Unlocked?
      modifies this`inFlight, this`cache, this`phase, this`work, this`states, this`acts
      modifies policy, policy.lru, policy.random
      ensures Valid() && phase.Unlocked? && old(acts) < acts && work == old(work)
      ensures block == Block(id, underlying(id))
      ensures id in old(cache) ==> cache == old(cache) && acts == old(acts) + [ReadHit(id, underlying(id))]
      ensures id !in old(cache) ==> id in cache || |cache| == size
      ensures id !in old(cache) ==> ReadMissed(block) in acts[|old(acts)|..]
    {
      if id in cache {
        CachedIsTrue(states, acts, underlying, id);
        policy.Hit(id);
        Record(ReadHit(id, cache[id]));
        return Block(id, cache[id]);
      }
      OthersRead();
      block := Block(id, underlying(id));
      ghost var i := |acts|;
      var _ := InsertCachedBlock(block, AReader, luck);
      assert acts[|old(acts)|..][i - |old(acts)|] == ReadMissed(block);
    }

    /** Other readers miss and insert while this one reads the device without the lock. */
    method OthersRead()
      requires Valid() && phase.Unlocked?
      modifies this`inFlight, this`cache, this`phase, this`work, this`states, this`acts
      modifies policy, policy.lru, policy.random
      ensures Valid() && phase.Unlocked? && old(acts) <= acts && work == old(work)
    {
      var calls: seq<(Id, Luck)> := *;
      for n := 0 to |calls|
        invariant Valid() && phase.Unlocked? && old(acts) <= acts && work == old(work)
      {
        var _ := InsertCachedBlock(Block(calls[n].0, underlying(calls[n].0)), AReader, calls[n].1);
      }
    }

    /** `send_underlying_request`. */
    method SendUnderlyingRequest(id: Id)
      modifies this`dispatched, this`inFlight
      ensures Desk(work, outstanding, inFlight, asked, answers, dispatched)
           == SendUnderlying(
                Desk(work, outstanding, old(inFlight), asked, answers, old(dispatched)), Store(size, cache, phase), id)
    {
      if id !in outstanding && id !in cache {
        dispatched := dispatched + [id];
        inFlight := inFlight + multiset{id};
      }
    }

    /** `handle_request`: a hit is answered at once, a miss is filed under its block, and neither asks the device. */
    method HandleRequest(id: Id)
      requires Valid() && phase.Unlocked? && work.Selecting?
      modifies this`outstanding, this`asked, this`answers, this`dispatched, this`inFlight, this`states, this`acts
      modifies policy`used, policy`clock
      ensures Valid() && acts == old(acts) + [Request(id)] && asked == old(asked) + [id]
      ensures id in cache ==> answers == old(answers) + [Answer(|old(asked)|, Block(id, underlying(id)))]
      ensures id in cache ==> outstanding == old(outstanding)
      ensures id !in cache ==> answers == old(answers) && IsWaiting(Abs().desk, |old(asked)|)
      ensures dispatched == old(dispatched) && inFlight == old(inFlight)
    {
      if id in cache {
        AnswerHit(id);
      } else {
        FileMiss(id);
      }
    }

    method AnswerHit(id: Id)
      requires Valid() && phase.Unlocked? && work.Selecting? && id in cache
      modifies this`asked, this`answers, this`states, this`acts, policy`used, policy`clock
      ensures Valid() && acts == old(acts) + [Request(id)] && asked == old(asked) + [id]
      ensures answers == old(answers) + [Answer(|old(asked)|, Block(id, underlying(id)))]
    {
      CachedIsTrue(states, acts, underlying, id);
      policy.Hit(id);
      answers := answers + [Answer(|asked|, Block(id, cache[id]))];
      asked := asked + [id];
      Record(Request(id));
    }

    method FileMiss(id: Id)
      requires Valid() && phase.Unlocked? && work.Selecting? && id !in cache
      modifies this`outstanding, this`asked, this`dispatched, this`inFlight, this`states, this`acts
      ensures Valid() && acts == old(acts) + [Request(id)] && asked == old(asked) + [id]
      ensures IsWaiting(Abs().desk, |old(asked)|) && dispatched == old(dispatched) && inFlight == old(inFlight)
      ensures outstanding == old(outstanding)[id := Waiting(old(Abs().desk), id) + [|old(asked)|]]
    {
      var waiting := if id in outstanding then outstanding[id] else [];
      outstanding := outstanding[id := waiting + [|asked|]];
      asked := asked + [id];
      SendUnderlyingRequest(id);
      Record(Request(id));
      assert outstanding[id][|waiting|] == |old(asked)|;
    }

    /** The handler's branch for a prefetch request. */
    method HandlePrefetch(id: Id)
      requires Valid() && phase.Unlocked? && work.Selecting?
      modifies this`dispatched, this`inFlight, this`states, this`acts
      ensures Valid() && acts == old(acts) + [Prefetch(id)]
      ensures dispatched == old(dispatched) + if id !in outstanding && id !in cache then [id] else []
    {
      SendUnderlyingRequest(id);
      Record(Prefetch(id));
    }

    /** `handle_reply`: insert the block, then send it to each of its waiters in order. */
    method HandleReply(block: Block<D>, luck: Luck)
      requires Valid() && phase.Unlocked? && work.Selecting?
      requires block.id in inFlight && block.data == underlying(block.id)
      modifies this, policy, policy.lru, policy.random
      ensures Valid() && phase.Unlocked? && work.Selecting? && old(acts) < acts
      ensures outstanding == old(outstanding) - {block.id} && asked == old(asked) && dispatched == old(dispatched)
      ensures var w := if block.id in old(outstanding) then old(outstanding)[block.id] else [];
              && |answers| == |old(answers)| + |w| && old(answers) <= answers
              && answers == old(answers) + AnswerAll(w, block)
              && forall k :: 0 <= k < |w| ==> answers[|old(answers)| + k] == Answer(w[k], block)
      ensures acts[|old(acts)|] == Reply(block)
    {
      ghost var w := if block.id in outstanding then outstanding[block.id] else [];
      InsertReply(block, luck);
      AnswerTheWaiters(block);
      assert answers == old(answers) + AnswerAll(w, block);
    }

    method InsertReply(block: Block<D>, luck: Luck)
      requires Valid() && phase.Unlocked? && work.Selecting?
      requires block.id in inFlight && block.data == underlying(block.id)
      modifies this`inFlight, this`cache, this`phase, this`work, this`states, this`acts
      modifies policy, policy.lru, policy.random
      ensures Valid() && phase.Unlocked? && work == Answering(block)
      ensures old(acts) < acts && acts[|old(acts)|] == Reply(block)
    {
      var _ := InsertCachedBlock(block, TheHandler, luck);
      OthersRead();
    }

    method AnswerTheWaiters(block: Block<D>)
      requires Valid() && work == Answering(block)
      modifies this`outstanding, this`work, this`answers, this`states, this`acts
      ensures Valid() && work.Selecting? && old(acts) < acts && outstanding == old(outstanding) - {block.id}
      ensures var w := if block.id in old(outstanding) then old(outstanding)[block.id] else [];
              answers == old(answers) + AnswerAll(w, block)
    {
      var waiters := if block.id in outstanding then outstanding[block.id] else [];
      outstanding := outstanding - {block.id};
      SendToAll(waiters, block);
      work := Selecting;
      Record(AnswerWaiters);
    }

    method SendToAll(waiters: seq<Ticket>, block: Block<D>)
      modifies this`answers
      ensures answers == old(answers) + AnswerAll(waiters, block)
      ensures |answers| == |old(answers)| + |waiters|
      ensures forall k :: 0 <= k < |waiters| ==> answers[|old(answers)| + k] == Answer(waiters[k], block)
    {
      var k := 0;
      while k < |waiters|
        invariant 0 <= k <= |waiters| && answers == old(answers) + AnswerAll(waiters[..k], block)
      {
        answers := answers + [Answer(waiters[k], block)];
        k := k + 1;
      }
      assert waiters[..k] == waiters;
    }
  }
}
