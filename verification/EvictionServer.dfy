/** The server of an eviction policy: its list, the queue it hears of insertions on, and the thread in between. */
module EvictionServer {
  import opened Wrappers
  import opened QueueSpec
  import opened EvictionPolicy
  import opened CacheProtocol

  class PolicyServer {
    const kind: PolicyKind
    const lru: LeastRecentlyUsed  // the list, if it is the first policy
    const random: RandomPolicy    // the list, if it is the second
    var held: Option<Id>          // received by the thread, not pushed yet
    var queue: Channel<Id>
    ghost var leaked: set<Id>
    ghost var stamps: map<Id, nat>
    ghost var used: map<Id, nat>
    ghost var clock: nat

    ghost function Listed(): seq<Id>
      reads lru, random
    {
      if kind.LRU? then lru.blocksInCache else random.blocksInCache
    }

    ghost function Abs(): Policy
      reads this, lru, random
    {
      Policy(kind, Listed(), held, queue, leaked, stamps, used, clock)
    }

    /** The thread lives, and it is the only reader of a queue that has room for at least one value. */
    ghost predicate Valid()
      reads this
    {
      WellFormed(queue) && queue.receivers.Attached? && queue.observers == map[] && 2 <= queue.capacity
    }

    constructor (kind: PolicyKind, capacity: nat)
      requires 2 <= capacity
      ensures Valid() && fresh(lru) && fresh(random)
      ensures Abs() == Policy(kind, [], None, queue, {}, map[], map[], 0)
      ensures queue == Channel(capacity, 0, false, [], Attached(1, 0), map[])
    {
      this.kind := kind;
      lru := new LeastRecentlyUsed();
      random := new RandomPolicy();
      held, queue := None, Channel(capacity, 0, false, [], Attached(1, 0), map[]);
      leaked, stamps, used, clock := {}, map[], map[], 0;
    }

    /** `roll` stands for the random policy's number. */
    method SelectVictim(roll: nat) returns (victim: Option<Id>, ghost index: nat)
      requires Valid()
      modifies lru, random
      ensures victim.None? <==> old(Abs()).list == []
      ensures victim.None? ==> Abs() == old(Abs())
      ensures victim.Some? ==> CanSelect(old(Abs()), index) && victim.value == old(Abs()).list[index]
      ensures victim.Some? ==> Abs() == Select(old(Abs()), index)
    {
      index := 0;
      if kind.LRU? {
        victim := lru.SelectVictim();
      } else {
        victim := random.SelectVictim(roll);
        index := if victim.Some? then roll % |old(random.blocksInCache)| else 0;
      }
    }

    /** `inserted`, once the queue has room. */
    method Inserted(id: Id)
      requires Valid() && HasRoom(queue)
      modifies this
      ensures Valid() && Abs() == Announce(old(Abs()), id)
    {
      NextKeepsWellFormed(queue, Sent(id), Apply(queue, Sent(id)));
      queue := Apply(queue, Sent(id));
      stamps, used, clock := stamps[id := clock], used[id := clock], clock + 1;
    }

    /** The thread's `receive`, when there is something to receive. */
    method Receive()
      requires Valid() && held.None? && Pending(queue) != []
      modifies this
      ensures Valid() && held == Some(Pending(old(queue))[0]) && Pending(queue) == Pending(old(queue))[1..]
      ensures Abs() == old(Abs()).(held := held, queue := Apply(old(queue), Received(held.value)))
    {
      var id := Pending(queue)[0];
      NextKeepsWellFormed(queue, Received(id), Apply(queue, Received(id)));
      held, queue := Some(id), Apply(queue, Received(id));
    }

    /** The thread's push of the block it received. */
    method Push()
      requires Valid() && held.Some?
      modifies this, lru, random
      ensures Valid() && queue == old(queue)
      ensures Abs() == old(Abs()).(held := None, list := old(Abs()).list + [old(held).value])
    {
      if kind.LRU? {
        lru.PushBack(held.value);
      } else {
        random.Push(held.value);
      }
      held := None;
    }

    /** A full queue has something in it for the thread to receive. */
    lemma FullIsPending()
      requires Valid() && !HasRoom(queue)
      ensures Pending(queue) != []
    {
    }

    /** What is recorded of an announcement that failed. */
    ghost method Leak(id: Id)
      modifies this`leaked
      ensures Abs() == old(Abs()).(leaked := old(leaked) + {id})
    {
      leaked := leaked + {id};
    }

    /** What is recorded of a hit. */
    ghost method Hit(id: Id)
      modifies this`used, this`clock
      ensures Abs() == Touch(old(Abs()), id)
    {
      used, clock := used[id := clock], clock + 1;
    }
  }
}
