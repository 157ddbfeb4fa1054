/**
 The block cache and its eviction policy as a labelled transition system. They live in different servers: the
 cache announces insertions on a queue, and the policy's own thread takes them off and pushes them on its list.

 Whoever inserts holds the cache lock through several regions of the policy (`Phase`), and the policy's thread
 runs between any two of them. Readers and the cache's handler thread take turns at the lock.
 */
module CacheProtocol {
  import opened Wrappers
  import opened QueueSpec
  import opened EvictionPolicy

  type Id = nat

  type Ticket = nat  // an asynchronous request, numbered in order of arrival

  datatype Block<D> = Block(id: Id, data: D)

  datatype Owner = AReader | TheHandler

  /** Where the holder of the cache lock is in `insert_cached_block`. */
  datatype Phase<D> =
    | Unlocked
    | Evicting(block: Block<D>, owner: Owner)              // full: about to ask the policy for a victim
    | Removing(block: Block<D>, owner: Owner, victim: Id)  // about to remove the victim
    | Deciding(block: Block<D>, owner: Owner)              // about to look whether there is room and a vacant entry
    | Announcing(block: Block<D>, owner: Owner)            // about to call `inserted`
    | Filling(block: Block<D>, owner: Owner)               // about to fill the vacant entry

  /** Where the handler thread is with a reply it received. */
  datatype Work<D> = Selecting | Inserting(reply: Block<D>) | Answering(reply: Block<D>)

  datatype PolicyKind = LRU | RANDOM

  datatype Answer<D> = Answer(ticket: Ticket, block: Block<D>)

  /** The cache's map, behind its lock. */
  datatype Store<D> = Store(size: nat, cache: map<Id, D>, phase: Phase<D>)

  /** The policy's server. The last four fields record what happened: they steer nothing. */
  datatype Policy = Policy(
    kind: PolicyKind,
    list: seq<Id>,            // `blocks_in_cache`
    held: Option<Id>,         // received by the policy's thread, not pushed yet
    queue: Channel<Id>,       // `insertion_oqueue`
    leaked: set<Id>,          // cached blocks that the policy never hears of
    stamps: map<Id, nat>,     // when each block was last announced
    used: map<Id, nat>,       // when it was last announced or found in the cache
    clock: nat
  )

  /** The handler thread. The last three fields record what happened: they steer nothing. */
  datatype Desk<D> = Desk(
    work: Work<D>,
    outstanding: map<Id, seq<Ticket>>,
    inFlight: multiset<Id>,   // requests the underlying device has not replied to
    asked: seq<Id>,           // the block each ticket asks for
    answers: seq<Answer<D>>,
    dispatched: seq<Id>       // requests sent to the underlying device
  )

  datatype State<D> = State(store: Store<D>, policy: Policy, desk: Desk<D>)

  datatype Action<D> =
    // any thread that calls `read`
    | ReadHit(id: Id, data: D)
    | ReadMissed(block: Block<D>)  // it has read the device, and takes the lock to insert
    // the handler thread
    | Request(id: Id)
    | Prefetch(id: Id)
    | Reply(block: Block<D>)
    | AnswerWaiters
    // the holder of the cache lock
    | SelectVictim(index: nat)
    | SelectFails
    | RemoveVictim
    | Decide
    | InsertedOk
    | InsertedFails
    | Fill
    // the policy's thread
    | PolicyReceive
    | PolicyPush
    | PolicyThreadDies

  function Waiting<D>(d: Desk<D>, id: Id): seq<Ticket> {
    if id in d.outstanding then d.outstanding[id] else []
  }

  /** `insert_cached_block` up to and including its first length check. */
  function BeginInsert<D>(c: Store<D>, block: Block<D>, owner: Owner): Store<D> {
    c.(phase := if |c.cache| >= c.size then Evicting(block, owner) else Deciding(block, owner))
  }

  /** The handler goes on to the waiters once its own insertion has released the lock. */
  function AfterUnlock<D>(d: Desk<D>, owner: Owner): Desk<D> {
    if owner.TheHandler? && d.work.Inserting? then d.(work := Answering(d.work.reply)) else d
  }

  /** `send_underlying_request`. */
  function SendUnderlying<D>(d: Desk<D>, c: Store<D>, id: Id): Desk<D> {
    if id !in d.outstanding && id !in c.cache then
      d.(inFlight := d.inFlight + multiset{id}, dispatched := d.dispatched + [id])
    else d
  }

  /** `handle_request`: the waiter is registered before `send_underlying_request` looks for one. */
  function HandleRequest<D>(d: Desk<D>, c: Store<D>, id: Id): Desk<D> {
    var ticket := |d.asked|;
    var d1 := d.(asked := d.asked + [id]);
    if id in c.cache then d1.(answers := d.answers + [Answer(ticket, Block(id, c.cache[id]))])
    else SendUnderlying(d1.(outstanding := d.outstanding[id := Waiting(d, id) + [ticket]]), c, id)
  }

  function AnswerAll<D>(tickets: seq<Ticket>, block: Block<D>): seq<Answer<D>> {
    seq(|tickets|, i requires 0 <= i < |tickets| => Answer(tickets[i], block))
  }

  /** The end of `handle_reply`. */
  function AnswerReply<D>(d: Desk<D>, block: Block<D>): Desk<D> {
    d.(work := Selecting, outstanding := d.outstanding - {block.id},
       answers := d.answers + AnswerAll(Waiting(d, block.id), block))
  }

  predicate CanSelect(p: Policy, index: nat) {
    index < |p.list| && (p.kind.LRU? ==> index == 0)
  }

  function Select(p: Policy, index: nat): Policy
    requires index < |p.list|
  {
    p.(list := if p.kind.LRU? then p.list[1..] else SwapRemoved(p.list, index))
  }

  /** A hit, which the policy does not hear of. */
  function Touch(p: Policy, id: Id): Policy {
    p.(used := p.used[id := p.clock], clock := p.clock + 1)
  }

  /** `inserted`. With no receiver left, the queue takes the block and nobody will ever read it. */
  function Announce(p: Policy, id: Id): Policy {
    var p1 := p.(queue := Apply(p.queue, Sent(id)));
    if p.queue.receivers.Attached? then
      p1.(stamps := p.stamps[id := p.clock], used := p.used[id := p.clock], clock := p.clock + 1)
    else p1.(leaked := p.leaked + {id})
  }

  function HeldIds(held: Option<Id>): seq<Id> { match held { case Some(id) => [id] case None => [] } }

  /** The policy's thread panics: its receiver is dropped with all that was pending. */
  function Die(p: Policy): Policy {
    p.(held := None, queue := p.queue.(receivers := Detached),
       leaked := p.leaked + (set id | id in HeldIds(p.held) + Pending(p.queue)))
  }

  /** Blocks read from the device carry its data, whichever thread read them. */
  ghost predicate CanStep<D>(s: State<D>, a: Action<D>, device: Id -> D) {
    var phase := s.store.phase;
    match a
    case ReadHit(id, data) => phase.Unlocked? && id in s.store.cache && s.store.cache[id] == data
    case ReadMissed(block) => phase.Unlocked? && block.data == device(block.id)
    case Request(_) => phase.Unlocked? && s.desk.work.Selecting?
    case Prefetch(_) => phase.Unlocked? && s.desk.work.Selecting?
    case Reply(block) =>
      phase.Unlocked? && s.desk.work.Selecting? && block.id in s.desk.inFlight && block.data == device(block.id)
    case AnswerWaiters => s.desk.work.Answering?
    case SelectVictim(i) => phase.Evicting? && CanSelect(s.policy, i)
    case SelectFails => phase.Evicting?
    case RemoveVictim => phase.Removing?
    case Decide => phase.Deciding?
    case InsertedOk => phase.Announcing? && HasRoom(s.policy.queue)
    case InsertedFails => phase.Announcing?
    case Fill => phase.Filling?
    case PolicyReceive => s.policy.held.None? && Pending(s.policy.queue) != []
    case PolicyPush => s.policy.held.Some?
    case PolicyThreadDies => s.policy.queue.receivers.Attached?
  }

  function Step<D>(s: State<D>, a: Action<D>, device: Id -> D): State<D>
    requires CanStep(s, a, device)
  {
    var c, p, d := s.store, s.policy, s.desk;
    match a
    case ReadHit(id, _) => s.(policy := Touch(p, id))
    case ReadMissed(block) => s.(store := BeginInsert(c, block, AReader))
    case Request(id) =>
      s.(desk := HandleRequest(d, c, id), policy := if id in c.cache then Touch(p, id) else p)
    case Prefetch(id) => s.(desk := SendUnderlying(d, c, id))
    case Reply(block) =>
      s.(store := BeginInsert(c, block, TheHandler),
         desk := d.(work := Inserting(block), inFlight := d.inFlight - multiset{block.id}))
    case AnswerWaiters => s.(desk := AnswerReply(d, d.work.reply))
    case SelectVictim(i) =>
      s.(store := c.(phase := Removing(c.phase.block, c.phase.owner, p.list[i])), policy := Select(p, i))
    case SelectFails => s.(store := c.(phase := Deciding(c.phase.block, c.phase.owner)))
    case RemoveVictim =>
      s.(store := c.(phase := Deciding(c.phase.block, c.phase.owner), cache := c.cache - {c.phase.victim}))
    case Decide =>
      if |c.cache| >= c.size || c.phase.block.id in c.cache then
        s.(store := c.(phase := Unlocked), desk := AfterUnlock(d, c.phase.owner))
      else s.(store := c.(phase := Announcing(c.phase.block, c.phase.owner)))
    case InsertedOk =>
      s.(store := c.(phase := Filling(c.phase.block, c.phase.owner)), policy := Announce(p, c.phase.block.id))
    case InsertedFails =>
      s.(store := c.(phase := Filling(c.phase.block, c.phase.owner)),
         policy := p.(leaked := p.leaked + {c.phase.block.id}))
    case Fill =>
      s.(store := c.(phase := Unlocked, cache := c.cache[c.phase.block.id := c.phase.block.data]),
         desk := AfterUnlock(d, c.phase.owner))
    case PolicyReceive =>
      var v := Pending(p.queue)[0];
      s.(policy := p.(held := Some(v), queue := Apply(p.queue, Received(v))))
    case PolicyPush => s.(policy := p.(held := None, list := p.list + HeldIds(p.held)))
    case PolicyThreadDies => s.(policy := Die(p))
  }

  ghost predicate Moves<D>(s: State<D>, a: Action<D>, s': State<D>, device: Id -> D) {
    CanStep(s, a, device) && s' == Step(s, a, device)
  }

  ghost predicate Behavior<D>(ss: seq<State<D>>, acts: seq<Action<D>>, device: Id -> D) {
    && |ss| == |acts| + 1
    && forall i :: 0 <= i < |acts| ==> Moves(ss[i], acts[i], ss[i + 1], device)
  }

  lemma LastStep<D>(ss: seq<State<D>>, acts: seq<Action<D>>, device: Id -> D)
    requires Behavior(ss, acts, device) && acts != []
    ensures var n := |acts| - 1;
            Behavior(ss[..n + 1], acts[..n], device) && Moves(ss[n], acts[n], ss[n + 1], device)
  {
  }

  /** A run goes on with one more step. */
  lemma Then<D>(ss: seq<State<D>>, acts: seq<Action<D>>, a: Action<D>, device: Id -> D)
    returns (ss': seq<State<D>>, acts': seq<Action<D>>)
    requires Behavior(ss, acts, device) && CanStep(ss[|acts|], a, device)
    ensures Behavior(ss', acts', device) && acts' == acts + [a] && ss <= ss' && ss'[0] == ss[0]
    ensures ss'[|acts'|] == Step(ss[|acts|], a, device)
  {
    ss', acts' := ss + [Step(ss[|acts|], a, device)], acts + [a];
    forall i | 0 <= i < |acts'|
      ensures Moves(ss'[i], acts'[i], ss'[i + 1], device)
    {
      assert i < |acts| ==> Moves(ss[i], acts[i], ss[i + 1], device);
    }
  }

  /** Fresh servers: an empty cache, and the policy's thread as the only receiver of its queue. */
  ghost predicate Init<D>(s: State<D>) {
    && s.store.cache == map[] && s.store.phase.Unlocked?
    && s.policy.list == [] && s.policy.held.None? && s.policy.leaked == {}
    && s.policy.stamps == map[] && s.policy.used == map[] && s.policy.clock == 0
    && WellFormed(s.policy.queue) && s.policy.queue.receivers.Attached? && Pending(s.policy.queue) == []
    && s.desk == Desk(Selecting, map[], multiset{}, [], [], [])
  }
}
