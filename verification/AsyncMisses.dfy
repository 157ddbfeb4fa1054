/**
 Which asynchronous misses can be answered. A miss registers its waiter before it looks whether the device has to be
 asked, finds one, and does not ask; so it depends on a request that somebody sent for the same block before.
 */
module AsyncMisses {
  import opened CacheProtocol
  import opened CacheProofs

  /** The step asks the device for a block: a prefetch of one that is neither cached nor waited for. */
  function DispatchedBy<D>(s: State<D>, a: Action<D>): seq<Id> {
    if a.Prefetch? && a.id !in s.desk.outstanding && a.id !in s.store.cache then [a.id] else []
  }

  function DispatchedIn<D>(ss: seq<State<D>>, acts: seq<Action<D>>): seq<Id>
    requires |acts| <= |ss|
    decreases |acts|
  {
    if acts == [] then []
    else DispatchedIn(ss, acts[..|acts| - 1]) + DispatchedBy(ss[|acts| - 1], acts[|acts| - 1])
  }

  /** How often the device replied with block `id`. */
  function Replies<D>(acts: seq<Action<D>>, id: Id): nat
    decreases |acts|
  {
    if acts == [] then 0
    else
      var last := acts[|acts| - 1];
      Replies(acts[..|acts| - 1], id) + if last.Reply? && last.block.id == id then 1 else 0
  }

  lemma StepDispatches<D>(s: State<D>, a: Action<D>, s': State<D>, device: Id -> D)
    requires Moves(s, a, s', device)
    ensures s'.desk.dispatched == s.desk.dispatched + DispatchedBy(s, a)
  {
  }

  lemma StepBalances<D>(s: State<D>, a: Action<D>, s': State<D>, device: Id -> D, id: Id)
    requires Moves(s, a, s', device)
    ensures s'.desk.inFlight[id] + (if a.Reply? && a.block.id == id then 1 else 0) - s.desk.inFlight[id]
         == multiset(s'.desk.dispatched)[id] - multiset(s.desk.dispatched)[id]
  {
    StepDispatches(s, a, s', device);
  }

  /**
   In every run the device was asked exactly by the prefetches of blocks that were neither cached nor waited for, in
   order, and never by a request.
   */
  lemma {:induction false} DispatchIsExact<D>(ss: seq<State<D>>, acts: seq<Action<D>>, device: Id -> D)
    requires Behavior(ss, acts, device) && Init(ss[0])
    ensures ss[|acts|].desk.dispatched == DispatchedIn(ss, acts)
    decreases |acts|
  {
    if acts != [] {
      var n := |acts| - 1;
      LastStep(ss, acts, device);
      DispatchIsExact(ss[..n + 1], acts[..n], device);
      StepDispatches(ss[n], acts[n], ss[n + 1], device);
      PrefixDispatches(ss, acts[..n]);
    }
  }

  /** Each time the device was asked for a block is either replied to or in flight. */
  lemma {:induction false} DispatchesAreConserved<D>(ss: seq<State<D>>, acts: seq<Action<D>>, device: Id -> D, id: Id)
    requires Behavior(ss, acts, device) && Init(ss[0])
    ensures multiset(ss[|acts|].desk.dispatched)[id] == ss[|acts|].desk.inFlight[id] + Replies(acts, id)
    decreases |acts|
  {
    if acts != [] {
      var n := |acts| - 1;
      LastStep(ss, acts, device);
      DispatchesAreConserved(ss[..n + 1], acts[..n], device, id);
      StepBalances(ss[n], acts[n], ss[n + 1], device, id);
    }
  }

  lemma {:induction false} PrefixDispatches<D>(ss: seq<State<D>>, acts: seq<Action<D>>)
    requires |acts| < |ss|
    ensures DispatchedIn(ss[..|acts| + 1], acts) == DispatchedIn(ss, acts)
    decreases |acts|
  {
    if acts != [] {
      var n := |acts| - 1;
      PrefixDispatches(ss, acts[..n]);
      PrefixDispatches(ss[..|acts| + 1], acts[..n]);
      assert ss[..|acts| + 1][..|acts[..n]| + 1] == ss[..|acts[..n]| + 1];
    }
  }

  /** A reply for block `id` is on its way from the device, or with the handler. */
  predicate ReplyIsComing<D>(d: Desk<D>, id: Id) {
    id in d.inFlight || (!d.work.Selecting? && d.work.reply.id == id)
  }

  predicate IsPrefix(a: seq<Ticket>, b: seq<Ticket>) {
    |a| <= |b| && a == b[..|a|]
  }

  /** Somebody waits for the block, and no reply for it will come. */
  predicate IsStarved<D>(d: Desk<D>, id: Id) {
    id in d.outstanding && !ReplyIsComing(d, id)
  }

  lemma StepKeepsStarved<D>(s: State<D>, a: Action<D>, s': State<D>, device: Id -> D, id: Id)
    requires Moves(s, a, s', device) && IsStarved(s.desk, id)
    ensures IsStarved(s'.desk, id) && IsPrefix(Waiting(s.desk, id), Waiting(s'.desk, id))
    ensures id !in DispatchedBy(s, a) && s.desk.asked <= s'.desk.asked
  {
  }

  /**
   Once a block is starved it is so for ever: nobody who waits for it is answered, its queue of waiters only grows, and
   no prefetch of it asks the device again, because the waiters' key stays in the map.
   */
  lemma {:induction false} StarvedForever<D>(
    ss: seq<State<D>>, acts: seq<Action<D>>, device: Id -> D, i: nat, id: Id)
    requires Behavior(ss, acts, device) && i <= |acts| && IsStarved(ss[i].desk, id)
    ensures IsStarved(ss[|acts|].desk, id) && IsPrefix(Waiting(ss[i].desk, id), Waiting(ss[|acts|].desk, id))
    ensures ss[i].desk.asked <= ss[|acts|].desk.asked
    ensures forall k :: i <= k < |acts| ==> id !in DispatchedBy(ss[k], acts[k])
    decreases |acts|
  {
    if i < |acts| {
      var n := |acts| - 1;
      assert Moves(ss[n], acts[n], ss[n + 1], device);
      StarvedForever(ss[..n + 1], acts[..n], device, i, id);
      StepKeepsStarved(ss[n], acts[n], ss[n + 1], device, id);
      forall k | i <= k < |acts|
        ensures id !in DispatchedBy(ss[k], acts[k])
      {
        if k < n {
          assert id !in DispatchedBy(ss[..n + 1][k], acts[..n][k]);
        }
      }
    }
  }

  lemma StarvedIsNotAnswered<D>(
    ss: seq<State<D>>, acts: seq<Action<D>>, device: Id -> D, i: nat, t: Ticket)
    requires Behavior(ss, acts, device) && Init(ss[0]) && i <= |acts| && IsWaiting(ss[i].desk, t)
    requires !ReplyIsComing(ss[i].desk, ss[i].desk.asked[t])
    ensures IsWaiting(ss[|acts|].desk, t) && !IsAnswered(ss[|acts|].desk, t)
  {
    var id := ss[i].desk.asked[t];
    StarvedForever(ss, acts, device, i, id);
    var k :| 0 <= k < |Waiting(ss[i].desk, id)| && Waiting(ss[i].desk, id)[k] == t;
    assert Waiting(ss[|acts|].desk, id)[k] == t;
    BehaviorKeepsInv(ss, acts, device);
  }

  // ---------------------------------------------------------------------------------------------
  // While a reply is coming, the waiter can be answered.

  /** The handler is inserting exactly while it holds the cache lock. */
  predicate HandlerOk<D>(s: State<D>) {
    s.desk.work.Inserting? <==> !s.store.phase.Unlocked? && s.store.phase.owner.TheHandler?
  }

  lemma {:induction false} BehaviorKeepsHandler<D>(ss: seq<State<D>>, acts: seq<Action<D>>, device: Id -> D)
    requires Behavior(ss, acts, device) && Init(ss[0])
    ensures HandlerOk(ss[|acts|])
    decreases |acts|
  {
    if acts != [] {
      var n := |acts| - 1;
      assert Moves(ss[n], acts[n], ss[n + 1], device);
      BehaviorKeepsHandler(ss[..n + 1], acts[..n], device);
    }
  }

  /** How many regions the holder of the lock has ahead of it at most. */
  function Rank<D>(phase: Phase<D>): nat {
    match phase
    case Unlocked => 0
    case Filling(_, _) => 1
    case Announcing(_, _) => 2
    case Deciding(_, _) => 3
    case Removing(_, _, _) => 4
    case Evicting(_, _) => 4
  }

  function AfterRelease<D>(d: Desk<D>): Desk<D> {
    if d.work.Inserting? then d.(work := Answering(d.work.reply)) else d
  }

  /** Whoever holds the lock can go on to release it. */
  lemma {:induction false} ReleasesLock<D>(ss: seq<State<D>>, acts: seq<Action<D>>, device: Id -> D)
    returns (ss': seq<State<D>>, acts': seq<Action<D>>)
    requires Behavior(ss, acts, device) && HandlerOk(ss[|acts|])
    ensures Behavior(ss', acts', device) && ss <= ss' && ss'[|acts'|].store.phase.Unlocked?
    ensures ss'[|acts'|].desk == AfterRelease(ss[|acts|].desk)
    decreases Rank(ss[|acts|].store.phase)
  {
    var phase := ss[|acts|].store.phase;
    if phase.Unlocked? {
      ss', acts' := ss, acts;
    } else {
      var a := match phase
        case Evicting(_, _) => SelectFails
        case Removing(_, _, _) => RemoveVictim
        case Deciding(_, _) => Decide
        case Announcing(_, _) => InsertedFails
        case _ => Fill;
      ss', acts' := Then(ss, acts, a, device);
      ss', acts' := ReleasesLock(ss', acts', device);
    }
  }

  /** A handler that has a reply in hand can answer its waiters. */
  lemma AnswersReplyInHand<D>(ss: seq<State<D>>, acts: seq<Action<D>>, device: Id -> D)
    returns (ss': seq<State<D>>, acts': seq<Action<D>>)
    requires Behavior(ss, acts, device) && HandlerOk(ss[|acts|])
    ensures Behavior(ss', acts', device) && ss <= ss' && ss'[|acts'|].store.phase.Unlocked?
    ensures var d := ss[|acts|].desk;
            ss'[|acts'|].desk == if d.work.Selecting? then d else AnswerReply(d, d.work.reply)
  {
    ss', acts' := ReleasesLock(ss, acts, device);
    if !ss[|acts|].desk.work.Selecting? {
      ss', acts' := Then(ss', acts', AnswerWaiters, device);
    }
  }

  lemma AnswerReplyAnswers<D>(d: Desk<D>, block: Block<D>, t: Ticket)
    requires t in Waiting(d, block.id)
    ensures IsAnswered(AnswerReply(d, block), t)
  {
    var k :| 0 <= k < |Waiting(d, block.id)| && Waiting(d, block.id)[k] == t;
    assert AnswerReply(d, block).answers[|d.answers| + k].ticket == t;
  }

  lemma CanBeAnswered<D>(ss: seq<State<D>>, acts: seq<Action<D>>, device: Id -> D, t: Ticket)
    returns (ss': seq<State<D>>, acts': seq<Action<D>>)
    requires Behavior(ss, acts, device) && Init(ss[0]) && IsWaiting(ss[|acts|].desk, t)
    requires ReplyIsComing(ss[|acts|].desk, ss[|acts|].desk.asked[t])
    ensures Behavior(ss', acts', device) && ss <= ss' && IsAnswered(ss'[|acts'|].desk, t)
  {
    var d := ss[|acts|].desk;
    var id := d.asked[t];
    BehaviorKeepsHandler(ss, acts, device);
    ss', acts' := AnswersReplyInHand(ss, acts, device);
    if !d.work.Selecting? && d.work.reply.id == id {
      AnswerReplyAnswers(d, d.work.reply, t);
    } else {
      var d1, block := ss'[|acts'|].desk, Block(id, device(id));
      assert Waiting(d1, id) == Waiting(d, id) && d1.inFlight == d.inFlight;
      ss', acts' := Then(ss', acts', Reply(block), device);
      ss', acts' := AnswersReplyInHand(ss', acts', device);
      AnswerReplyAnswers(d1.(inFlight := d1.inFlight - multiset{id}, work := Inserting(block)), block, t);
    }
  }

  /** A run that continues `ss` and at whose end ticket `t` is answered. */
  ghost predicate AnswersIn<D>(
    ss: seq<State<D>>, ss': seq<State<D>>, acts': seq<Action<D>>, device: Id -> D, t: Ticket)
  {
    Behavior(ss', acts', device) && ss <= ss' && IsAnswered(ss'[|acts'|].desk, t)
  }

  ghost predicate IsAnswerable<D(!new)>(ss: seq<State<D>>, device: Id -> D, t: Ticket) {
    exists ss': seq<State<D>>, acts': seq<Action<D>> :: AnswersIn(ss, ss', acts', device, t)
  }

  /** In every reachable state, a waiting request can still be answered if and only if a reply to it is coming. */
  lemma AnswerableExactly<D(!new)>(ss: seq<State<D>>, acts: seq<Action<D>>, device: Id -> D, t: Ticket)
    requires Behavior(ss, acts, device) && Init(ss[0]) && IsWaiting(ss[|acts|].desk, t)
    ensures IsAnswerable(ss, device, t) <==> ReplyIsComing(ss[|acts|].desk, ss[|acts|].desk.asked[t])
  {
    if ReplyIsComing(ss[|acts|].desk, ss[|acts|].desk.asked[t]) {
      var ss', acts' := CanBeAnswered(ss, acts, device, t);
      assert AnswersIn(ss, ss', acts', device, t);
    } else {
      forall ss': seq<State<D>>, acts': seq<Action<D>>
        ensures !AnswersIn(ss, ss', acts', device, t)
      {
        if AnswersIn(ss, ss', acts', device, t) {
          StarvedIsNotAnswered(ss', acts', device, |acts|, t);
        }
      }
    }
  }

  /**
   The same at the call: an asynchronous miss can be answered if and only if a request for its block is in flight when
   it arrives.
   */
  lemma MissIsAnswerableExactly<D(!new)>(ss: seq<State<D>>, acts: seq<Action<D>>, device: Id -> D, id: Id)
    requires Behavior(ss, acts, device) && Init(ss[0])
    requires CanStep(ss[|acts|], Request(id), device) && id !in ss[|acts|].store.cache
    ensures IsAnswerable(ss + [Step(ss[|acts|], Request(id), device)], device, |ss[|acts|].desk.asked|)
       <==> id in ss[|acts|].desk.inFlight
  {
    var t, s := |ss[|acts|].desk.asked|, Step(ss[|acts|], Request(id), device);
    var ss1, acts1 := Then(ss, acts, Request(id), device);
    assert ss1 == ss + [s];
    assert s.desk.outstanding[id][|Waiting(ss[|acts|].desk, id)|] == t;
    assert IsWaiting(s.desk, t);
    AnswerableExactly(ss1, acts1, device, t);
  }
}
