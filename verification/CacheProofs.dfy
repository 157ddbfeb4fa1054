/** What every interleaving of readers, handler, lock holder and policy thread keeps. */
module CacheProofs {
  import opened Wrappers
  import opened QueueSpec
  import opened EvictionPolicy
  import opened CacheProtocol
  import opened Tasks

  // ---------------------------------------------------------------------------------------------
  // The cache and its policy agree, up to what is in flight.

  /** The blocks the policy knows or will know of: its list, what its thread holds, what is on the queue. */
  function Tracked(p: Policy): seq<Id> {
    p.list + HeldIds(p.held) + Pending(p.queue)
  }

  /** The cached blocks, up to what the lock holder has begun: a chosen victim is gone, an announced block is in. */
  function Present<D>(c: Store<D>): set<Id> {
    match c.phase
    case Removing(_, _, victim) => c.cache.Keys - {victim}
    case Filling(block, _) => c.cache.Keys + {block.id}
    case _ => c.cache.Keys
  }

  /** Each present block is tracked once or leaked, never both, and nothing else is. */
  ghost predicate Covers(tracked: seq<Id>, leaked: set<Id>, present: set<Id>) {
    && Distinct(tracked)
    && (forall id :: id in tracked ==> id !in leaked)
    && (forall id :: id in tracked || id in leaked <==> id in present)
  }

  ghost predicate PhaseOk<D>(c: Store<D>) {
    && |c.cache| <= c.size
    && (c.phase.Removing? ==> c.phase.victim in c.cache)
    && (c.phase.Announcing? || c.phase.Filling? ==> c.phase.block.id !in c.cache && |c.cache| < c.size)
  }

  ghost predicate Agree<D>(s: State<D>) {
    && WellFormed(s.policy.queue)
    && Covers(Tracked(s.policy), s.policy.leaked, Present(s.store))
    && PhaseOk(s.store)
  }

  lemma PolicyThreadKeepsTracked(p: Policy)
    requires WellFormed(p.queue)
    ensures p.held.None? && Pending(p.queue) != [] ==>
              var p' := p.(held := Some(Pending(p.queue)[0]), queue := Apply(p.queue, Received(Pending(p.queue)[0])));
              Tracked(p') == Tracked(p) && WellFormed(p'.queue)
    ensures Tracked(p.(held := None, list := p.list + HeldIds(p.held))) == Tracked(p)
  {
    if p.held.None? && Pending(p.queue) != [] {
      var v := Pending(p.queue)[0];
      assert Pending(p.queue) == [v] + Pending(Apply(p.queue, Received(v)));
    }
  }

  lemma SelectTakesOne(p: Policy, i: nat)
    requires CanSelect(p, i) && Distinct(Tracked(p))
    ensures Distinct(Tracked(Select(p, i)))
    ensures forall id :: id in Tracked(Select(p, i)) <==> id in Tracked(p) && id != p.list[i]
    ensures p.kind.LRU? ==> Tracked(p) == [p.list[i]] + Tracked(Select(p, i))
  {
    var rest := HeldIds(p.held) + Pending(p.queue);
    assert Tracked(p) == p.list + rest && Tracked(Select(p, i)) == Select(p, i).list + rest;
    if p.kind.LRU? {
      assert Tracked(p) == [p.list[0]] + Tracked(Select(p, i));
      DistinctTail(Tracked(p));
    } else {
      SwapRemovedDistinct(p.list, i, rest);
    }
  }

  lemma DistinctTail(xs: seq<Id>)
    requires Distinct(xs) && xs != []
    ensures Distinct(xs[1..])
    ensures forall x :: x in xs[1..] <==> x in xs && x != xs[0]
  {
  }

  lemma SwapRemovedDistinct(xs: seq<Id>, i: nat, rest: seq<Id>)
    requires i < |xs| && Distinct(xs + rest)
    ensures Distinct(SwapRemoved(xs, i) + rest)
    ensures forall x :: x in SwapRemoved(xs, i) + rest <==> x in xs + rest && x != xs[i]
  {
    var all, left, n := xs + rest, SwapRemoved(xs, i) + rest, |xs| - 1;
    forall k | 0 <= k < |left|
      ensures left[k] == all[if k == i && k < n then n else if k < n then k else k + 1]
      ensures left[k] in all && left[k] != xs[i]
    {
      assert all[i] == xs[i];
    }
    forall x | x in all && x != xs[i]
      ensures x in left
    {
      var k :| 0 <= k < |all| && all[k] == x;
      assert all[i] == xs[i];
      assert left[if k == n then i else if k < n then k else k - 1] == x;
    }
  }

  lemma AnnounceAddsOne(p: Policy, id: Id)
    requires WellFormed(p.queue) && HasRoom(p.queue)
    ensures WellFormed(Announce(p, id).queue)
    ensures Tracked(Announce(p, id)) == if p.queue.receivers.Attached? then Tracked(p) + [id] else Tracked(p)
    ensures Announce(p, id).leaked == if p.queue.receivers.Attached? then p.leaked else p.leaked + {id}
  {
    NextKeepsWellFormed(p.queue, Sent(id), Apply(p.queue, Sent(id)));
    if p.queue.receivers.Attached? {
      assert Pending(Apply(p.queue, Sent(id))) == Pending(p.queue) + [id];
    }
  }

  lemma CoversMore(tracked: seq<Id>, leaked: set<Id>, present: set<Id>, id: Id)
    requires Covers(tracked, leaked, present) && id !in present
    ensures Covers(tracked + [id], leaked, present + {id})
    ensures Covers(tracked, leaked + {id}, present + {id})
  {
  }

  /** What is lost with the policy's thread is leaked. */
  lemma CoversSplit(kept: seq<Id>, gone: seq<Id>, leaked: set<Id>, present: set<Id>)
    requires Covers(kept + gone, leaked, present)
    ensures Covers(kept, leaked + (set id | id in gone), present)
  {
    var all := kept + gone;
    forall i | 0 <= i < |kept|
      ensures kept[i] == all[i] && kept[i] !in gone
    {
      assert kept[i] == all[i];
      forall k | 0 <= k < |gone|
        ensures gone[k] != kept[i]
      {
        assert gone[k] == all[|kept| + k] && all[|kept| + k] != all[i];
      }
    }
    forall id
      ensures id in all <==> id in kept || id in gone
    {
    }
  }

  lemma PolicyStepKeepsCover<D>(s: State<D>, a: Action<D>, s': State<D>, device: Id -> D)
    requires Moves(s, a, s', device) && Agree(s)
    requires a.PolicyReceive? || a.PolicyPush? || a.PolicyThreadDies?
    ensures Agree(s')
  {
    var p := s.policy;
    PolicyThreadKeepsTracked(p);
    if a.PolicyThreadDies? {
      var gone := HeldIds(p.held) + Pending(p.queue);
      assert Tracked(p) == p.list + gone && Tracked(s'.policy) == p.list;
      CoversSplit(p.list, gone, p.leaked, Present(s.store));
    }
  }

  lemma AnnouncedIsPresent<D>(c: Store<D>, c': Store<D>)
    requires PhaseOk(c) && c.phase.Announcing? && c' == c.(phase := Filling(c.phase.block, c.phase.owner))
    ensures PhaseOk(c') && c.phase.block.id !in Present(c) && Present(c') == Present(c) + {c.phase.block.id}
  {
  }

  lemma AnnouncementKeepsCover<D>(s: State<D>, s': State<D>, device: Id -> D)
    requires Moves(s, InsertedOk, s', device) && Agree(s)
    ensures Agree(s')
  {
    var p, id := s.policy, s.store.phase.block.id;
    AnnouncedIsPresent(s.store, s'.store);
    AnnounceAddsOne(p, id);
    CoversMore(Tracked(p), p.leaked, Present(s.store), id);
    assert s'.policy == Announce(p, id);
    assert Covers(Tracked(s'.policy), s'.policy.leaked, Present(s'.store));
  }

  lemma FailedAnnouncementKeepsCover<D>(s: State<D>, s': State<D>, device: Id -> D)
    requires Moves(s, InsertedFails, s', device) && Agree(s)
    ensures Agree(s')
  {
    AnnouncedIsPresent(s.store, s'.store);
    CoversMore(Tracked(s.policy), s.policy.leaked, Present(s.store), s.store.phase.block.id);
  }

  lemma SelectionKeepsCover<D>(s: State<D>, i: nat, s': State<D>, device: Id -> D)
    requires Moves(s, SelectVictim(i), s', device) && Agree(s)
    ensures Agree(s')
  {
    SelectTakesOne(s.policy, i);
    assert s.policy.list[i] == Tracked(s.policy)[i];
  }

  lemma RemovalKeepsCover<D>(s: State<D>, s': State<D>, device: Id -> D)
    requires Moves(s, RemoveVictim, s', device) && Agree(s)
    ensures Agree(s')
    ensures |s'.store.cache| == |s.store.cache| - 1
  {
    assert s.store.cache.Keys == s'.store.cache.Keys + {s.store.phase.victim};
    assert |s.store.cache.Keys| == |s'.store.cache.Keys| + 1;
  }

  lemma StepKeepsAgree<D>(s: State<D>, a: Action<D>, s': State<D>, device: Id -> D)
    requires Moves(s, a, s', device) && Agree(s)
    ensures Agree(s')
  {
    match a
    case PolicyReceive => PolicyStepKeepsCover(s, a, s', device);
    case PolicyPush => PolicyStepKeepsCover(s, a, s', device);
    case PolicyThreadDies => PolicyStepKeepsCover(s, a, s', device);
    case InsertedOk => AnnouncementKeepsCover(s, s', device);
    case InsertedFails => FailedAnnouncementKeepsCover(s, s', device);
    case SelectVictim(i) => SelectionKeepsCover(s, i, s', device);
    case RemoveVictim => RemovalKeepsCover(s, s', device);
    case _ =>
      assert Tracked(s'.policy) == Tracked(s.policy) && s'.policy.leaked == s.policy.leaked;
      assert Present(s'.store) == Present(s.store);
  }

  // ---------------------------------------------------------------------------------------------
  // First in, first out.

  /** The blocks the policy tracks are in the order they were announced. */
  ghost predicate Ordered(tracked: seq<Id>, stamps: map<Id, nat>, clock: nat) {
    && (forall i :: 0 <= i < |tracked| ==> tracked[i] in stamps && stamps[tracked[i]] < clock)
    && (forall i, j :: 0 <= i < j < |tracked| ==> stamps[tracked[i]] < stamps[tracked[j]])
  }

  /** No block was used before it was announced, and no two at once. */
  ghost predicate UsedAfter(tracked: seq<Id>, stamps: map<Id, nat>, used: map<Id, nat>, clock: nat) {
    && (forall id :: id in tracked ==> id in stamps && id in used && stamps[id] <= used[id] < clock)
    && (forall a, b :: a in tracked && b in tracked && a != b ==> used[a] != used[b])
  }

  ghost predicate InOrder(p: Policy) {
    Ordered(Tracked(p), p.stamps, p.clock) && UsedAfter(Tracked(p), p.stamps, p.used, p.clock)
  }

  lemma OrderedGrows(tracked: seq<Id>, stamps: map<Id, nat>, clock: nat, id: Id)
    requires Ordered(tracked, stamps, clock) && id !in tracked
    ensures Ordered(tracked + [id], stamps[id := clock], clock + 1)
  {
  }

  lemma UsedAfterGrows(tracked: seq<Id>, stamps: map<Id, nat>, used: map<Id, nat>, clock: nat, id: Id)
    requires UsedAfter(tracked, stamps, used, clock) && id !in tracked
    ensures UsedAfter(tracked + [id], stamps[id := clock], used[id := clock], clock + 1)
  {
    forall x | x in tracked + [id]
      ensures x in tracked || x == id
    {
    }
  }

  lemma AnnouncementKeepsOrder(p: Policy, id: Id)
    requires WellFormed(p.queue) && HasRoom(p.queue) && InOrder(p) && id !in Tracked(p)
    ensures InOrder(Announce(p, id))
  {
    AnnounceAddsOne(p, id);
    OrderedGrows(Tracked(p), p.stamps, p.clock, id);
    UsedAfterGrows(Tracked(p), p.stamps, p.used, p.clock, id);
    assert p.queue.receivers.Detached? ==> Tracked(Announce(p, id)) == Tracked(p);
  }

  lemma HitKeepsOrder(p: Policy, id: Id)
    requires InOrder(p)
    ensures InOrder(Touch(p, id))
  {
    assert Tracked(Touch(p, id)) == Tracked(p);
  }

  lemma SelectionKeepsOrder(p: Policy, i: nat)
    requires CanSelect(p, i) && p.kind.LRU? && Distinct(Tracked(p)) && InOrder(p)
    ensures InOrder(Select(p, i))
  {
    SelectTakesOne(p, i);
    assert Tracked(Select(p, i)) == Tracked(p)[1..];
  }

  lemma OrderedStays(kept: seq<Id>, gone: seq<Id>, stamps: map<Id, nat>, used: map<Id, nat>, clock: nat)
    requires Ordered(kept + gone, stamps, clock) && UsedAfter(kept + gone, stamps, used, clock)
    ensures Ordered(kept, stamps, clock) && UsedAfter(kept, stamps, used, clock)
  {
    var all := kept + gone;
    assert forall i :: 0 <= i < |kept| ==> kept[i] == all[i];
    assert forall id :: id in kept ==> id in all;
  }

  lemma DeathKeepsOrder(p: Policy)
    requires InOrder(p)
    ensures InOrder(Die(p))
  {
    var gone := HeldIds(p.held) + Pending(p.queue);
    assert Tracked(p) == p.list + gone && Tracked(Die(p)) == p.list;
    OrderedStays(p.list, gone, p.stamps, p.used, p.clock);
  }

  lemma StepKeepsOrder<D>(s: State<D>, a: Action<D>, s': State<D>, device: Id -> D)
    requires Moves(s, a, s', device) && Agree(s) && s.policy.kind.LRU? && InOrder(s.policy)
    ensures s'.policy.kind.LRU? && InOrder(s'.policy)
  {
    match a
    case PolicyReceive => PolicyThreadKeepsTracked(s.policy);
    case PolicyPush => PolicyThreadKeepsTracked(s.policy);
    case PolicyThreadDies => DeathKeepsOrder(s.policy);
    case InsertedOk => AnnouncementKeepsOrder(s.policy, s.store.phase.block.id);
    case ReadHit(id, _) => HitKeepsOrder(s.policy, id);
    case Request(id) => HitKeepsOrder(s.policy, id);
    case SelectVictim(i) => SelectionKeepsOrder(s.policy, i);
    case _ =>
      assert Tracked(s'.policy) == Tracked(s.policy);
  }

  // ---------------------------------------------------------------------------------------------
  // Whose data is where, and who waits for what.

  /** Every block in the cache or on its way carries the data of the device. */
  ghost predicate Faithful<D>(s: State<D>, device: Id -> D) {
    && (forall id :: id in s.store.cache ==> s.store.cache[id] == device(id))
    && (!s.store.phase.Unlocked? ==> s.store.phase.block.data == device(s.store.phase.block.id))
    && (!s.desk.work.Selecting? ==> s.desk.work.reply.data == device(s.desk.work.reply.id))
  }

  lemma StepKeepsFaithful<D>(s: State<D>, a: Action<D>, s': State<D>, device: Id -> D)
    requires Moves(s, a, s', device) && Faithful(s, device)
    ensures Faithful(s', device)
  {
  }

  predicate IsWaiting<D>(d: Desk<D>, t: Ticket) {
    t < |d.asked| && t in Waiting(d, d.asked[t])
  }

  predicate IsAnswered<D>(d: Desk<D>, t: Ticket) {
    exists k :: 0 <= k < |d.answers| && d.answers[k].ticket == t
  }

  predicate Ascending(ts: seq<Ticket>) {
    forall i, j :: 0 <= i < j < |ts| ==> ts[i] < ts[j]
  }

  /** Waiters are filed under the block they asked for, in order of arrival. */
  ghost predicate FiledRight<D>(d: Desk<D>) {
    forall id :: id in d.outstanding ==>
      Ascending(d.outstanding[id]) && forall t :: t in d.outstanding[id] ==> t < |d.asked| && d.asked[t] == id
  }

  /** No ticket is answered twice, and each answer is the block that was asked for. */
  ghost predicate AnsweredRight<D>(d: Desk<D>, device: Id -> D) {
    && (forall k :: 0 <= k < |d.answers| ==>
          d.answers[k].ticket < |d.asked|
          && d.answers[k].block == Block(d.asked[d.answers[k].ticket], device(d.asked[d.answers[k].ticket])))
    && (forall k, m :: 0 <= k < m < |d.answers| ==> d.answers[k].ticket != d.answers[m].ticket)
  }

  /** Each ticket is in exactly one place: answered, or waiting under its own block. */
  ghost predicate Conserved<D>(d: Desk<D>) {
    forall t: nat :: t < |d.asked| ==> (IsWaiting(d, t) <==> !IsAnswered(d, t))
  }

  ghost predicate DeskOk<D>(d: Desk<D>, device: Id -> D) {
    FiledRight(d) && AnsweredRight(d, device) && Conserved(d)
  }

  lemma HitKeepsDesk<D>(d: Desk<D>, c: Store<D>, id: Id, device: Id -> D)
    requires DeskOk(d, device) && id in c.cache && c.cache[id] == device(id)
    ensures DeskOk(HandleRequest(d, c, id), device)
  {
    var d', n := HandleRequest(d, c, id), |d.asked|;
    assert d'.answers[|d.answers|].ticket == n;
    forall t: nat | t < |d'.asked|
      ensures IsWaiting(d', t) <==> !IsAnswered(d', t)
    {
      if t < n {
        assert IsAnswered(d', t) <==> IsAnswered(d, t) by {
          if k :| 0 <= k < |d.answers| && d.answers[k].ticket == t {
            assert d'.answers[k].ticket == t;
          }
        }
      }
    }
  }

  lemma MissIsFiledRight<D>(d: Desk<D>, c: Store<D>, id: Id)
    requires FiledRight(d) && id !in c.cache
    ensures FiledRight(HandleRequest(d, c, id))
  {
    var d', n := HandleRequest(d, c, id), |d.asked|;
    assert d'.outstanding == d.outstanding[id := Waiting(d, id) + [n]];
    forall x | x in d'.outstanding
      ensures Ascending(d'.outstanding[x]) && forall t :: t in d'.outstanding[x] ==> t < |d'.asked| && d'.asked[t] == x
    {
      assert x in d.outstanding ==> Ascending(d.outstanding[x]);
      assert forall k :: 0 <= k < |Waiting(d, id)| ==> Waiting(d, id)[k] in Waiting(d, id);
    }
  }

  lemma MissIsConserved<D>(d: Desk<D>, c: Store<D>, id: Id, device: Id -> D)
    requires FiledRight(d) && AnsweredRight(d, device) && Conserved(d) && id !in c.cache
    ensures Conserved(HandleRequest(d, c, id))
  {
    var d', n := HandleRequest(d, c, id), |d.asked|;
    assert d'.outstanding == d.outstanding[id := Waiting(d, id) + [n]] && d'.answers == d.answers;
    forall t: nat | t < |d'.asked|
      ensures IsWaiting(d', t) <==> !IsAnswered(d', t)
    {
      assert IsAnswered(d', t) <==> IsAnswered(d, t);
      if t < n {
        assert IsWaiting(d, t) <==> !IsAnswered(d, t);
        assert d'.asked[t] == d.asked[t];
      } else {
        assert Waiting(d', id)[|Waiting(d, id)|] == n;
      }
    }
  }

  lemma MissKeepsDesk<D>(d: Desk<D>, c: Store<D>, id: Id, device: Id -> D)
    requires DeskOk(d, device) && id !in c.cache
    ensures DeskOk(HandleRequest(d, c, id), device)
  {
    MissIsFiledRight(d, c, id);
    MissIsConserved(d, c, id, device);
  }

  /** A reply answers all and only the waiters for its block, in order of arrival, and leaves nobody else out. */
  lemma ReplyAnswersItsWaiters<D>(d: Desk<D>, block: Block<D>, device: Id -> D)
    requires DeskOk(d, device)
    ensures Ascending(Waiting(d, block.id))
    ensures forall t: nat :: t in Waiting(d, block.id) <==> t < |d.asked| && d.asked[t] == block.id && !IsAnswered(d, t)
    ensures AnswerReply(d, block).answers == d.answers + AnswerAll(Waiting(d, block.id), block)
    ensures forall t: nat :: IsAnswered(AnswerReply(d, block), t) <==> IsAnswered(d, t) || t in Waiting(d, block.id)
  {
    var d', ts, n := AnswerReply(d, block), Waiting(d, block.id), |d.answers|;
    forall t: nat
      ensures IsAnswered(d', t) <==> IsAnswered(d, t) || t in ts
    {
      if t in ts {
        var k :| 0 <= k < |ts| && ts[k] == t;
        assert d'.answers[n + k].ticket == t;
      }
      if k :| 0 <= k < n && d.answers[k].ticket == t {
        assert d'.answers[k].ticket == t;
      }
    }
    forall t: nat
      ensures t in ts <==> t < |d.asked| && d.asked[t] == block.id && !IsAnswered(d, t)
    {
      assert t < |d.asked| ==> (IsWaiting(d, t) <==> !IsAnswered(d, t));
      assert t in ts ==> block.id in d.outstanding && t in d.outstanding[block.id];
    }
  }

  /** The replies go out after all earlier ones, one for each waiter and in order of arrival. */
  lemma RepliesAreInOrder<D>(d: Desk<D>, block: Block<D>)
    requires FiledRight(d)
    ensures var w, before, after := Waiting(d, block.id), d.answers, AnswerReply(d, block).answers;
            && before <= after && |after| == |before| + |w|
            && (forall k :: 0 <= k < |w| ==> after[|before| + k] == Answer(w[k], block))
            && (forall k, m :: |before| <= k < m < |after| ==> after[k].ticket < after[m].ticket)
  {
    var w, before, after := Waiting(d, block.id), d.answers, AnswerReply(d, block).answers;
    assert Ascending(w);
    forall k | |before| <= k < |after|
      ensures after[k] == Answer(w[k - |before|], block)
    {
    }
  }

  lemma ReplyKeepsAnswersRight<D>(d: Desk<D>, block: Block<D>, device: Id -> D)
    requires DeskOk(d, device) && block.data == device(block.id)
    ensures AnsweredRight(AnswerReply(d, block), device)
  {
    ReplyAnswersItsWaiters(d, block, device);
    var d', ts, n := AnswerReply(d, block), Waiting(d, block.id), |d.answers|;
    forall k | 0 <= k < |ts|
      ensures d'.answers[n + k] == Answer(ts[k], block)
      ensures ts[k] < |d.asked| && d.asked[ts[k]] == block.id && !IsAnswered(d, ts[k])
    {
      assert ts[k] in ts;
    }
    forall k, m | 0 <= k < m < |d'.answers|
      ensures d'.answers[k].ticket != d'.answers[m].ticket
    {
      if n <= m {
        assert d'.answers[n + (m - n)] == Answer(ts[m - n], block);
        if n <= k {
          assert d'.answers[n + (k - n)] == Answer(ts[k - n], block);
        } else {
          assert !IsAnswered(d, ts[m - n]);
        }
      }
    }
    forall k | 0 <= k < |d'.answers|
      ensures d'.answers[k].ticket < |d.asked|
      ensures d'.answers[k].block == Block(d.asked[d'.answers[k].ticket], device(d.asked[d'.answers[k].ticket]))
    {
      if n <= k {
        assert d'.answers[n + (k - n)] == Answer(ts[k - n], block);
      }
    }
  }

  lemma ReplyKeepsDesk<D>(d: Desk<D>, block: Block<D>, device: Id -> D)
    requires DeskOk(d, device) && block.data == device(block.id)
    ensures DeskOk(AnswerReply(d, block), device)
  {
    ReplyAnswersItsWaiters(d, block, device);
    ReplyKeepsAnswersRight(d, block, device);
    var d' := AnswerReply(d, block);
    forall t: nat | t < |d'.asked|
      ensures IsWaiting(d', t) <==> !IsAnswered(d', t)
    {
      assert IsWaiting(d, t) <==> !IsAnswered(d, t);
      assert IsWaiting(d', t) <==> IsWaiting(d, t) && d.asked[t] != block.id;
    }
  }

  lemma StepKeepsDesk<D>(s: State<D>, a: Action<D>, s': State<D>, device: Id -> D)
    requires Moves(s, a, s', device) && Faithful(s, device) && DeskOk(s.desk, device)
    ensures DeskOk(s'.desk, device)
  {
    match a
    case Request(id) =>
      if id in s.store.cache {
        HitKeepsDesk(s.desk, s.store, id, device);
      } else {
        MissKeepsDesk(s.desk, s.store, id, device);
      }
    case AnswerWaiters => ReplyKeepsDesk(s.desk, s.desk.work.reply, device);
    case _ =>
      var d, d' := s.desk, s'.desk;
      assert d'.outstanding == d.outstanding && d'.asked == d.asked && d'.answers == d.answers;
      assert forall t: nat :: IsAnswered(s'.desk, t) == IsAnswered(s.desk, t);
      assert forall t: nat :: IsWaiting(s'.desk, t) == IsWaiting(s.desk, t);
  }

  // ---------------------------------------------------------------------------------------------
  // Main results.

  ghost predicate Inv<D>(s: State<D>, device: Id -> D) {
    && Agree(s) && Faithful(s, device) && DeskOk(s.desk, device)
    && (s.policy.kind.LRU? ==> InOrder(s.policy))
  }

  lemma StepKeepsInv<D>(s: State<D>, a: Action<D>, s': State<D>, device: Id -> D)
    requires Moves(s, a, s', device) && Inv(s, device)
    ensures Inv(s', device)
  {
    StepKeepsAgree(s, a, s', device);
    StepKeepsFaithful(s, a, s', device);
    StepKeepsDesk(s, a, s', device);
    if s.policy.kind.LRU? {
      StepKeepsOrder(s, a, s', device);
    }
  }

  lemma {:induction false} BehaviorKeepsInv<D>(ss: seq<State<D>>, acts: seq<Action<D>>, device: Id -> D)
    requires Behavior(ss, acts, device) && Init(ss[0])
    ensures Inv(ss[|acts|], device)
    decreases |acts|
  {
    if acts == [] {
      assert Tracked(ss[0].policy) == [];
    } else {
      var n := |acts| - 1;
      assert Moves(ss[n], acts[n], ss[n + 1], device);
      BehaviorKeepsInv(ss[..n + 1], acts[..n], device);
      StepKeepsInv(ss[n], acts[n], ss[n + 1], device);
    }
  }

  /**
   Whenever the cache lock is free, the cached blocks are those the policy has on its list, in its thread's
   hands or on its queue, each in one place only, and those it was never told of. The cache is never over its size.
   */
  lemma CacheAndPolicyAgree<D>(ss: seq<State<D>>, acts: seq<Action<D>>, device: Id -> D)
    requires Behavior(ss, acts, device) && Init(ss[0]) && ss[|acts|].store.phase.Unlocked?
    ensures var s := ss[|acts|];
            && Distinct(Tracked(s.policy))
            && (forall id :: id in s.store.cache <==> id in Tracked(s.policy) || id in s.policy.leaked)
            && (forall id :: id in Tracked(s.policy) ==> id !in s.policy.leaked)
            && |s.store.cache| <= s.store.size
  {
    BehaviorKeepsInv(ss, acts, device);
  }

  /** Nothing leaks while each `inserted` succeeds and the policy's thread lives. */
  lemma {:induction false} NothingLeaksWithoutFailure<D>(ss: seq<State<D>>, acts: seq<Action<D>>, device: Id -> D)
    requires Behavior(ss, acts, device) && Init(ss[0])
    requires forall i :: 0 <= i < |acts| ==> !acts[i].InsertedFails? && !acts[i].PolicyThreadDies?
    ensures ss[|acts|].policy.leaked == {} && ss[|acts|].policy.queue.receivers.Attached?
    decreases |acts|
  {
    if acts != [] {
      var n := |acts| - 1;
      assert Moves(ss[n], acts[n], ss[n + 1], device);
      NothingLeaksWithoutFailure(ss[..n + 1], acts[..n], device);
    }
  }

  /**
   Every victim is cached and tracked, and removing it frees exactly one entry. The policy that calls itself
   least-recently-used picks the block announced first among all cached blocks it was told of.
   */
  lemma VictimIsCached<D>(s: State<D>, i: nat, s1: State<D>, s2: State<D>, device: Id -> D)
    requires Inv(s, device) && Moves(s, SelectVictim(i), s1, device) && Moves(s1, RemoveVictim, s2, device)
    ensures s.policy.list[i] in s.store.cache && s.policy.list[i] !in s.policy.leaked
    ensures s2.store.cache == s.store.cache - {s.policy.list[i]} && |s2.store.cache| == |s.store.cache| - 1
    ensures s.policy.kind.LRU? ==>
              forall id :: id in s.store.cache && id !in s.policy.leaked && id != s.policy.list[i] ==>
                s.policy.list[i] in s.policy.stamps && id in s.policy.stamps
                && s.policy.stamps[s.policy.list[i]] < s.policy.stamps[id]
  {
    var tracked := Tracked(s.policy);
    assert s.policy.list[i] == tracked[i];
    assert tracked[i] in tracked;
    StepKeepsInv(s, SelectVictim(i), s1, device);
    RemovalKeepsCover(s1, s2, device);
    if s.policy.kind.LRU? {
      forall id | id in s.store.cache && id !in s.policy.leaked && id != tracked[0]
        ensures tracked[0] in s.policy.stamps && id in s.policy.stamps
        ensures s.policy.stamps[tracked[0]] < s.policy.stamps[id]
      {
        assert id in tracked;
        var j :| 0 <= j < |tracked| && tracked[j] == id;
      }
    }
  }

  /** A leaked block is never evicted again: it stays in the cache through every later step. */
  lemma {:induction false} LeakedBlocksStay<D>(ss: seq<State<D>>, acts: seq<Action<D>>, device: Id -> D, id: Id)
    requires Behavior(ss, acts, device) && Inv(ss[0], device) && id in ss[0].policy.leaked
    ensures Inv(ss[|acts|], device) && id in ss[|acts|].policy.leaked && id in Present(ss[|acts|].store)
    decreases |acts|
  {
    if acts != [] {
      var n := |acts| - 1;
      assert Moves(ss[n], acts[n], ss[n + 1], device);
      LeakedBlocksStay(ss[..n + 1], acts[..n], device, id);
      StepKeepsInv(ss[n], acts[n], ss[n + 1], device);
    }
  }

  /** Whatever a reader gets from the cache is the device's data for the block it asked for. */
  lemma HitsAreTransparent<D>(ss: seq<State<D>>, acts: seq<Action<D>>, device: Id -> D, id: Id, data: D)
    requires Behavior(ss, acts, device) && Init(ss[0]) && CanStep(ss[|acts|], ReadHit(id, data), device)
    ensures data == device(id)
  {
    BehaviorKeepsInv(ss, acts, device);
  }

  /**
   Each asynchronous request is in exactly one place: waiting once, under the block it asked for, or answered
   once, with the device's data for that block.
   */
  lemma RequestsAreConserved<D>(ss: seq<State<D>>, acts: seq<Action<D>>, device: Id -> D)
    requires Behavior(ss, acts, device) && Init(ss[0])
    ensures DeskOk(ss[|acts|].desk, device)
  {
    BehaviorKeepsInv(ss, acts, device);
  }
}
