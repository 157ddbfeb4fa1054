/**
 What the steps of a run amount to, read off the labels alone: which server a thread works for, which servers are
 aborted, which threads a server has, and what has happened on each queue.
 */
module ProtocolLaws {
  import opened Wrappers
  import opened QueueSpec
  import opened Tasks
  import opened Protocol
  import opened ProtocolProofs
  import opened AbortProofs
  import opened BlockOnRuns

  /** The server that `t` last made its current one. */
  function LastSet<T>(ls: seq<Label<T>>, t: Tid): Option<nat> {
    if ls == [] then None
    else
      var x := ls[|ls| - 1];
      if x.thread == t && x.action.SetCurrent? then x.action.current else LastSet(ls[..|ls| - 1], t)
  }

  predicate WasAborted<T>(ls: seq<Label<T>>, v: nat) {
    exists i :: 0 <= i < |ls| && ls[i].action.Abort? && ls[i].action.server == v
  }

  /** The threads that attached themselves to server `v`, in order. */
  function AttachedBy<T>(ls: seq<Label<T>>, v: nat): seq<Tid> {
    if ls == [] then []
    else
      var x := ls[|ls| - 1];
      AttachedBy(ls[..|ls| - 1], v) + if x.action.Attach? && x.action.server == v then [x.thread] else []
  }

  /** The events on queue `q`, in order. */
  function EventsOn<T>(ls: seq<Label<T>>, q: nat): seq<Event<T>> {
    if ls == [] then []
    else
      var x := ls[|ls| - 1];
      EventsOn(ls[..|ls| - 1], q) + if x.action.Operate? && x.action.queue == q then [x.action.event] else []
  }

  lemma StepSetsCurrent<T>(s: State<T>, x: Label<T>, s': State<T>, t: Tid)
    requires Moves(s, x, s') && t < |s.threads|
    ensures |s'.threads| == |s.threads|
    ensures s'.threads[t].current ==
              if x.thread == t && x.action.SetCurrent? then x.action.current else s.threads[t].current
  {
    CountsStay(s, x.thread, x.action);
    if x.thread != t {
      OthersStay(s, x.thread, x.action, t);
    }
  }

  /** In every run, a thread works for the server it last made its current one. */
  lemma {:induction false} CurrentIsLastSet<T>(ss: seq<State<T>>, ls: seq<Label<T>>, t: Tid)
    requires Behavior(ss, ls) && Init(ss[0]) && t < |ss[0].threads|
    ensures t < |ss[|ls|].threads| && ss[|ls|].threads[t].current == LastSet(ls, t)
    decreases |ls|
  {
    if ls != [] {
      var n := |ls| - 1;
      LastStep(ss, ls);
      CurrentIsLastSet(ss[..n + 1], ls[..n], t);
      StepSetsCurrent(ss[n], ls[n], ss[n + 1], t);
    }
  }

  lemma StepAbortsAndAttaches<T>(s: State<T>, x: Label<T>, s': State<T>, v: nat)
    requires Moves(s, x, s') && v < |s.servers|
    ensures |s'.servers| == |s.servers|
    ensures s'.servers[v].aborted <==> s.servers[v].aborted || x.action == Abort(v)
    ensures s'.servers[v].threads == s.servers[v].threads + if x.action == Attach(v) then [x.thread] else []
  {
    ServersStay(s, x.thread, x.action, v);
  }

  /** In every run, the aborted servers are those that somebody aborted, and a server's threads those that attached. */
  lemma {:induction false} ServersAreAsLabelled<T>(ss: seq<State<T>>, ls: seq<Label<T>>, v: nat)
    requires Behavior(ss, ls) && Init(ss[0]) && v < |ss[0].servers|
    ensures v < |ss[|ls|].servers|
    ensures ss[|ls|].servers[v].aborted <==> WasAborted(ls, v)
    ensures ss[|ls|].servers[v].threads == AttachedBy(ls, v)
    decreases |ls|
  {
    if ls != [] {
      var n := |ls| - 1;
      LastStep(ss, ls);
      ServersAreAsLabelled(ss[..n + 1], ls[..n], v);
      StepAbortsAndAttaches(ss[n], ls[n], ss[n + 1], v);
      assert WasAborted(ls, v) <==> WasAborted(ls[..n], v) || ls[n].action == Abort(v) by {
        if i :| 0 <= i < n && ls[..n][i].action.Abort? && ls[..n][i].action.server == v {
          assert ls[i].action.Abort?;
        }
        if i :| 0 <= i < |ls| && ls[i].action.Abort? && ls[i].action.server == v {
          assert i < n ==> ls[..n][i] == ls[i];
        }
      }
    }
  }

  /** In every run, what happens on a queue is a run of its channel, so all that is proved of those holds of it. */
  lemma {:induction false} QueueRunsAreRuns<T>(ss: seq<State<T>>, ls: seq<Label<T>>, q: nat)
    returns (cs: seq<Channel<T>>)
    requires Behavior(ss, ls) && q < |ss[0].queues|
    ensures q < |ss[|ls|].queues| && Run(cs, EventsOn(ls, q))
    ensures cs[0] == ss[0].queues[q].channel && cs[|EventsOn(ls, q)|] == ss[|ls|].queues[q].channel
    decreases |ls|
  {
    if ls == [] {
      cs := [ss[0].queues[q].channel];
    } else {
      var n := |ls| - 1;
      LastStep(ss, ls);
      cs := QueueRunsAreRuns(ss[..n + 1], ls[..n], q);
      ChannelsStay(ss[n], ls[n].thread, ls[n].action, q);
      if ls[n].action.Operate? && ls[n].action.queue == q {
        var es, c := EventsOn(ls[..n], q), ss[n + 1].queues[q].channel;
        RunGoesOn(cs, es, ls[n].action.event, c);
        cs := cs + [c];
      }
    }
  }

  lemma RunGoesOn<T>(cs: seq<Channel<T>>, es: seq<Event<T>>, e: Event<T>, c: Channel<T>)
    requires Run(cs, es) && Next(cs[|es|], e, c)
    ensures Run(cs + [c], es + [e])
  {
    forall i | 0 <= i < |es| + 1
      ensures Next((cs + [c])[i], (es + [e])[i], (cs + [c])[i + 1])
    {
      assert i < |es| ==> Next(cs[i], es[i], cs[i + 1]);
    }
  }

  // ---------------------------------------------------------------------------------------------
  // An abort finds a parked thread.

  /**
   From every state with a thread `t` and another, `w`, in user code and a server `v` that is neither aborted nor being
   walked: `t` attaches to the server, works for it and parks on a blocker that is not ready, and `w` aborts the server.
   */
  lemma AbortFindsParkedThread<T>(ss: seq<State<T>>, ls: seq<Label<T>>, t: Tid, w: Tid, v: nat, b: Blocker)
    returns (ss': seq<State<T>>, ls': seq<Label<T>>)
    requires Behavior(ss, ls) && t != w && t < |ss[|ls|].threads| && w < |ss[|ls|].threads| && v < |ss[|ls|].servers|
    requires ss[|ls|].threads[t].pc.UserCode? && ss[|ls|].threads[w].pc.UserCode?
    requires !ss[|ls|].servers[v].aborted && ss[|ls|].servers[v].walker.None?
    requires b.queue < |ss[|ls|].queues| && !ShouldTry(ss[|ls|], b)
    ensures Behavior(ss', ls') && ss <= ss' && ss'[0] == ss[0]
    ensures var s := ss'[|ls'|];
            && t < |s.threads| && v < |s.servers| && t in s.servers[v].threads && s.threads[t].current == Some(v)
            && s.servers[v].aborted && s.threads[t].state == Blocked
            && s.servers[v].firstAborter == Some(w) && WillUnpark(s, w, t, v)
  {
    ss', ls' := Then(ss, ls, Label(t, Attach(v)));
    ss', ls' := Then(ss', ls', Label(t, SetCurrent(Some(v))));
    ss', ls' := ParksOn(ss', ls', t, b);
    ss', ls' := Then(ss', ls', Label(w, Abort(v)));
  }

  lemma ParksOn<T>(ss: seq<State<T>>, ls: seq<Label<T>>, t: Tid, b: Blocker)
    returns (ss': seq<State<T>>, ls': seq<Label<T>>)
    requires Behavior(ss, ls) && t < |ss[|ls|].threads| && ss[|ls|].threads[t].pc.UserCode?
    requires !IsAborted(ss[|ls|], ss[|ls|].threads[t].current) && b.queue < |ss[|ls|].queues| && !ShouldTry(ss[|ls|], b)
    ensures Behavior(ss', ls') && ss <= ss' && OnlyMoved(ss[|ls|], ss'[|ls'|], t)
    ensures ss'[|ls'|].threads[t] == Thread(Blocked, Parked([b]), ss[|ls|].threads[t].current)
  {
    ss', ls' := EntersBlockOn(ss, ls, t, [b]);
    ss', ls' := PassesBlocker(ss', ls', t, [b], 0, ss[|ls|].threads[t].current);
    OwnStepMoves(ss'[|ls'|], t, Continue);
    ss', ls' := Then(ss', ls', Label(t, Continue));
  }

  /** A fresh system in which it happens: the thread that first set the flag then has the parked one to unpark. */
  lemma FreshSystemAborts() returns (ss: seq<State<int>>, ls: seq<Label<int>>)
    ensures Behavior(ss, ls) && Init(ss[0])
    ensures var s := ss[|ls|];
            && 0 < |s.threads| && 0 < |s.servers| && 0 in s.servers[0].threads && s.threads[0].current == Some(0)
            && s.servers[0].aborted && s.threads[0].state == Blocked
            && s.servers[0].firstAborter == Some(1) && WillUnpark(s, 1, 0, 0)
  {
    var full := QueueState(Channel(2, 0, false, [7], Attached(1, 0), map[]), [], []);
    var s: State<int> := State([IDLE, IDLE], [full], [Server(false, [], None, None)]);
    ss, ls := AbortFindsParkedThread([s], [], 0, 1, 0, Blocker(0, ToSend));
  }
}
