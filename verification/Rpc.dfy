/**
 Method calls between servers, on one thread: the wrapper that the macros put around each method body, the guard
 that switches the current server, and what a panic does on its way up.
 */
module Rpc {
  import opened Wrappers

  datatype OnError = Ignore | Propagate | Unwrap

  /** What a method body does, as far as the framework can tell. */
  datatype Instr =
    | Invoke(call: Call, onError: OnError)
    | AbortPoint  // `CurrentServer::abort_point`
    | Panic
    | ReturnError

  datatype Call = Call(server: nat, body: seq<Instr>)

  datatype Result = Ok | ServerMissing | PanicError | MethodError

  /** How a body ends: by returning, or by unwinding. */
  datatype Exit = Returns(result: Result) | Unwinds

  datatype Entry = BodyStarted(server: nat) | BodyPanicked(server: nat)

  function PanickedIn(log: seq<Entry>): set<nat> {
    set e | e in log && e.BodyPanicked? :: e.server
  }

  /** No body ran on a server that had been aborted by then. */
  ghost predicate NoneOnAborted(aborted: set<nat>, log: seq<Entry>) {
    forall k :: 0 <= k < |log| && log[k].BodyStarted? ==> log[k].server !in aborted + PanickedIn(log[..k])
  }

  lemma PanickedInMeans(log: seq<Entry>, v: nat)
    ensures v in PanickedIn(log) <==> BodyPanicked(v) in log
  {
    assert BodyPanicked(v) in log ==> BodyPanicked(v).server in PanickedIn(log);
  }

  lemma PanickedInConcat(a: seq<Entry>, b: seq<Entry>)
    ensures PanickedIn(a + b) == PanickedIn(a) + PanickedIn(b)
  {
    forall e | e in a || e in b
      ensures e in a + b
    {
    }
  }

  lemma NoneOnAbortedConcat(aborted: set<nat>, a: seq<Entry>, b: seq<Entry>)
    requires NoneOnAborted(aborted, a) && NoneOnAborted(aborted + PanickedIn(a), b)
    ensures NoneOnAborted(aborted, a + b)
  {
    forall k | 0 <= k < |a + b| && (a + b)[k].BodyStarted?
      ensures (a + b)[k].server !in aborted + PanickedIn((a + b)[..k])
    {
      if k < |a| {
        assert (a + b)[..k] == a[..k];
      } else {
        assert (a + b)[..k] == a + b[..k - |a|];
        PanickedInConcat(a, b[..k - |a|]);
      }
    }
  }

  // ---------------------------------------------------------------------------------------------
  // What a call means, with no current server to switch and restore: a body's abort points look at the server
  // the body belongs to, and the aborted servers are the ones whose body has panicked.

  datatype CallOutcome = CallOutcome(result: Result, log: seq<Entry>)

  datatype BodyOutcome = BodyOutcome(exit: Exit, log: seq<Entry>)

  function EvalCall(call: Call, aborted: set<nat>): CallOutcome
    decreases call, 1
  {
    if call.server in aborted then CallOutcome(ServerMissing, [])
    else
      var body := EvalFrom(call, 0, aborted);
      var log := [BodyStarted(call.server)] + body.log;
      match body.exit
      case Returns(result) => CallOutcome(result, log)
      case Unwinds => CallOutcome(PanicError, log + [BodyPanicked(call.server)])
  }

  /** The body of `call` from instruction `k` on. */
  function EvalFrom(call: Call, k: nat, aborted: set<nat>): BodyOutcome
    requires k <= |call.body|
    decreases call, 0, |call.body| - k
  {
    if k == |call.body| then BodyOutcome(Returns(Ok), [])
    else
      match call.body[k]
      case Panic => BodyOutcome(Unwinds, [])
      case ReturnError => BodyOutcome(Returns(MethodError), [])
      case AbortPoint => if call.server in aborted then BodyOutcome(Unwinds, []) else EvalFrom(call, k + 1, aborted)
      case Invoke(inner, onError) =>
        var o := EvalCall(inner, aborted);
        if o.result != Ok && onError.Unwrap? then BodyOutcome(Unwinds, o.log)
        else if o.result != Ok && onError.Propagate? then BodyOutcome(Returns(o.result), o.log)
        else
          var rest := EvalFrom(call, k + 1, aborted + PanickedIn(o.log));
          BodyOutcome(rest.exit, o.log + rest.log)
  }

  // ---------------------------------------------------------------------------------------------
  // The same, read off the instructions a body passes: `said[i]` is what has happened in the call before
  // instruction `i`, and `n` is where the body ends.

  /**
   How a call ends. Each instruction before the `n`th is passed, that is, it is an abort point of a server not
   aborted by then, or a call that succeeds or whose failure is ignored. The call succeeds iff it passes them all,
   and otherwise the `n`th alone decides: a returned error is the caller's error, a panic, a failed abort point and
   an unwrapped failure shut the server, and a propagated failure is handed on as it is.
   */
  lemma {:induction false} CallEnds(call: Call, aborted: set<nat>) returns (n: nat, said: seq<seq<Entry>>)
    requires call.server !in aborted
    ensures n <= |call.body| && |said| == n + 1 && said[0] == [BodyStarted(call.server)]
    ensures forall i :: 0 <= i < n ==> call.body[i].AbortPoint? || call.body[i].Invoke?
    ensures forall i :: 0 <= i < n && call.body[i].AbortPoint? ==> call.server !in PanickedIn(said[i])
    ensures forall i :: 0 <= i < n && call.body[i].AbortPoint? ==> said[i + 1] == said[i]
    ensures forall i :: 0 <= i < n && call.body[i].Invoke? ==>
              || call.body[i].onError == Ignore
              || EvalCall(call.body[i].call, aborted + PanickedIn(said[i])).result == Ok
    ensures forall i :: 0 <= i < n && call.body[i].Invoke? ==>
              said[i + 1] == said[i] + EvalCall(call.body[i].call, aborted + PanickedIn(said[i])).log
    ensures var o, panicked := EvalCall(call, aborted), [BodyPanicked(call.server)];
            && (o.result == Ok <==> n == |call.body|)
            && if n == |call.body| then o.log == said[n]
               else match call.body[n]
                 case ReturnError => o == CallOutcome(MethodError, said[n])
                 case Panic => o == CallOutcome(PanicError, said[n] + panicked)
                 case AbortPoint =>
                   call.server in PanickedIn(said[n]) && o == CallOutcome(PanicError, said[n] + panicked)
                 case Invoke(inner, onError) =>
                   var failed := EvalCall(inner, aborted + PanickedIn(said[n]));
                   && failed.result != Ok && onError != Ignore
                   && (onError == Propagate ==> o == CallOutcome(failed.result, said[n] + failed.log))
                   && (onError == Unwrap ==> o == CallOutcome(PanicError, said[n] + failed.log + panicked))
  {
    n, said := BodyStops(call, aborted);
    forall i | 0 <= i < n
      ensures call.body[i].AbortPoint? || call.body[i].Invoke?
    {
      assert Passes(call, i, aborted + PanickedIn(said[i]));
    }
  }

  /** How far the body gets, and what is left of its outcome there. */
  lemma {:induction false} BodyStops(call: Call, aborted: set<nat>) returns (n: nat, said: seq<seq<Entry>>)
    requires call.server !in aborted
    ensures n <= |call.body| && |said| == n + 1 && said[0] == [BodyStarted(call.server)]
    ensures forall i :: 0 <= i < n ==> Passes(call, i, aborted + PanickedIn(said[i]))
    ensures forall i :: 0 <= i < n ==> said[i + 1] == said[i] + Heard(call, i, aborted + PanickedIn(said[i]))
    ensures var body, rest := EvalFrom(call, 0, aborted), EvalFrom(call, n, aborted + PanickedIn(said[n]));
            body.exit == rest.exit && said[0] + body.log == said[n] + rest.log
    ensures n < |call.body| ==> !Passes(call, n, aborted + PanickedIn(said[n]))
  {
    n, said := 0, [[BodyStarted(call.server)]];
    var body, now := EvalFrom(call, 0, aborted), aborted;
    assert PanickedIn(said[0]) == {};
    while n < |call.body| && Passes(call, n, now)
      invariant n <= |call.body| && |said| == n + 1 && said[0] == [BodyStarted(call.server)]
      invariant forall i :: 0 <= i < n ==> Passes(call, i, aborted + PanickedIn(said[i]))
      invariant forall i :: 0 <= i < n ==> said[i + 1] == said[i] + Heard(call, i, aborted + PanickedIn(said[i]))
      invariant now == aborted + PanickedIn(said[n])
      invariant body.exit == EvalFrom(call, n, now).exit
      invariant said[0] + body.log == said[n] + EvalFrom(call, n, now).log
    {
      var heard := Heard(call, n, now);
      PassesOn(call, n, now);
      PanickedInConcat(said[n], heard);
      said, now, n := said + [said[n] + heard], now + PanickedIn(heard), n + 1;
    }
  }

  ghost predicate Passes(call: Call, n: nat, aborted: set<nat>)
    requires n < |call.body|
  {
    || (call.body[n].AbortPoint? && call.server !in aborted)
    || (&& call.body[n].Invoke?
        && (EvalCall(call.body[n].call, aborted).result == Ok || call.body[n].onError == Ignore))
  }

  ghost function Heard(call: Call, n: nat, aborted: set<nat>): seq<Entry>
    requires n < |call.body|
  {
    if call.body[n].Invoke? then EvalCall(call.body[n].call, aborted).log else []
  }

  lemma PassesOn(call: Call, n: nat, aborted: set<nat>)
    requires n < |call.body| && Passes(call, n, aborted)
    ensures var heard := Heard(call, n, aborted);
            var rest := EvalFrom(call, n + 1, aborted + PanickedIn(heard));
            EvalFrom(call, n, aborted) == BodyOutcome(rest.exit, heard + rest.log)
  {
    if call.body[n].AbortPoint? {
      assert aborted + PanickedIn([]) == aborted;
    }
  }

  /** In any call tree, no body runs on a server that was aborted before or has panicked earlier in the tree. */
  lemma {:induction false} NoBodyOnAborted(call: Call, aborted: set<nat>)
    ensures NoneOnAborted(aborted, EvalCall(call, aborted).log)
    ensures call.server in aborted ==> EvalCall(call, aborted) == CallOutcome(ServerMissing, [])
    decreases call, 1
  {
    if call.server !in aborted {
      var start, body := [BodyStarted(call.server)], EvalFrom(call, 0, aborted);
      assert PanickedIn(start) == {};
      assert aborted + {} == aborted;
      NoBodyOnAbortedFrom(call, 0, aborted);
      NoneOnAbortedConcat(aborted, start, body.log);
      NoneOnAbortedConcat(aborted, start + body.log, [BodyPanicked(call.server)]);
    }
  }

  lemma {:induction false} NoBodyOnAbortedFrom(call: Call, k: nat, aborted: set<nat>)
    requires k <= |call.body|
    ensures NoneOnAborted(aborted, EvalFrom(call, k, aborted).log)
    decreases call, 0, |call.body| - k
  {
    if k < |call.body| {
      match call.body[k]
      case Invoke(inner, _) =>
        var o := EvalCall(inner, aborted);
        NoBodyOnAborted(inner, aborted);
        NoBodyOnAbortedFrom(call, k + 1, aborted + PanickedIn(o.log));
        NoneOnAbortedConcat(aborted, o.log, EvalFrom(call, k + 1, aborted + PanickedIn(o.log)).log);
      case AbortPoint => NoBodyOnAbortedFrom(call, k + 1, aborted);
      case _ =>
    }
  }

  /** Once a body has panicked, every later call on its server is refused without running anything. */
  lemma PanicShutsTheServer(call: Call, aborted: set<nat>, later: Call)
    requires call.server !in aborted && EvalFrom(call, 0, aborted).exit.Unwinds? && later.server == call.server
    ensures EvalCall(call, aborted).result == PanicError
    ensures EvalCall(later, aborted + PanickedIn(EvalCall(call, aborted).log)) == CallOutcome(ServerMissing, [])
  {
    var log := EvalCall(call, aborted).log;
    assert log[|log| - 1] == BodyPanicked(call.server);
  }

  /** The thread-local current server, the guard that restores it, and the servers' aborted flags. */
  class Framework {
    var current: Option<nat>
    var aborted: set<nat>

    constructor ()
      ensures current == None && aborted == {}
    {
      current, aborted := None, {};
    }

    /**
     One method call, with all the calls nested in it. Panics or not, it returns what the call means, with the
     caller's server current again, and exactly the servers whose body panicked are aborted in addition.
     */
    method CallMethod(call: Call) returns (result: Result, log: seq<Entry>)
      modifies this
      ensures CallOutcome(result, log) == EvalCall(call, old(aborted))
      ensures current == old(current)
      ensures aborted == old(aborted) + PanickedIn(log)
      decreases call, 1
    {
      if call.server in aborted {
        return ServerMissing, [];
      }
      var previous := current;
      current := Some(call.server);
      log := [BodyStarted(call.server)];
      var exit, inner := RunBody(call);
      PanickedInConcat(log, inner);
      log := log + inner;
      current := previous;  // the guard is dropped on return and on unwinding alike
      match exit
      case Returns(r) => result := r;
      case Unwinds =>
        aborted := aborted + {call.server};
        PanickedInConcat(log, [BodyPanicked(call.server)]);
        log := log + [BodyPanicked(call.server)];
        result := PanicError;
    }

    method RunBody(running: Call) returns (exit: Exit, log: seq<Entry>)
      requires current == Some(running.server)
      modifies this
      ensures BodyOutcome(exit, log) == EvalFrom(running, 0, old(aborted))
      ensures current == old(current)
      ensures aborted == old(aborted) + PanickedIn(log)
      decreases running, 0
    {
      log := [];
      for k := 0 to |running.body|
        invariant current == old(current)
        invariant aborted == old(aborted) + PanickedIn(log)
        invariant EvalFrom(running, 0, old(aborted))
               == BodyOutcome(EvalFrom(running, k, aborted).exit, log + EvalFrom(running, k, aborted).log)
      {
        match running.body[k]
        case AbortPoint =>
          if current.Some? && current.value in aborted {
            return Unwinds, log;
          }
        case Panic => return Unwinds, log;
        case ReturnError => return Returns(MethodError), log;
        case Invoke(call, onError) =>
          var r, inner := CallMethod(call);
          PanickedInConcat(log, inner);
          log := log + inner;
          if r != Ok && onError.Unwrap? {
            return Unwinds, log;
          }
          if r != Ok && onError.Propagate? {
            return Returns(r), log;
          }
      }
      return Returns(Ok), log;
    }
  }
}
