// The kernel behind its serialised store: every interleaving of its calls is one of the runs that the other kernel
// modules are about.
module KernelStore {
  import opened Prelude
  import opened KernelTypes
  import opened KernelOps
  import Store = SerialStore
  import opened KernelSafety
  import opened KernelFrames
  import AgentKernel

  // ---- One transaction ---------------------------------------------------------------------------

  /** The kernel over its stored state. */
  class Kernel {
    const env: Env
    var stored: State

    constructor (env: Env)
      ensures this.env == env && stored == EMPTY_STATE
    {
      this.env := env;
      stored := EMPTY_STATE;
    }

    /** A call with nothing else in flight: a clone is operated on, and saved unless the operation throws. */
    method Transact(op: Op, now: int) returns (error: Error)
      modifies this
      ensures error == CallError(env, old(stored), op, now)
      ensures stored == Step(env, old(stored), op, now)
    {
      hide Step, CallError;
      CallThrows(env, stored, op, now);
      var draft := new AgentKernel.Draft(env, stored);
      error := draft.Perform(op, now);
      if error.None? {
        stored := draft.Snapshot();
      }
    }
  }

  /** A call that throws changes nothing. */
  lemma CallThrows(env: Env, s: State, op: Op, now: int)
    ensures CallError(env, s, op, now).Some? ==> Step(env, s, op, now) == s
  {
  }

  // ---- Every interleaving ------------------------------------------------------------------------

  /** The operation that a kernel call hands to its store. */
  ghost function Transaction(env: Env, op: Op, now: int): State -> Store.Outcome<State, ()> {
    s => if CallError(env, s, op, now).Some? then Store.Threw else Store.Returned(Step(env, s, op, now), ())
  }

  /** What a kernel's draft does is that operation. */
  method Operate(env: Env, op: Op, now: int, stored: State) returns (outcome: Store.Outcome<State, ()>)
    ensures outcome == Transaction(env, op, now)(stored)
  {
    hide Step, CallError;
    var draft := new AgentKernel.Draft(env, stored);
    var error := draft.Perform(op, now);
    if error.Some? {
      return Store.Threw;
    }
    return Store.Returned(draft.Snapshot(), ());
  }

  lemma TransactionsPerform(env: Env, op: Op, now: int)
    ensures Performs(env, Transaction(env, op, now), Event(op, now))
  {
    hide Step, CallError;
    forall s: State
      ensures CallError(env, s, op, now).Some? ==> Step(env, s, op, now) == s
    {
      CallThrows(env, s, op, now);
    }
  }

  /** A transaction of the kernel: it throws and discards its draft, or leaves the draft as the call's step does. */
  ghost predicate Performs<T(!new)>(env: Env, operation: State -> Store.Outcome<State, T>, e: Event) {
    forall s :: match operation(s)
                case Returned(draft, _) => draft == Step(env, s, e.op, e.now)
                case Threw => Step(env, s, e.op, e.now) == s
  }

  /** Event i is what the operation of call i performs. */
  ghost predicate Performed<T(!new)>(env: Env, calls: seq<Store.Call<State, T>>, events: seq<Event>) {
    |calls| == |events| && forall i :: 0 <= i < |calls| ==> Performs(env, calls[i].operation, events[i])
  }

  /** The events of the calls whose load and save worked. */
  ghost function Effective<T(!new)>(calls: seq<Store.Call<State, T>>, events: seq<Event>): seq<Event>
    requires |calls| == |events|
  {
    if calls == [] then []
    else
      var n := |calls| - 1;
      Effective(calls[..n], events[..n]) + if calls[n].broken then [] else [events[n]]
  }

  lemma {:induction false} SerialIsRun<T(!new)>(env: Env, calls: seq<Store.Call<State, T>>, events: seq<Event>)
    requires Performed(env, calls, events)
    ensures Store.Serially(EMPTY_STATE, calls) == Run(env, EMPTY_STATE, Effective(calls, events))
  {
    hide Step;
    if calls != [] {
      var n := |calls| - 1;
      SerialIsRun(env, calls[..n], events[..n]);
      var s, earlier := Store.Serially(EMPTY_STATE, calls[..n]), Effective(calls[..n], events[..n]);
      assert Performs(env, calls[n].operation, events[n]);
      if calls[n].broken {
        assert earlier + [] == earlier;
      } else {
        assert (earlier + [events[n]])[..|earlier|] == earlier;
      }
    }
  }

  /**
   * Whatever the interleaving of concurrent kernel calls, the stored state is that of a run: the calls that have
   * committed, in call order, without those whose store access failed.
   */
  lemma StoredStateIsReachable<T(!new)>(env: Env, run: seq<Store.Event<State, T>>, events: seq<Event>)
    requires Performed(env, Store.Run(EMPTY_STATE, run).calls, events)
    ensures var s := Store.Run(EMPTY_STATE, run);
            exists n :: 0 <= n <= |events| && s.stored == Run(env, EMPTY_STATE, Effective(s.calls[..n], events[..n]))
              && forall i :: 0 <= i < |s.calls| ==> (Store.Committed(s.calls[i]) <==> i < n)
  {
    var s := Store.Run(EMPTY_STATE, run);
    Store.TransactionsAreSerial(EMPTY_STATE, run);
    hide Step, Run, Performs;
    hide Store.Run;
    var n :| 0 <= n <= |s.calls| && s.stored == Store.Serially(EMPTY_STATE, s.calls[..n])
      && forall i :: 0 <= i < |s.calls| ==> (Store.Committed(s.calls[i]) <==> i < n);
    SerialIsRun(env, s.calls[..n], events[..n]);
  }
}
