// SerializedStore.transact (agent-kernel/src/store.ts) under every interleaving of concurrent calls, cut at its awaits.
module SerialStore {
  import opened Prelude

  /** What an operation does with the draft it is given. */
  datatype Outcome<S, T> = Returned(draft: S, result: T) | Threw

  /**
   * Where a call stands: before `await previous`, after it, holding a loaded draft, about to save, after the save,
   * and settled with its result, None when it rejects.
   */
  datatype Phase<S, T> = Waiting | Entered | Drafting(draft: S) | Saving(draft: S, result: T) | Saved(result: T)
                       | Settled(answer: Option<T>)

  /** previous and own name promises; broken says that load or save itself rejected. */
  datatype Call<!S, T> = Call(operation: S -> Outcome<S, T>, previous: nat, own: nat, phase: Phase<S, T>, broken: bool)

  /** The stored state, the promise in mutationTail, the promises resolved so far and every call made. */
  datatype System<!S, T> = System(stored: S, tail: nat, resolved: set<nat>, calls: seq<Call<S, T>>)

  datatype Event<!S, T> = Transact(operation: S -> Outcome<S, T>) | Enter(i: nat) | Load(i: nat) | Operate(i: nat)
                        | Save(i: nat) | Finish(i: nat) | Break(i: nat)

  function Initial<S, T>(initial: S): System<S, T> {
    System(initial, 0, {0}, [])
  }

  predicate Enabled<S, T>(s: System<S, T>, e: Event<S, T>) {
    if e.Transact? then true
    else
      e.i < |s.calls| && var call := s.calls[e.i];
      match e
      case Enter(_) => call.phase.Waiting? && call.previous in s.resolved
      case Load(_) => call.phase.Entered?
      case Operate(_) => call.phase.Drafting?
      case Save(_) => call.phase.Saving?
      case Finish(_) => call.phase.Saved?
      case Break(_) => call.phase.Entered? || call.phase.Saving?
  }

  function SetPhase<S, T>(s: System<S, T>, i: nat, phase: Phase<S, T>): System<S, T>
    requires i < |s.calls|
  {
    s.(calls := s.calls[i := s.calls[i].(phase := phase)])
  }

  /** The finally block: the call's own promise resolves. */
  function Released<S, T>(s: System<S, T>, i: nat, answer: Option<T>): System<S, T>
    requires i < |s.calls|
  {
    SetPhase(s, i, Settled(answer)).(resolved := s.resolved + {s.calls[i].own})
  }

  /** One scheduler turn; an event that is not enabled does not happen. */
  function Next<S, T>(s: System<S, T>, e: Event<S, T>): System<S, T> {
    if !Enabled(s, e) then s
    else
      match e
      case Transact(operation) =>
        var own := |s.calls| + 1;
        s.(tail := own, calls := s.calls + [Call(operation, s.tail, own, Waiting, false)])
      case Enter(i) => SetPhase(s, i, Entered)
      case Load(i) => SetPhase(s, i, Drafting(s.stored))
      case Operate(i) =>
        var outcome := s.calls[i].operation(s.calls[i].phase.draft);
        if outcome.Threw? then Released(s, i, None) else SetPhase(s, i, Saving(outcome.draft, outcome.result))
      case Save(i) => SetPhase(s, i, Saved(s.calls[i].phase.result)).(stored := s.calls[i].phase.draft)
      case Finish(i) => Released(s, i, Some(s.calls[i].phase.result))
      case Break(i) =>
        var r := Released(s, i, None);
        r.(calls := r.calls[i := r.calls[i].(broken := true)])
  }

  function Run<S, T>(initial: S, run: seq<Event<S, T>>): System<S, T> {
    if run == [] then Initial(initial) else Next(Run(initial, run[..|run| - 1]), run[|run| - 1])
  }

  // ---- One call after another --------------------------------------------------------------------

  /** The state and answer of a call that runs alone. */
  function Alone<S, T>(call: Call<S, T>, s: S): (S, Option<T>) {
    if call.broken || call.operation(s).Threw? then (s, None)
    else (call.operation(s).draft, Some(call.operation(s).result))
  }

  function Serially<S, T>(initial: S, calls: seq<Call<S, T>>): S {
    if calls == [] then initial
    else Alone(calls[|calls| - 1], Serially(initial, calls[..|calls| - 1])).0
  }

  /** What holds while it is call k's turn. */
  ghost predicate TurnOf<S, T>(initial: S, s: System<S, T>, k: nat) {
    && k <= |s.calls| && s.tail == |s.calls|
    && (forall p :: p in s.resolved <==> 0 <= p <= k)
    && (forall i :: 0 <= i < |s.calls| ==> s.calls[i].previous == i && s.calls[i].own == i + 1)
    && Answered(initial, s.calls, k)
    && (forall i :: k < i < |s.calls| ==> s.calls[i].phase.Waiting?)
    && (forall i :: k <= i < |s.calls| ==> !s.calls[i].broken)
    && (if k < |s.calls| then Holder(initial, s, k) else s.stored == Serially(initial, s.calls))
  }

  /** The state that call k finds and, by its phase, what it has made of it. */
  ghost predicate Holder<S, T>(initial: S, s: System<S, T>, k: nat)
    requires k < |s.calls|
  {
    var before, call := Serially(initial, s.calls[..k]), s.calls[k];
    match call.phase
    case Waiting => s.stored == before
    case Entered => s.stored == before
    case Drafting(draft) => s.stored == before && draft == before
    case Saving(draft, result) => s.stored == before && call.operation(before) == Returned(draft, result)
    case Saved(result) => call.operation(before) == Returned(s.stored, result)
    case Settled(_) => false
  }

  lemma SeriallyFirst<S, T>(initial: S, a: seq<Call<S, T>>, b: seq<Call<S, T>>, n: nat)
    requires n <= |a| && n <= |b| && a[..n] == b[..n]
    ensures forall i :: 0 <= i <= n ==> Serially(initial, a[..i]) == Serially(initial, b[..i])
  {
    forall i | 0 <= i <= n ensures a[..i] == b[..i] {
      assert a[..i] == a[..n][..i] && b[..i] == b[..n][..i];
    }
  }

  /** The turn before is the last of a longer series. */
  lemma SeriallyNext<S, T>(initial: S, calls: seq<Call<S, T>>, k: nat, call: Call<S, T>)
    requires k < |calls|
    ensures Serially(initial, calls[k := call][..k + 1]) == Alone(call, Serially(initial, calls[..k])).0
  {
    assert calls[k := call][..k + 1] == calls[..k] + [call];
    assert (calls[..k] + [call])[..k] == calls[..k];
  }

  /** The first k calls have answered what they answer alone, one after another. */
  ghost predicate Answered<S, T>(initial: S, calls: seq<Call<S, T>>, k: nat)
    requires k <= |calls|
  {
    forall i :: 0 <= i < k ==> calls[i].phase == Settled(Alone(calls[i], Serially(initial, calls[..i])).1)
  }

  lemma AnsweredMore<S, T>(initial: S, calls: seq<Call<S, T>>, k: nat, call: Call<S, T>)
    requires k < |calls| && Answered(initial, calls, k)
    requires call.phase == Settled(Alone(call, Serially(initial, calls[..k])).1)
    ensures Answered(initial, calls[k := call], k + 1)
  {
    SeriallyFirst(initial, calls, calls[k := call], k);
    hide Serially, Alone;
  }

  /** A turn ends with the answer and the state that the call gets when it runs alone. */
  lemma TurnEnds<S, T>(initial: S, s: System<S, T>, r: System<S, T>, k: nat, call: Call<S, T>)
    requires TurnOf(initial, s, k) && k < |s.calls|
    requires call.operation == s.calls[k].operation && call.previous == k && call.own == k + 1
    requires r == s.(calls := s.calls[k := call], resolved := s.resolved + {k + 1})
    requires call.phase.Settled? && Alone(call, Serially(initial, s.calls[..k])) == (s.stored, call.phase.answer)
    ensures TurnOf(initial, r, k + 1)
  {
    hide Serially, Alone, Holder, Answered;
    SeriallyNext(initial, s.calls, k, call);
    AnsweredMore(initial, s.calls, k, call);
    NextTurnStarts(initial, r, k + 1);
  }

  /** Between two turns the next call, if there is one, has not begun. */
  lemma NextTurnStarts<S, T>(initial: S, r: System<S, T>, k: nat)
    requires k <= |r.calls| && r.stored == Serially(initial, r.calls[..k])
    requires k < |r.calls| ==> r.calls[k].phase.Waiting?
    ensures if k < |r.calls| then Holder(initial, r, k) else r.stored == Serially(initial, r.calls)
  {
    hide Serially;
    if k == |r.calls| {
      assert r.calls[..k] == r.calls;
    }
  }

  /** A turn goes on while only call k's phase and the stored state change. */
  lemma TurnGoesOn<S, T>(initial: S, s: System<S, T>, r: System<S, T>, k: nat, phase: Phase<S, T>)
    requires TurnOf(initial, s, k) && k < |s.calls|
    requires r == SetPhase(s, k, phase).(stored := r.stored)
    requires Serially(initial, r.calls[..k]) == Serially(initial, s.calls[..k]) ==> Holder(initial, r, k)
    ensures TurnOf(initial, r, k)
  {
    SeriallyFirst(initial, s.calls, r.calls, k);
  }

  lemma ArrivalKeepsTurn<S, T>(initial: S, s: System<S, T>, e: Event<S, T>, k: nat)
    requires TurnOf(initial, s, k) && e.Transact?
    ensures TurnOf(initial, Next(s, e), k)
  {
    hide Serially;
    var r := Next(s, e);
    SeriallyFirst(initial, s.calls, r.calls, |s.calls|);
    assert r.calls[..|s.calls|] == s.calls == s.calls[..|s.calls|];
  }

  lemma NextKeepsTurn<S, T>(initial: S, s: System<S, T>, e: Event<S, T>, k: nat)
    requires TurnOf(initial, s, k)
    ensures TurnOf(initial, Next(s, e), k) || TurnOf(initial, Next(s, e), k + 1)
  {
    hide Serially;
    var r := Next(s, e);
    if !Enabled(s, e) {
      return;
    }
    if e.Transact? {
      ArrivalKeepsTurn(initial, s, e, k);
      return;
    }
    assert e.i == k;
    var call := s.calls[k];
    match e
    case Enter(_) => TurnGoesOn(initial, s, r, k, Entered);
    case Load(_) => TurnGoesOn(initial, s, r, k, Drafting(s.stored));
    case Operate(_) =>
      var outcome := call.operation(call.phase.draft);
      if outcome.Threw? {
        TurnEnds(initial, s, r, k, call.(phase := Settled(None)));
      } else {
        TurnGoesOn(initial, s, r, k, Saving(outcome.draft, outcome.result));
      }
    case Save(_) => TurnGoesOn(initial, s, r, k, Saved(call.phase.result));
    case Finish(_) => TurnEnds(initial, s, r, k, call.(phase := Settled(Some(call.phase.result))));
    case Break(_) => TurnEnds(initial, s, r, k, call.(phase := Settled(None), broken := true));
  }

  lemma {:induction false} RunHasTurn<S, T>(initial: S, run: seq<Event<S, T>>) returns (k: nat)
    ensures TurnOf(initial, Run(initial, run), k)
  {
    hide TurnOf, Next;
    if run == [] {
      k := 0;
      FirstTurn<S, T>(initial);
    } else {
      k := RunHasTurn(initial, run[..|run| - 1]);
      NextKeepsTurn(initial, Run(initial, run[..|run| - 1]), run[|run| - 1], k);
      if !TurnOf(initial, Run(initial, run), k) {
        k := k + 1;
      }
    }
  }

  lemma FirstTurn<S, T>(initial: S)
    ensures TurnOf(initial, Initial<S, T>(initial), 0)
  {
  }

  // ---- What every interleaving guarantees --------------------------------------------------------

  predicate Active<S, T>(call: Call<S, T>) {
    !call.phase.Waiting? && !call.phase.Settled?
  }

  predicate Committed<S, T>(call: Call<S, T>) {
    call.phase.Settled? || call.phase.Saved?
  }

  /**
   * Whatever the interleaving: at most one call is between its awaits, calls commit in call order, the stored state
   * is the one the committed calls produce one after another, and each settled call answered what it answers alone
   * on the state its predecessors left. A call that throws, or whose load or save rejects, leaves the state alone.
   */
  lemma TransactionsAreSerial<S, T>(initial: S, run: seq<Event<S, T>>)
    ensures var s := Run(initial, run);
            && (forall i, j :: 0 <= i < |s.calls| && 0 <= j < |s.calls| && Active(s.calls[i]) && Active(s.calls[j]) ==>
                  i == j)
            && (forall i :: 0 <= i < |s.calls| && s.calls[i].phase.Settled? ==>
                  s.calls[i].phase.answer == Alone(s.calls[i], Serially(initial, s.calls[..i])).1)
            && (exists n :: 0 <= n <= |s.calls| && s.stored == Serially(initial, s.calls[..n])
                  && forall i :: 0 <= i < |s.calls| ==> (Committed(s.calls[i]) <==> i < n))
  {
    var s := Run(initial, run);
    var k := RunHasTurn(initial, run);
    hide Run, Next;
    var n := if k < |s.calls| && s.calls[k].phase.Saved? then k + 1 else k;
    assert s.calls[..|s.calls|] == s.calls;
    if n == k + 1 {
      assert s.calls[..n][..k] == s.calls[..k];
    }
    assert s.stored == Serially(initial, s.calls[..n]);
    assert forall i :: 0 <= i < |s.calls| ==> (Committed(s.calls[i]) <==> i < n);
  }

  /** The operations that were called, in call order. */
  function Arrivals<S, T>(run: seq<Event<S, T>>): seq<S -> Outcome<S, T>> {
    if run == [] then []
    else Arrivals(run[..|run| - 1]) + if run[|run| - 1].Transact? then [run[|run| - 1].operation] else []
  }

  /** The calls are those that were made, and only a load or save that rejects breaks one. */
  lemma {:induction false} CallsAsMade<S, T>(initial: S, run: seq<Event<S, T>>)
    ensures var s := Run(initial, run);
            && |s.calls| == |Arrivals(run)|
            && (forall i :: 0 <= i < |s.calls| ==> s.calls[i].operation == Arrivals(run)[i])
            && (forall i: nat :: i < |s.calls| && s.calls[i].broken ==> Break(i) in run)
  {
    if run != [] {
      var earlier, last := run[..|run| - 1], run[|run| - 1];
      CallsAsMade(initial, earlier);
      NextAsMade(Run(initial, earlier), last);
      hide Next;
      forall i: nat | i < |Run(initial, run).calls| && Run(initial, run).calls[i].broken
        ensures Break(i) in run
      {
        if last == Break(i) { assert run[|run| - 1] == Break(i); } else { assert Break(i) in earlier; }
      }
    }
  }

  lemma NextAsMade<S, T>(s: System<S, T>, e: Event<S, T>)
    ensures var r := Next(s, e);
            && |r.calls| == |s.calls| + (if e.Transact? then 1 else 0)
            && (forall i :: 0 <= i < |s.calls| ==>
                  && r.calls[i].operation == s.calls[i].operation
                  && (r.calls[i].broken ==> s.calls[i].broken || e == Break(i)))
            && (e.Transact? ==>
                  r.calls[|s.calls|].operation == e.operation && !r.calls[|s.calls|].broken)
  {
  }

  /** No call is ever stuck: while one has not settled, some segment can run. */
  lemma NothingBlocks<S, T>(initial: S, run: seq<Event<S, T>>, i: nat)
    requires i < |Run(initial, run).calls| && !Run(initial, run).calls[i].phase.Settled?
    ensures exists e: Event<S, T> :: !e.Transact? && e.i <= i && Enabled(Run(initial, run), e)
  {
    var s := Run(initial, run);
    var k := RunHasTurn(initial, run);
    hide Run, Next, Serially;
    assert k <= i;
    var phase := s.calls[k].phase;
    var e: Event<S, T> := if phase.Waiting? then Enter(k) else if phase.Entered? then Load(k)
                          else if phase.Drafting? then Operate(k) else if phase.Saving? then Save(k) else Finish(k);
    assert Enabled(s, e);
  }

  function Remaining<S, T>(phase: Phase<S, T>): nat {
    match phase
    case Waiting => 5
    case Entered => 4
    case Drafting(_) => 3
    case Saving(_, _) => 2
    case Saved(_) => 1
    case Settled(_) => 0
  }

  function Work<S, T>(calls: seq<Call<S, T>>): nat {
    if calls == [] then 0 else Work(calls[..|calls| - 1]) + Remaining(calls[|calls| - 1].phase)
  }

  lemma {:induction false} WorkUpdated<S, T>(calls: seq<Call<S, T>>, i: nat, call: Call<S, T>)
    requires i < |calls|
    ensures Work(calls[i := call]) == Work(calls) - Remaining(calls[i].phase) + Remaining(call.phase)
  {
    var last := |calls| - 1;
    if i == last {
      assert calls[i := call][..last] == calls[..last];
    } else {
      assert calls[i := call][..last] == calls[..last][i := call];
      WorkUpdated(calls[..last], i, call);
    }
  }

  /** Every segment that runs uses up work, so once no more calls arrive they all settle. */
  lemma SegmentsTerminate<S, T>(s: System<S, T>, e: Event<S, T>)
    requires Enabled(s, e) && !e.Transact?
    ensures Work(Next(s, e).calls) < Work(s.calls)
  {
    hide Work;
    var r := Next(s, e);
    WorkUpdated(s.calls, e.i, r.calls[e.i]);
    assert r.calls == s.calls[e.i := r.calls[e.i]];
  }

  // ---- The store object --------------------------------------------------------------------------

  /** The object, its methods cut at each await; a promise is the number of the call that resolves it, plus one. */
  class SerializedStore<S, T> {
    var state: S
    var mutationTail: nat
    var resolved: set<nat>
    var calls: seq<Call<S, T>>

    constructor (initial: S)
      ensures Snapshot() == Initial(initial)
    {
      state, mutationTail, resolved, calls := initial, 0, {0}, [];
    }

    ghost function Snapshot(): System<S, T>
      reads this
    {
      System(state, mutationTail, resolved, calls)
    }

    /** transact, up to `await previous`. */
    method Transact(operation: S -> Outcome<S, T>) returns (i: nat)
      modifies this
      ensures i == old(|calls|) && Snapshot() == Next(old(Snapshot()), Event.Transact(operation))
    {
      i := |calls|;
      var previous := mutationTail;
      mutationTail := i + 1;
      calls := calls + [Call(operation, previous, i + 1, Waiting, false)];
    }

    method Enter(i: nat)
      requires Enabled(Snapshot(), Event.Enter(i))
      modifies this
      ensures Snapshot() == Next(old(Snapshot()), Event.Enter(i))
    {
      calls := calls[i := calls[i].(phase := Entered)];
    }

    /** draft = clone(await this.load()). */
    method Load(i: nat)
      requires Enabled(Snapshot(), Event.Load(i))
      modifies this
      ensures Snapshot() == Next(old(Snapshot()), Event.Load(i))
    {
      calls := calls[i := calls[i].(phase := Drafting(state))];
    }

    method Operate(i: nat)
      requires Enabled(Snapshot(), Event.Operate(i))
      modifies this
      ensures Snapshot() == Next(old(Snapshot()), Event.Operate(i))
    {
      match calls[i].operation(calls[i].phase.draft)
      case Returned(draft, result) => calls := calls[i := calls[i].(phase := Saving(draft, result))];
      case Threw => Release(i, None);
    }

    method Save(i: nat)
      requires Enabled(Snapshot(), Event.Save(i))
      modifies this
      ensures Snapshot() == Next(old(Snapshot()), Event.Save(i))
    {
      state := calls[i].phase.draft;
      calls := calls[i := calls[i].(phase := Saved(calls[i].phase.result))];
    }

    method Finish(i: nat)
      requires Enabled(Snapshot(), Event.Finish(i))
      modifies this
      ensures Snapshot() == Next(old(Snapshot()), Event.Finish(i))
    {
      Release(i, Some(calls[i].phase.result));
    }

    /** load or save rejects. */
    method Break(i: nat)
      requires Enabled(Snapshot(), Event.Break(i))
      modifies this
      ensures Snapshot() == Next(old(Snapshot()), Event.Break(i))
    {
      Release(i, None);
      calls := calls[i := calls[i].(broken := true)];
    }

    method Release(i: nat, answer: Option<T>)
      requires i < |calls|
      modifies this
      ensures Snapshot() == Released(old(Snapshot()), i, answer)
    {
      resolved := resolved + {calls[i].own};
      calls := calls[i := calls[i].(phase := Settled(answer))];
    }
  }
}
