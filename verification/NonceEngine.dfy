// NonceEngine (sdk/src/nonce.ts): nonces per account and channel behind a lock per key, under every interleaving.
module NonceEngine {
  import opened Prelude

  /** Before `await previous`, after it, holding the value read, having stored its successor, and settled. */
  datatype Phase = Waiting | Entered | Got(value: nat) | Stored(value: nat) | Settled(issued: Option<nat>)

  /** previous is the call whose lock promise this one awaits, None for an already resolved promise. */
  datatype Call = Call(key: string, previous: Option<nat>, phase: Phase)

  /** The adapter's contents, the lock table, the lock promises that have resolved and every call made. */
  datatype System = System(adapter: map<string, nat>, locks: map<string, nat>, resolved: set<nat>, calls: seq<Call>)

  datatype Event = NextNonce(key: string) | Enter(i: nat) | Get(i: nat) | Set(i: nat) | Finish(i: nat) | Break(i: nat)
                 | Resolve(i: nat)

  predicate Enabled(s: System, e: Event) {
    if e.NextNonce? then true
    else
      e.i < |s.calls| && var call := s.calls[e.i];
      match e
      case Enter(_) => call.phase.Waiting? && (call.previous.Some? ==> call.previous.value in s.resolved)
      case Get(_) => call.phase.Entered?
      case Set(_) => call.phase.Got?
      case Finish(_) => call.phase.Stored?
      case Break(_) => call.phase.Entered? || call.phase.Got?
      case Resolve(_) => call.phase.Settled? && e.i !in s.resolved
  }

  function ValueAt(adapter: map<string, nat>, key: string): nat {
    if key in adapter then adapter[key] else 0
  }

  function SetPhase(s: System, i: nat, phase: Phase): System
    requires i < |s.calls|
  {
    s.(calls := s.calls[i := s.calls[i].(phase := phase)])
  }

  /** The finally block: the lock entry goes unless a later call has replaced it. */
  function Released(s: System, i: nat, issued: Option<nat>): System
    requires i < |s.calls|
  {
    var key := s.calls[i].key;
    SetPhase(s, i, Settled(issued)).(locks := if key in s.locks && s.locks[key] == i then s.locks - {key} else s.locks)
  }

  function Next(s: System, e: Event): System {
    if !Enabled(s, e) then s
    else
      match e
      case NextNonce(key) =>
        var previous := if key in s.locks then Some(s.locks[key]) else None;
        s.(locks := s.locks[key := |s.calls|], calls := s.calls + [Call(key, previous, Waiting)])
      case Enter(i) => SetPhase(s, i, Entered)
      case Get(i) => SetPhase(s, i, Got(ValueAt(s.adapter, s.calls[i].key)))
      case Set(i) =>
        var current := s.calls[i].phase.value;
        SetPhase(s, i, Stored(current)).(adapter := s.adapter[s.calls[i].key := current + 1])
      case Finish(i) => Released(s, i, Some(s.calls[i].phase.value))
      case Break(i) => Released(s, i, None)
      case Resolve(i) => s.(resolved := s.resolved + {i})
  }

  /** The engine starts over whatever the adapter already holds. */
  function Run(adapter: map<string, nat>, run: seq<Event>): System {
    if run == [] then System(adapter, map[], {}, [])
    else Next(Run(adapter, run[..|run| - 1]), run[|run| - 1])
  }

  // ---- The nonces of a key -----------------------------------------------------------------------

  function IssuedBy(call: Call, key: string): seq<nat> {
    if call.key != key then []
    else if call.phase.Stored? then [call.phase.value]
    else if call.phase.Settled? && call.phase.issued.Some? then [call.phase.issued.value]
    else []
  }

  /** The nonces that calls on a key return, in the order in which they were called. */
  function Issued(calls: seq<Call>, key: string): seq<nat> {
    if calls == [] then [] else Issued(calls[..|calls| - 1], key) + IssuedBy(calls[|calls| - 1], key)
  }

  ghost predicate Consecutive(nonces: seq<nat>, from: nat) {
    forall k :: 0 <= k < |nonces| ==> nonces[k] == from + k
  }

  // ---- Invariant ---------------------------------------------------------------------------------

  ghost predicate EarlierSettled(calls: seq<Call>, i: nat)
    requires i < |calls|
  {
    forall k :: 0 <= k < i && calls[k].key == calls[i].key ==> calls[k].phase.Settled?
  }

  /** A call awaits the call before it on its key, unless that one and all before it had settled. */
  ghost predicate Queued(calls: seq<Call>, i: nat)
    requires i < |calls|
  {
    if calls[i].previous.None? then EarlierSettled(calls, i)
    else
      var p := calls[i].previous.value;
      p < i && calls[p].key == calls[i].key && forall k :: p < k < i ==> calls[k].key != calls[i].key
  }

  ghost predicate LockTable(s: System, key: string) {
    if key in s.locks then
      var l := s.locks[key];
      && l < |s.calls| && s.calls[l].key == key && !s.calls[l].phase.Settled?
      && forall k :: l < k < |s.calls| ==> s.calls[k].key != key
    else forall i :: 0 <= i < |s.calls| && s.calls[i].key == key ==> s.calls[i].phase.Settled?
  }

  ghost predicate Orderly(s: System) {
    && (forall i :: 0 <= i < |s.calls| ==> Queued(s.calls, i))
    && (forall i :: 0 <= i < |s.calls| && !s.calls[i].phase.Waiting? ==> EarlierSettled(s.calls, i))
    && (forall p :: p in s.resolved ==> p < |s.calls| && s.calls[p].phase.Settled?)
    && (forall key :: LockTable(s, key))
    && (forall i :: 0 <= i < |s.calls| && s.calls[i].phase.Got? ==>
          s.calls[i].phase.value == ValueAt(s.adapter, s.calls[i].key))
  }

  ghost predicate Counts(adapter: map<string, nat>, s: System, key: string) {
    && ValueAt(s.adapter, key) == ValueAt(adapter, key) + |Issued(s.calls, key)|
    && Consecutive(Issued(s.calls, key), ValueAt(adapter, key))
  }

  /** A call that may enter has every earlier call on its key behind it. */
  lemma MayEnter(s: System, i: nat)
    requires Orderly(s) && Enabled(s, Enter(i))
    ensures EarlierSettled(s.calls, i)
  {
    assert Queued(s.calls, i);
    if s.calls[i].previous.Some? {
      var p := s.calls[i].previous.value;
      assert EarlierSettled(s.calls, p);
      forall k | 0 <= k < i && s.calls[k].key == s.calls[i].key ensures s.calls[k].phase.Settled? {
        assert k <= p;
      }
    }
  }

  /** Replacing the phase of the call at the front of its key's queue. */
  lemma PhaseKeepsOrder(s: System, r: System, i: nat, phase: Phase)
    requires Orderly(s) && i < |s.calls| && EarlierSettled(s.calls, i) && !s.calls[i].phase.Settled?
    requires r.calls == s.calls[i := s.calls[i].(phase := phase)] && r.resolved == s.resolved
    requires !phase.Waiting?
    ensures forall j :: 0 <= j < |r.calls| ==> Queued(r.calls, j)
    ensures forall j :: 0 <= j < |r.calls| && !r.calls[j].phase.Waiting? ==> EarlierSettled(r.calls, j)
    ensures forall p :: p in r.resolved ==> p < |r.calls| && r.calls[p].phase.Settled?
    ensures forall j :: 0 <= j < |r.calls| && j != i && r.calls[j].key == r.calls[i].key ==>
              r.calls[j].phase.Settled? || r.calls[j].phase.Waiting?
  {
    forall j | 0 <= j < |r.calls| ensures Queued(r.calls, j) {
      assert Queued(s.calls, j);
    }
    forall j | 0 <= j < |r.calls| && !r.calls[j].phase.Waiting? ensures EarlierSettled(r.calls, j) {
      assert EarlierSettled(s.calls, j);
    }
    forall j | 0 <= j < |r.calls| && j != i && r.calls[j].key == r.calls[i].key
      ensures r.calls[j].phase.Settled? || r.calls[j].phase.Waiting?
    {
      if !s.calls[j].phase.Waiting? {
        assert EarlierSettled(s.calls, j);
      }
    }
  }

  lemma {:induction false} IssuedUnchanged(calls: seq<Call>, i: nat, call: Call, key: string)
    requires i < |calls| && IssuedBy(call, key) == IssuedBy(calls[i], key)
    ensures Issued(calls[i := call], key) == Issued(calls, key)
  {
    var last := |calls| - 1;
    if i == last {
      assert calls[i := call][..last] == calls[..last];
    } else {
      assert calls[i := call][..last] == calls[..last][i := call];
      IssuedUnchanged(calls[..last], i, call, key);
    }
  }

  lemma {:induction false} IssuedNext(calls: seq<Call>, i: nat, call: Call, key: string)
    requires i < |calls| && IssuedBy(calls[i], key) == []
    requires forall j :: i < j < |calls| ==> IssuedBy(calls[j], key) == []
    ensures Issued(calls[i := call], key) == Issued(calls, key) + IssuedBy(call, key)
  {
    var last := |calls| - 1;
    if i == last {
      assert calls[i := call][..last] == calls[..last];
    } else {
      assert calls[i := call][..last] == calls[..last][i := call];
      IssuedNext(calls[..last], i, call, key);
    }
  }

  lemma CallKeeps(adapter: map<string, nat>, s: System, key: string)
    requires Orderly(s)
    ensures Orderly(Next(s, NextNonce(key)))
    ensures forall k :: Counts(adapter, s, k) ==> Counts(adapter, Next(s, NextNonce(key)), k)
  {
    hide Issued;
    var r := Next(s, NextNonce(key));
    var n := |s.calls|;
    assert LockTable(s, key);
    forall j | 0 <= j < |r.calls| ensures Queued(r.calls, j) {
      if j < n { assert Queued(s.calls, j); }
    }
    forall j | 0 <= j < |r.calls| && !r.calls[j].phase.Waiting? ensures EarlierSettled(r.calls, j) {
      assert EarlierSettled(s.calls, j);
    }
    forall k ensures LockTable(r, k) { assert LockTable(s, k); }
    forall k ensures Issued(r.calls, k) == Issued(s.calls, k) { IssuedAppend(s.calls, r.calls[n], k); }
  }

  lemma IssuedAppend(calls: seq<Call>, call: Call, key: string)
    ensures Issued(calls + [call], key) == Issued(calls, key) + IssuedBy(call, key)
  {
    assert (calls + [call])[..|calls|] == calls;
  }

  lemma EnterKeeps(s: System, i: nat)
    requires Orderly(s) && Enabled(s, Enter(i))
    ensures Orderly(Next(s, Enter(i)))
  {
    MayEnter(s, i);
    var r := Next(s, Enter(i));
    PhaseKeepsOrder(s, r, i, Entered);
    LocksKept(s, r, i);
  }

  lemma LocksKept(s: System, r: System, i: nat)
    requires i < |s.calls| && |r.calls| == |s.calls| && r.locks == s.locks && !r.calls[i].phase.Settled?
    requires r.calls == s.calls[i := r.calls[i]] && r.calls[i].key == s.calls[i].key && !s.calls[i].phase.Settled?
    requires forall key :: LockTable(s, key)
    ensures forall key :: LockTable(r, key)
  {
    forall key ensures LockTable(r, key) { assert LockTable(s, key); }
  }

  lemma GetKeeps(s: System, i: nat)
    requires Orderly(s) && Enabled(s, Get(i))
    ensures Orderly(Next(s, Get(i)))
  {
    var r := Next(s, Get(i));
    PhaseKeepsOrder(s, r, i, r.calls[i].phase);
    LocksKept(s, r, i);
  }

  lemma SetKeeps(s: System, i: nat)
    requires Orderly(s) && Enabled(s, Set(i))
    ensures Orderly(Next(s, Set(i)))
  {
    var r := Next(s, Set(i));
    PhaseKeepsOrder(s, r, i, r.calls[i].phase);
    LocksKept(s, r, i);
  }

  lemma ReleaseKeeps(s: System, i: nat, issued: Option<nat>)
    requires Orderly(s) && i < |s.calls| && !s.calls[i].phase.Waiting? && !s.calls[i].phase.Settled?
    ensures Orderly(Released(s, i, issued))
  {
    var r := Released(s, i, issued);
    assert EarlierSettled(s.calls, i);
    PhaseKeepsOrder(s, r, i, Settled(issued));
    assert LockTable(s, s.calls[i].key);
    forall key ensures LockTable(r, key) {
      assert LockTable(s, key);
    }
  }

  lemma NextKeepsOrder(s: System, e: Event)
    requires Orderly(s)
    ensures Orderly(Next(s, e))
  {
    hide Orderly;
    if Enabled(s, e) {
      match e
      case NextNonce(key) => CallKeeps(map[], s, key);
      case Enter(i) => EnterKeeps(s, i);
      case Get(i) => GetKeeps(s, i);
      case Set(i) => SetKeeps(s, i);
      case Finish(i) => ReleaseKeeps(s, i, Some(s.calls[i].phase.value));
      case Break(i) => ReleaseKeeps(s, i, None);
      case Resolve(i) => ResolveKeeps(s, i);
    }
  }

  lemma ResolveKeeps(s: System, i: nat)
    requires Orderly(s) && Enabled(s, Resolve(i))
    ensures Orderly(Next(s, Resolve(i)))
  {
    var r := Next(s, Resolve(i));
    forall key ensures LockTable(r, key) { assert LockTable(s, key); }
  }

  lemma NextCounts(adapter: map<string, nat>, s: System, e: Event, key: string)
    requires Orderly(s) && Counts(adapter, s, key)
    ensures Counts(adapter, Next(s, e), key)
  {
    hide Issued, LockTable, Queued;
    if Enabled(s, e) {
      var r := Next(s, e);
      match e
      case NextNonce(k) => CallKeeps(adapter, s, k);
      case Set(i) =>
        forall j | i < j < |s.calls| ensures s.calls[j].key == s.calls[i].key ==> s.calls[j].phase.Waiting? {
          assert !s.calls[j].phase.Waiting? ==> EarlierSettled(s.calls, j);
        }
        if key == s.calls[i].key {
          IssuedNext(s.calls, i, r.calls[i], key);
        } else {
          IssuedUnchanged(s.calls, i, r.calls[i], key);
        }
      case Resolve(_) =>
      case _ => IssuedUnchanged(s.calls, e.i, r.calls[e.i], key);
    }
  }

  lemma {:induction false} RunKeeps(adapter: map<string, nat>, run: seq<Event>, key: string)
    ensures Orderly(Run(adapter, run)) && Counts(adapter, Run(adapter, run), key)
  {
    if run != [] {
      hide Orderly, Counts, Next;
      var earlier := run[..|run| - 1];
      RunKeeps(adapter, earlier, key);
      NextKeepsOrder(Run(adapter, earlier), run[|run| - 1]);
      NextCounts(adapter, Run(adapter, earlier), run[|run| - 1], key);
    }
  }

  // ---- What every interleaving guarantees --------------------------------------------------------

  /**
   * Whatever the interleaving, the calls on a key return, in the order they were called, the numbers that follow the
   * adapter's initial value without a gap or a repeat, and the adapter holds the next one.
   */
  lemma NoncesAreConsecutive(adapter: map<string, nat>, run: seq<Event>, key: string)
    ensures var s := Run(adapter, run);
            var first := if key in adapter then adapter[key] else 0;
            && (forall k :: 0 <= k < |Issued(s.calls, key)| ==> Issued(s.calls, key)[k] == first + k)
            && (if key in s.adapter then s.adapter[key] else 0) == first + |Issued(s.calls, key)|
  {
    hide Issued;
    RunKeeps(adapter, run, key);
  }

  /** The lock table has an entry for exactly the keys on which a call has not settled. */
  lemma NoLockForIdleKey(adapter: map<string, nat>, run: seq<Event>, key: string)
    ensures var s := Run(adapter, run);
            key in s.locks <==> exists i :: 0 <= i < |s.calls| && s.calls[i].key == key && !s.calls[i].phase.Settled?
  {
    RunKeeps(adapter, run, key);
    var s := Run(adapter, run);
    hide Run;
    assert LockTable(s, key);
  }

  /** The key whose call an event belongs to. */
  function KeyOf(s: System, e: Event): Option<string> {
    if e.NextNonce? then Some(e.key) else if e.i < |s.calls| then Some(s.calls[e.i].key) else None
  }

  /** What calls on a key depend on: the stored value, the lock entry and the phases of the calls on it. */
  ghost predicate SameForKey(s: System, r: System, key: string) {
    && ValueAt(r.adapter, key) == ValueAt(s.adapter, key)
    && (key in r.locks <==> key in s.locks) && (key in s.locks ==> r.locks[key] == s.locks[key])
    && |s.calls| <= |r.calls|
    && (forall i :: 0 <= i < |s.calls| && s.calls[i].key == key ==>
          r.calls[i] == s.calls[i] && (i in r.resolved <==> i in s.resolved))
    && (forall i :: |s.calls| <= i < |r.calls| ==> r.calls[i].key != key)
  }

  lemma OtherKeysUntouched(s: System, e: Event, key: string)
    requires KeyOf(s, e) != Some(key)
    ensures SameForKey(s, Next(s, e), key)
  {
  }

  /** While a call on a key has not settled, an event of that key alone can go on, whatever other keys do. */
  lemma NothingBlocks(adapter: map<string, nat>, run: seq<Event>, i: nat)
    requires i < |Run(adapter, run).calls| && !Run(adapter, run).calls[i].phase.Settled?
    ensures var s := Run(adapter, run);
            exists e: Event :: !e.NextNonce? && KeyOf(s, e) == Some(s.calls[i].key) && Enabled(s, e)
  {
    var s := Run(adapter, run);
    RunKeeps(adapter, run, s.calls[i].key);
    hide Run, Next, LockTable;
    var j := FirstUnsettled(s.calls, i);
    assert Queued(s.calls, j);
    var e := FrontMoves(s, j);
  }

  /** A call whose predecessors have settled can go on, or the promise it awaits can resolve. */
  lemma FrontMoves(s: System, j: nat) returns (e: Event)
    requires j < |s.calls| && !s.calls[j].phase.Settled?
    requires s.calls[j].previous.Some? ==>
               var p := s.calls[j].previous.value;
               p < |s.calls| && s.calls[p].phase.Settled? && s.calls[p].key == s.calls[j].key
    ensures !e.NextNonce? && KeyOf(s, e) == Some(s.calls[j].key) && Enabled(s, e)
  {
    var call := s.calls[j];
    e := if call.phase.Entered? then Get(j) else if call.phase.Got? then Set(j)
         else if call.phase.Stored? then Finish(j)
         else if call.previous.Some? && call.previous.value !in s.resolved then Resolve(call.previous.value)
         else Enter(j);
  }

  /** The events a call still has before it, the resolution of its own lock promise included. */
  function Remaining(phase: Phase, resolved: bool): nat {
    match phase
    case Waiting => 5
    case Entered => 4
    case Got(_) => 3
    case Stored(_) => 2
    case Settled(_) => if resolved then 0 else 1
  }

  function Work(calls: seq<Call>, resolved: set<nat>): nat {
    if calls == [] then 0
    else
      var last := |calls| - 1;
      Work(calls[..last], resolved) + Remaining(calls[last].phase, last in resolved)
  }

  lemma {:induction false} WorkUpdated(calls: seq<Call>, resolved: set<nat>, i: nat, call: Call)
    requires i < |calls|
    ensures Work(calls[i := call], resolved)
            == Work(calls, resolved) - Remaining(calls[i].phase, i in resolved) + Remaining(call.phase, i in resolved)
  {
    var last := |calls| - 1;
    if i == last {
      assert calls[i := call][..last] == calls[..last];
    } else {
      assert calls[i := call][..last] == calls[..last][i := call];
      WorkUpdated(calls[..last], resolved, i, call);
    }
  }

  lemma {:induction false} WorkResolved(calls: seq<Call>, resolved: set<nat>, i: nat)
    requires i !in resolved && (i < |calls| ==> calls[i].phase.Settled?)
    ensures Work(calls, resolved + {i}) == Work(calls, resolved) - if i < |calls| then 1 else 0
  {
    if calls != [] { WorkResolved(calls[..|calls| - 1], resolved, i); }
  }

  /** Every event but a new call uses up work, so once no more calls arrive all of them settle, on every key. */
  lemma EventsTerminate(s: System, e: Event)
    requires Enabled(s, e) && !e.NextNonce?
    ensures Work(Next(s, e).calls, Next(s, e).resolved) < Work(s.calls, s.resolved)
  {
    hide Work;
    var r := Next(s, e);
    if e.Resolve? {
      WorkResolved(s.calls, s.resolved, e.i);
    } else {
      WorkUpdated(s.calls, s.resolved, e.i, r.calls[e.i]);
      assert r.calls == s.calls[e.i := r.calls[e.i]];
    }
  }

  lemma {:induction false} FirstUnsettled(calls: seq<Call>, i: nat) returns (j: nat)
    requires i < |calls| && !calls[i].phase.Settled?
    ensures j <= i && calls[j].key == calls[i].key && !calls[j].phase.Settled? && EarlierSettled(calls, j)
  {
    if EarlierSettled(calls, i) {
      j := i;
    } else {
      var k :| 0 <= k < i && calls[k].key == calls[i].key && !calls[k].phase.Settled?;
      j := FirstUnsettled(calls, k);
    }
  }

  // ---- Keys --------------------------------------------------------------------------------------

  function CacheKey(account: string, channel: nat): string {
    "nonce:" + Lower(account) + ":" + DigitText(channel)
  }

  lemma {:induction false} ColonSplit(a: string, b: string, m: string, n: string)
    requires ':' !in m && ':' !in n && a + ":" + m == b + ":" + n
    ensures a == b && m == n
  {
    var s, t := a + ":" + m, b + ":" + n;
    assert s[|a|] == ':' && t[|b|] == ':';
    assert forall i :: |a| < i < |s| ==> s[i] == m[i - |a| - 1];
    assert forall i :: |b| < i < |t| ==> t[i] == n[i - |b| - 1];
    assert |a| == |b|;
    assert a == s[..|a|] && b == t[..|b|] && m == s[|a| + 1..] && n == t[|b| + 1..];
  }

  /** Two calls share a key exactly when their accounts differ at most in case and their channels are equal. */
  lemma KeysSeparateLanes(account: string, channel: nat, other: string, otherChannel: nat)
    ensures CacheKey(account, channel) == CacheKey(other, otherChannel)
            <==> SameText(account, other) && channel == otherChannel
  {
    hide Lower;
    DigitTextDigits(channel);
    DigitTextDigits(otherChannel);
    if CacheKey(account, channel) == CacheKey(other, otherChannel) {
      ColonSplit("nonce:" + Lower(account), "nonce:" + Lower(other), DigitText(channel), DigitText(otherChannel));
      assert Lower(account) == ("nonce:" + Lower(account))[6..] && Lower(other) == ("nonce:" + Lower(other))[6..];
      DigitTextInjective(channel, otherChannel);
    }
  }

  // ---- The engine object -------------------------------------------------------------------------

  /** The engine over a working adapter, withKeyLock and nextNonce cut at each await. */
  class Engine {
    var adapter: map<string, nat>
    var locks: map<string, nat>
    var resolved: set<nat>
    var calls: seq<Call>

    constructor (adapter: map<string, nat>)
      ensures Snapshot() == Run(adapter, [])
    {
      this.adapter, locks, resolved, calls := adapter, map[], {}, [];
    }

    ghost function Snapshot(): System
      reads this
    {
      System(adapter, locks, resolved, calls)
    }

    /** nextNonce, up to `await previous`. */
    method NextNonce(account: string, channel: nat) returns (i: nat)
      modifies this
      ensures i == old(|calls|)
      ensures Snapshot() == Next(old(Snapshot()), Event.NextNonce(CacheKey(account, channel)))
    {
      var key := CacheKey(account, channel);
      i := |calls|;
      var previous := None;
      if key in locks {
        previous := Some(locks[key]);
      }
      locks := locks[key := i];
      calls := calls + [Call(key, previous, Waiting)];
    }

    method Enter(i: nat)
      requires Enabled(Snapshot(), Event.Enter(i))
      modifies this
      ensures Snapshot() == Next(old(Snapshot()), Event.Enter(i))
    {
      calls := calls[i := calls[i].(phase := Entered)];
    }

    /** const current = (await this.adapter.get(key)) ?? 0. */
    method Get(i: nat)
      requires Enabled(Snapshot(), Event.Get(i))
      modifies this
      ensures Snapshot() == Next(old(Snapshot()), Event.Get(i))
    {
      var key, current := calls[i].key, 0;
      if key in adapter {
        current := adapter[key];
      }
      calls := calls[i := calls[i].(phase := Got(current))];
    }

    method Set(i: nat)
      requires Enabled(Snapshot(), Event.Set(i))
      modifies this
      ensures Snapshot() == Next(old(Snapshot()), Event.Set(i))
    {
      var current := calls[i].phase.value;
      adapter := adapter[calls[i].key := current + 1];
      calls := calls[i := calls[i].(phase := Stored(current))];
    }

    method Finish(i: nat)
      requires Enabled(Snapshot(), Event.Finish(i))
      modifies this
      ensures Snapshot() == Next(old(Snapshot()), Event.Finish(i))
    {
      Release(i, Some(calls[i].phase.value));
    }

    /** The adapter's get or set rejects. */
    method Break(i: nat)
      requires Enabled(Snapshot(), Event.Break(i))
      modifies this
      ensures Snapshot() == Next(old(Snapshot()), Event.Break(i))
    {
      Release(i, None);
    }

    method Release(i: nat, issued: Option<nat>)
      requires i < |calls|
      modifies this
      ensures Snapshot() == Released(old(Snapshot()), i, issued)
    {
      var key := calls[i].key;
      calls := calls[i := calls[i].(phase := Settled(issued))];
      if key in locks && locks[key] == i {
        locks := locks - {key};
      }
    }

    /** The promise in the lock table resolves after the call that owns it has released. */
    method Resolve(i: nat)
      requires Enabled(Snapshot(), Event.Resolve(i))
      modifies this
      ensures Snapshot() == Next(old(Snapshot()), Event.Resolve(i))
    {
      resolved := resolved + {i};
    }
  }
}
