// ArcJsonRpcProviderPool (stream-gateway/provider-pool.ts): round robin over the healthy providers.
module ProviderPool {
  import opened Prelude

  const MAX_FAILURES := 3

  datatype Provider = Provider(healthy: bool, consecutiveFailures: nat)
  datatype Pool = Pool(entries: seq<Provider>, cursor: nat)

  ghost predicate Ready(p: Pool) {
    p.cursor < |p.entries|
  }

  function Fresh(count: nat): Pool {
    Pool(seq(count, _ => Provider(true, 0)), 0)
  }

  /** (from + d) % n: the position d steps on from another, at most one round away. */
  function Pos(from: nat, d: nat, n: nat): (r: nat)
    requires from < n && d <= n
    ensures r < n
  {
    if from + d < n then from + d else from + d - n
  }

  /** The healthy providers met on the offsets a, ..., b - 1 from a position, in that order. */
  function Met(entries: seq<Provider>, from: nat, a: nat, b: nat): seq<nat>
    requires from < |entries| && a <= b <= |entries|
    decreases b - a
  {
    if a == b then []
    else
      var i := Pos(from, a, |entries|);
      (if entries[i].healthy then [i] else []) + Met(entries, from, a + 1, b)
  }

  /** All healthy providers, in the order in which a round from the cursor meets them. */
  function Round(p: Pool): seq<nat>
    requires Ready(p)
  {
    Met(p.entries, p.cursor, 0, |p.entries|)
  }

  function Reset(p: Pool): Pool
    requires Ready(p)
  {
    Pool(seq(|p.entries|, _ => Provider(true, 0)), Pos(0, 1, |p.entries|))
  }

  /** getProvider: the first healthy provider from the cursor, or the first of all after a reset. */
  function Called(p: Pool): (r: (Pool, nat))
    requires Ready(p)
    ensures Ready(r.0) && r.1 < |p.entries|
  {
    if Round(p) == [] then (Reset(p), 0)
    else
      assert Round(p)[0] < |p.entries| by {
        MetHealthy(p.entries, p.cursor, 0, |p.entries|);
        assert Round(p)[0] in Round(p);
      }
      (p.(cursor := Pos(Round(p)[0], 1, |p.entries|)), Round(p)[0])
  }

  /** The providers that n calls in a row return, with no probe in between. */
  function Calls(p: Pool, n: nat): seq<nat>
    requires Ready(p)
    decreases n
  {
    if n == 0 then [] else [Called(p).1] + Calls(Called(p).0, n - 1)
  }

  // ---- Every healthy provider once per round -----------------------------------------------------

  lemma {:induction false} MetHealthy(entries: seq<Provider>, from: nat, a: nat, b: nat)
    requires from < |entries| && a <= b <= |entries|
    ensures forall i :: i in Met(entries, from, a, b) ==> i < |entries| && entries[i].healthy
    decreases b - a
  {
    if a < b { MetHealthy(entries, from, a + 1, b); }
  }

  lemma {:induction false} MetSplit(entries: seq<Provider>, from: nat, a: nat, m: nat, b: nat)
    requires from < |entries| && a <= m <= b <= |entries|
    ensures Met(entries, from, a, b) == Met(entries, from, a, m) + Met(entries, from, m, b)
    decreases m - a
  {
    if a < m { MetSplit(entries, from, a + 1, m, b); }
  }

  lemma MetStep(entries: seq<Provider>, from: nat, a: nat, b: nat)
    requires from < |entries| && a < b <= |entries|
    ensures var i := Pos(from, a, |entries|);
            Met(entries, from, a, b) == (if entries[i].healthy then [i] else []) + Met(entries, from, a + 1, b)
  {
    hide Pos;
  }

  lemma MetNothing(entries: seq<Provider>, from: nat, a: nat)
    requires from < |entries| && a <= |entries|
    ensures Met(entries, from, a, a) == []
  {
  }

  lemma PosShift(from: nat, d: nat, n: nat)
    requires from < n && d < n
    ensures Pos(Pos(from, 1, n), d, n) == Pos(from, d + 1, n)
  {
  }

  lemma {:induction false} MetShift(entries: seq<Provider>, from: nat, a: nat, b: nat)
    requires from < |entries| && a <= b < |entries|
    ensures Met(entries, Pos(from, 1, |entries|), a, b) == Met(entries, from, a + 1, b + 1)
    decreases b - a
  {
    hide Met, Pos;
    var next := Pos(from, 1, |entries|);
    if a < b {
      MetStep(entries, next, a, b);
      MetStep(entries, from, a + 1, b + 1);
      MetShift(entries, from, a + 1, b);
      PosShift(from, a, |entries|);
    } else {
      MetNothing(entries, next, a);
      MetNothing(entries, from, a + 1);
    }
  }

  function If(b: bool, i: nat): seq<nat> {
    if b then [i] else []
  }

  /** Moving the cursor past a provider moves that provider to the end of the round. */
  lemma RoundTurns(p: Pool)
    requires Ready(p)
    ensures var next, here := p.(cursor := Pos(p.cursor, 1, |p.entries|)),
                              If(p.entries[p.cursor].healthy, p.cursor);
            var rest := Met(p.entries, p.cursor, 1, |p.entries|);
            Round(p) == here + rest && Round(next) == rest + here
  {
    var n, c := |p.entries|, p.cursor;
    MetShift(p.entries, c, 0, n - 1);
    MetSplit(p.entries, Pos(c, 1, n), 0, n - 1, n);
    assert Pos(Pos(c, 1, n), n - 1, n) == c;
    assert Met(p.entries, Pos(c, 1, n), n, n) == [];
  }

  /** The cursor may move past unhealthy providers without changing the round. */
  lemma {:induction false} RoundFrom(p: Pool, k: nat)
    requires Ready(p) && k < |p.entries|
    requires forall d :: 0 <= d < k ==> !p.entries[Pos(p.cursor, d, |p.entries|)].healthy
    ensures Round(p.(cursor := Pos(p.cursor, k, |p.entries|))) == Round(p)
  {
    if k > 0 {
      RoundFrom(p, k - 1);
      RoundTurns(p.(cursor := Pos(p.cursor, k - 1, |p.entries|)));
    } else {
      assert p.(cursor := Pos(p.cursor, 0, |p.entries|)) == p;
    }
  }

  /** A call takes the head of the round and puts it at the end. */
  lemma CallTurns(p: Pool)
    requires Ready(p) && Round(p) != []
    ensures Called(p).1 == Round(p)[0] && Called(p).0.entries == p.entries
    ensures Round(Called(p).0) == Round(p)[1..] + [Round(p)[0]]
  {
    var n := |p.entries|;
    var k := FirstMet(p.entries, p.cursor, 0);
    RoundFrom(p, k);
    var here := p.(cursor := Pos(p.cursor, k, n));
    RoundTurns(here);
    hide Met;
    assert Round(p)[0] == here.cursor;
    assert Called(p).0 == here.(cursor := Pos(here.cursor, 1, n));
  }

  lemma {:induction false} FirstMet(entries: seq<Provider>, from: nat, a: nat) returns (k: nat)
    requires from < |entries| && a <= |entries| && Met(entries, from, a, |entries|) != []
    ensures a <= k < |entries| && entries[Pos(from, k, |entries|)].healthy
    ensures Met(entries, from, a, |entries|)[0] == Pos(from, k, |entries|)
    ensures forall d :: a <= d < k ==> !entries[Pos(from, d, |entries|)].healthy
    decreases |entries| - a
  {
    if entries[Pos(from, a, |entries|)].healthy {
      k := a;
    } else {
      k := FirstMet(entries, from, a + 1);
    }
  }

  /** Up to a whole round, the calls return the round. */
  lemma {:induction false} CallsFollowRound(p: Pool, n: nat)
    requires Ready(p) && n <= |Round(p)|
    ensures Calls(p, n) == Round(p)[..n]
    decreases n
  {
    if n > 0 {
      CallTurns(p);
      CallsFollowRound(Called(p).0, n - 1);
      hide Called, Round;
      assert Round(p)[..n] == [Round(p)[0]] + Round(p)[1..n];
    }
  }

  lemma {:induction false} MetAre(entries: seq<Provider>, from: nat, a: nat, b: nat, x: nat)
    requires from < |entries| && a <= b <= |entries|
    ensures x in Met(entries, from, a, b) <==>
              exists d :: a <= d < b && Pos(from, d, |entries|) == x && entries[x].healthy
    decreases b - a
  {
    if a < b {
      MetAre(entries, from, a + 1, b, x);
      var i := Pos(from, a, |entries|);
      if x == i && entries[i].healthy { assert Pos(from, a, |entries|) == x; }
    }
  }

  lemma {:induction false} MetOnce(entries: seq<Provider>, from: nat, a: nat, b: nat)
    requires from < |entries| && a <= b <= |entries|
    ensures NoDuplicates(Met(entries, from, a, b))
    decreases b - a
  {
    if a < b {
      MetOnce(entries, from, a + 1, b);
      MetAre(entries, from, a + 1, b, Pos(from, a, |entries|));
    }
  }

  /**
   * As many calls in a row as there are healthy providers, with no probe in between, return each healthy provider
   * exactly once and never an unhealthy one.
   */
  lemma EachHealthyProviderOnce(p: Pool)
    requires Ready(p)
    ensures var calls := Calls(p, |Round(p)|);
            && NoDuplicates(calls)
            && forall i :: i in calls <==> 0 <= i < |p.entries| && p.entries[i].healthy
  {
    CallsFollowRound(p, |Round(p)|);
    assert Round(p)[..|Round(p)|] == Round(p);
    MetOnce(p.entries, p.cursor, 0, |p.entries|);
    MetHealthy(p.entries, p.cursor, 0, |p.entries|);
    hide Met, Calls;
    forall i | 0 <= i < |p.entries| && p.entries[i].healthy ensures i in Round(p) {
      var d := if i >= p.cursor then i - p.cursor else i + |p.entries| - p.cursor;
      assert Pos(p.cursor, d, |p.entries|) == i;
      MetAre(p.entries, p.cursor, 0, |p.entries|, i);
    }
  }

  /** Among providers that are all healthy, a round from the cursor goes up to the last and on from the first. */
  lemma {:induction false} MetAll(entries: seq<Provider>, from: nat, a: nat, k: nat)
    requires from < |entries| && a <= k < |entries| && forall i :: 0 <= i < |entries| ==> entries[i].healthy
    ensures k - a < |Met(entries, from, a, |entries|)|
    ensures Met(entries, from, a, |entries|)[k - a] == Pos(from, k, |entries|)
    ensures |Met(entries, from, a, |entries|)| == |entries| - a
    decreases |entries| - a
  {
    if a < k {
      MetAll(entries, from, a + 1, k);
    } else if a + 1 < |entries| {
      MetAll(entries, from, a + 1, a + 1);
    }
  }

  lemma {:induction false} NoneMet(entries: seq<Provider>, from: nat, a: nat, b: nat)
    requires from < |entries| && a <= b <= |entries| && forall i :: 0 <= i < |entries| ==> !entries[i].healthy
    ensures Met(entries, from, a, b) == []
    decreases b - a
  {
    if a < b { NoneMet(entries, from, a + 1, b); }
  }

  /** When no provider is healthy, all get another chance: the next calls return the first, the second, and so on. */
  lemma ResetStartsOver(p: Pool, n: nat, k: nat)
    requires Ready(p) && (forall i :: 0 <= i < |p.entries| ==> !p.entries[i].healthy) && k < n <= |p.entries|
    ensures k < |Calls(p, n)| && Calls(p, n)[k] == k
    ensures forall i :: 0 <= i < |p.entries| ==> Called(p).0.entries[i] == Provider(true, 0)
  {
    var count, r := |p.entries|, Reset(p);
    NoneMet(p.entries, p.cursor, 0, count);
    MetAll(r.entries, r.cursor, 0, 0);
    CallsFollowRound(r, n - 1);
    hide Met, Calls;
    if k > 0 { MetAll(r.entries, r.cursor, 0, k - 1); }
    FirstCall(p, n);
  }

  lemma FirstCall(p: Pool, n: nat)
    requires Ready(p) && n > 0
    ensures Calls(p, n) == [Called(p).1] + Calls(Called(p).0, n - 1)
  {
  }

  // ---- Health over runs --------------------------------------------------------------------------

  /** A call, or the outcome of one provider's probe. */
  datatype Event = GetProvider | ProbeOk(i: nat) | ProbeFails(i: nat)

  function Probed(p: Provider, ok: bool): Provider {
    if ok then Provider(true, 0)
    else Provider(p.healthy && p.consecutiveFailures + 1 < MAX_FAILURES, p.consecutiveFailures + 1)
  }

  function Next(p: Pool, e: Event): (r: Pool)
    requires Ready(p)
    ensures Ready(r) && |r.entries| == |p.entries|
  {
    match e
    case GetProvider => Called(p).0
    case ProbeOk(i) => if i < |p.entries| then p.(entries := p.entries[i := Probed(p.entries[i], true)]) else p
    case ProbeFails(i) => if i < |p.entries| then p.(entries := p.entries[i := Probed(p.entries[i], false)]) else p
  }

  function Run(count: nat, run: seq<Event>): (p: Pool)
    requires count > 0
    ensures Ready(p) && |p.entries| == count
  {
    if run == [] then Fresh(count) else Next(Run(count, run[..|run| - 1]), run[|run| - 1])
  }

  /** A call that finds every provider unhealthy gives them all another chance. */
  predicate Resets(p: Pool, e: Event)
    requires Ready(p)
  {
    e.GetProvider? && Round(p) == []
  }

  /** How often a provider's probes have failed since one succeeded or a call reset the pool. */
  function Failures(count: nat, run: seq<Event>, i: nat): nat
    requires count > 0
  {
    if run == [] then 0
    else
      var earlier, e := run[..|run| - 1], run[|run| - 1];
      if e == ProbeOk(i) || Resets(Run(count, earlier), e) then 0
      else if e == ProbeFails(i) then Failures(count, earlier, i) + 1
      else Failures(count, earlier, i)
  }

  /** In every run a provider is healthy exactly when fewer than three probes in a row have failed. */
  lemma {:induction false} HealthyBelowThreeFailures(count: nat, run: seq<Event>, i: nat)
    requires i < count
    ensures var p := Run(count, run).entries[i];
            && p.consecutiveFailures == Failures(count, run, i)
            && (p.healthy <==> Failures(count, run, i) < 3)
  {
    if run != [] { HealthyBelowThreeFailures(count, run[..|run| - 1], i); }
  }

  // ---- The pool object ---------------------------------------------------------------------------

  class RpcProviderPool {
    var entries: seq<Provider>
    var cursor: nat

    constructor (count: nat)
      requires count > 0
      ensures Snapshot() == Fresh(count)
    {
      entries, cursor := seq(count, _ => Provider(true, 0)), 0;
    }

    function Snapshot(): Pool
      reads this
    {
      Pool(entries, cursor)
    }

    method GetProvider() returns (chosen: nat)
      requires Ready(Snapshot())
      modifies this
      ensures Ready(Snapshot()) && (Snapshot(), chosen) == Called(old(Snapshot()))
    {
      var count := |entries|;
      ghost var p := Snapshot();
      for i := 0 to count
        invariant Snapshot() == p && Met(entries, cursor, i, count) == Round(p)
      {
        var idx := Modulo(cursor + i, count);
        if entries[idx].healthy {
          cursor := Modulo(idx + 1, count);
          return idx;
        }
      }
      entries := seq(count, _ => Provider(true, 0));
      cursor := Modulo(1, count);
      return 0;
    }

    /** One provider's probe in probeAll, as it settles. */
    method Probe(i: nat, ok: bool)
      requires Ready(Snapshot()) && i < |entries|
      modifies this
      ensures Snapshot() == Next(old(Snapshot()), if ok then ProbeOk(i) else ProbeFails(i))
    {
      var entry := entries[i];
      if ok {
        entry := Provider(true, 0);
      } else {
        entry := entry.(consecutiveFailures := entry.consecutiveFailures + 1);
        if entry.consecutiveFailures >= MAX_FAILURES {
          entry := entry.(healthy := false);
        }
      }
      entries := entries[i := entry];
    }
  }

  lemma Multiples(q: nat, n: nat)
    ensures q > 0 ==> q * n >= n
    ensures q > 1 ==> q * n >= 2 * n
  {
    if q > 1 {
      assert q * n == (q - 2) * n + 2 * n;
      assert (q - 2) * n >= 0;
    }
  }

  /** x % n where x is less than two rounds. */
  method Modulo(x: nat, n: nat) returns (r: nat)
    requires 0 < n && x < 2 * n
    ensures r == if x < n then x else x - n
  {
    r := x % n;
    assert x == x / n * n + r;
    Multiples(x / n, n);
  }
}
