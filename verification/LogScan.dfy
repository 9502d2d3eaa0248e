// recoverPaycardsFromLogs (sdk/src/wallet.ts): a chunked, newest-first log scan against one pass over all the logs.
module LogScan {
  import opened Prelude

  /** A log that matches the address and topic filter; parsed when it decodes as a PaycardProvisioned event. */
  datatype Log = Log(block: nat, logIndex: nat, parsed: bool, metadataHash: string, paycardId: string)

  /** The scan's options after their defaults, and the registry lookup: whether the Paycard has a non-zero payer. */
  datatype Query = Query(metadataHash: Option<string>, registered: string -> bool, limit: nat)

  /** What the provider holds, in chain order. */
  ghost predicate ChainOrder(logs: seq<Log>) {
    forall i, j :: 0 <= i < j < |logs| ==> logs[i].block <= logs[j].block
  }

  /** getLogs for a block range. */
  function Between(logs: seq<Log>, from: int, to: int): seq<Log> {
    if logs == [] then []
    else
      Between(logs[..|logs| - 1], from, to)
      + if from <= logs[|logs| - 1].block <= to then [logs[|logs| - 1]] else []
  }

  function Reversed(logs: seq<Log>): (r: seq<Log>)
    ensures |r| == |logs|
  {
    if logs == [] then [] else [logs[|logs| - 1]] + Reversed(logs[..|logs| - 1])
  }

  function KeysOf(logs: seq<Log>): set<string> {
    set log | log in logs :: Lower(log.paycardId)
  }

  /** An empty metadata hash asks for nothing. */
  predicate Eligible(q: Query, log: Log) {
    && log.parsed
    && (q.metadataHash.Some? && q.metadataHash.value != "" ==>
          Lower(log.metadataHash) == Lower(q.metadataHash.value))
    && q.registered(log.paycardId)
  }

  // ---- One pass ----------------------------------------------------------------------------------

  /** The first eligible log of each Paycard, in the order of the logs. */
  function Distinct(q: Query, logs: seq<Log>): seq<Log> {
    if logs == [] then []
    else
      var found, log := Distinct(q, logs[..|logs| - 1]), logs[|logs| - 1];
      found + if Eligible(q, log) && Lower(log.paycardId) !in KeysOf(found) then [log] else []
  }

  function Take(logs: seq<Log>, n: nat): seq<Log> {
    if |logs| <= n then logs else logs[..n]
  }

  /** What the scan promises: the newest `limit` distinct Paycards of the range, newest first. */
  function SinglePass(q: Query, logs: seq<Log>, from: int, to: int): seq<Log> {
    Take(Distinct(q, Reversed(Between(logs, from, to))), q.limit)
  }

  lemma {:induction false} DistinctLogs(q: Query, logs: seq<Log>)
    ensures var found := Distinct(q, logs);
            && (forall log :: log in found ==>
                  && log in logs && log.parsed && q.registered(log.paycardId)
                  && (q.metadataHash.Some? && q.metadataHash.value != "" ==>
                        Lower(log.metadataHash) == Lower(q.metadataHash.value)))
            && (forall i, j :: 0 <= i < j < |found| ==> Lower(found[i].paycardId) != Lower(found[j].paycardId))
            && (forall log :: log in logs && log.parsed && q.registered(log.paycardId)
                              && (q.metadataHash.None? || q.metadataHash.value == ""
                                  || Lower(log.metadataHash) == Lower(q.metadataHash.value)) ==>
                  Lower(log.paycardId) in KeysOf(found))
  {
    if logs != [] {
      var front, log := logs[..|logs| - 1], logs[|logs| - 1];
      DistinctLogs(q, front);
      hide Lower;
      var earlier, found := Distinct(q, front), Distinct(q, logs);
      assert forall x :: x in logs <==> x in front || x == log;
      assert KeysOf(earlier) <= KeysOf(found);
      forall i | 0 <= i < |earlier| ensures Lower(earlier[i].paycardId) in KeysOf(earlier) {
        assert earlier[i] in earlier;
      }
      if Eligible(q, log) && Lower(log.paycardId) !in KeysOf(earlier) {
        assert log in found;
      }
    }
  }

  lemma DistinctStep(q: Query, logs: seq<Log>)
    requires logs != []
    ensures var found, log := Distinct(q, logs[..|logs| - 1]), logs[|logs| - 1];
            Distinct(q, logs) ==
              found + if Eligible(q, log) && Lower(log.paycardId) !in KeysOf(found) then [log] else []
  {
  }

  /** The last log is found only when no log before it would have done. */
  lemma LastFound(q: Query, logs: seq<Log>)
    requires logs != [] && |Distinct(q, logs)| > |Distinct(q, logs[..|logs| - 1])|
    ensures var last := logs[|logs| - 1];
            forall i :: 0 <= i < |logs| - 1 && Eligible(q, logs[i]) ==>
              Lower(logs[i].paycardId) != Lower(last.paycardId)
  {
    hide Lower;
    var front := logs[..|logs| - 1];
    DistinctLogs(q, front);
    forall i | 0 <= i < |front| && Eligible(q, logs[i])
      ensures Lower(logs[i].paycardId) in KeysOf(Distinct(q, front))
    {
      assert logs[i] == front[i];
    }
  }

  /** A found log is the first eligible one of its Paycard: no log before it would have done. */
  lemma {:induction false} FoundFirst(q: Query, logs: seq<Log>, k: nat) returns (p: nat)
    requires k < |Distinct(q, logs)|
    ensures p < |logs| && logs[p] == Distinct(q, logs)[k] && k == |Distinct(q, logs[..p])|
    ensures forall i :: 0 <= i < p && Eligible(q, logs[i]) ==>
              Lower(logs[i].paycardId) != Lower(logs[p].paycardId)
  {
    hide Distinct, Eligible, Lower, KeysOf;
    if logs == [] { NoneFound(q); }
    var front := logs[..|logs| - 1];
    DistinctStep(q, logs);
    if k < |Distinct(q, front)| {
      p := FoundFirst(q, front, k);
      assert front[..p] == logs[..p];
      assert forall i :: 0 <= i <= p ==> front[i] == logs[i];
    } else {
      p := |logs| - 1;
      LastFound(q, logs);
    }
  }

  lemma NoneFound(q: Query)
    ensures Distinct(q, []) == []
  {
  }

  // ---- Where the found logs are ------------------------------------------------------------------

  ghost predicate Increasing(p: seq<nat>) {
    forall i, j :: 0 <= i < j < |p| ==> p[i] < p[j]
  }

  ghost predicate Decreasing(p: seq<nat>) {
    forall i, j :: 0 <= i < j < |p| ==> p[i] > p[j]
  }

  /** The positions p pick these logs. */
  ghost predicate Picks(logs: seq<Log>, p: seq<nat>, picked: seq<Log>) {
    |p| == |picked| && forall i :: 0 <= i < |p| ==> p[i] < |logs| && logs[p[i]] == picked[i]
  }

  ghost predicate SameCard(a: Log, b: Log) {
    Lower(a.paycardId) == Lower(b.paycardId)
  }

  /** One of the positions, none after k, has the Paycard of log k. */
  ghost predicate FoundBy(logs: seq<Log>, p: seq<nat>, k: nat)
    requires k < |logs|
  {
    exists i :: 0 <= i < |p| && p[i] <= k && SameCard(logs[p[i]], logs[k])
  }

  /** Where one pass finds its logs: every eligible log repeats the Paycard of one found no later. */
  lemma {:induction false} DistinctAt(q: Query, logs: seq<Log>) returns (p: seq<nat>)
    ensures Picks(logs, p, Distinct(q, logs)) && Increasing(p)
    ensures forall k :: 0 <= k < |logs| && Eligible(q, logs[k]) ==> FoundBy(logs, p, k)
  {
    hide Eligible, Distinct, FoundBy, KeysOf, Lower, Picks, Increasing;
    if logs == [] {
      p := [];
      NothingFound(q);
    } else {
      var front, last := logs[..|logs| - 1], logs[|logs| - 1];
      var earlier := DistinctAt(q, front);
      var found := Distinct(q, front);
      var isNew := Eligible(q, last) && Lower(last.paycardId) !in KeysOf(found);
      p := earlier + if isNew then [|front|] else [];
      DistinctStep(q, logs);
      PicksBehind(logs, earlier, found);
      assert earlier + [] == earlier && found + [] == found;
      forall k | 0 <= k < |logs| && Eligible(q, logs[k])
        ensures FoundBy(logs, p, k)
      {
        if k < |front| {
          assert front[k] == logs[k];
          FoundInFront(logs, earlier, p, k);
        } else if isNew {
          FoundItself(logs, p);
        } else {
          FoundAgain(logs, found, p);
        }
      }
    }
  }

  lemma PicksBehind(logs: seq<Log>, p: seq<nat>, picked: seq<Log>)
    requires logs != [] && Picks(logs[..|logs| - 1], p, picked) && Increasing(p)
    ensures Picks(logs, p, picked)
    ensures Picks(logs, p + [|logs| - 1], picked + [logs[|logs| - 1]]) && Increasing(p + [|logs| - 1])
  {
  }

  lemma NothingFound(q: Query)
    ensures Picks([], [], Distinct(q, [])) && Increasing([])
  {
  }

  lemma FoundItself(logs: seq<Log>, p: seq<nat>)
    requires logs != [] && p != [] && p[|p| - 1] == |logs| - 1
    ensures FoundBy(logs, p, |logs| - 1)
  {
    hide Lower;
    assert SameCard(logs[p[|p| - 1]], logs[|logs| - 1]);
  }

  lemma FoundInFront(logs: seq<Log>, earlier: seq<nat>, p: seq<nat>, k: nat)
    requires k < |logs| - 1 && FoundBy(logs[..|logs| - 1], earlier, k) && earlier <= p
    ensures FoundBy(logs, p, k)
  {
    hide SameCard;
    var front := logs[..|logs| - 1];
    var i :| 0 <= i < |earlier| && earlier[i] <= k && SameCard(front[earlier[i]], front[k]);
    assert p[i] == earlier[i];
  }

  lemma FoundAgain(logs: seq<Log>, found: seq<Log>, p: seq<nat>)
    requires logs != [] && Picks(logs[..|logs| - 1], p, found)
    requires Lower(logs[|logs| - 1].paycardId) in KeysOf(found)
    ensures FoundBy(logs, p, |logs| - 1)
  {
    hide Lower;
    var other :| other in found && Lower(other.paycardId) == Lower(logs[|logs| - 1].paycardId);
    var i :| 0 <= i < |found| && found[i] == other;
    assert SameCard(logs[p[i]], logs[|logs| - 1]);
  }

  lemma RangeStep(logs: seq<Log>, from: int, to: int)
    requires logs != []
    ensures Reversed(Between(logs, from, to)) ==
              (if from <= logs[|logs| - 1].block <= to then [logs[|logs| - 1]] else [])
              + Reversed(Between(logs[..|logs| - 1], from, to))
  {
    hide Between, Reversed;
    BetweenStep(logs, from, to);
    ReversedStep(Between(logs[..|logs| - 1], from, to), logs[|logs| - 1]);
  }

  lemma ReversedStep(logs: seq<Log>, log: Log)
    ensures Reversed(logs + [log]) == [log] + Reversed(logs)
    ensures Reversed(logs + []) == Reversed(logs)
  {
    assert (logs + [log])[..|logs|] == logs;
    assert logs + [] == logs;
  }

  lemma PicksInFront(logs: seq<Log>, b: seq<nat>, picked: seq<Log>)
    requires logs != [] && Picks(logs[..|logs| - 1], b, picked) && Decreasing(b)
    ensures Picks(logs, b, picked)
    ensures Picks(logs, [|logs| - 1] + b, [logs[|logs| - 1]] + picked) && Decreasing([|logs| - 1] + b)
  {
  }

  lemma NothingInRange(from: int, to: int)
    ensures Picks([], [], Reversed(Between([], from, to))) && Decreasing([])
  {
  }

  /** Where the logs of a block range are, newest first. */
  lemma {:induction false} RangeAt(logs: seq<Log>, from: int, to: int) returns (b: seq<nat>)
    ensures Picks(logs, b, Reversed(Between(logs, from, to))) && Decreasing(b)
    ensures forall k: nat :: k in b <==> k < |logs| && from <= logs[k].block <= to
  {
    hide Between, Reversed, Picks, Decreasing;
    if logs == [] {
      b := [];
      NothingInRange(from, to);
    } else {
      RangeStep(logs, from, to);
      var front, last := logs[..|logs| - 1], |logs| - 1;
      var earlier := RangeAt(front, from, to);
      PicksInFront(logs, earlier, Reversed(Between(front, from, to)));
      b := (if from <= logs[last].block <= to then [last] else []) + earlier;
      assert [] + earlier == earlier && [] + Reversed(Between(front, from, to)) == Reversed(Between(front, from, to));
      forall k: nat
        ensures k in b <==> k < |logs| && from <= logs[k].block <= to
      {
        assert k in b <==> k in earlier || (k == last && from <= logs[last].block <= to);
        if k < last { assert front[k] == logs[k]; }
      }
    }
  }

  /** Positions in the chain's order of what the single pass takes. */
  ghost predicate TakenAt(q: Query, logs: seq<Log>, from: int, to: int, taken: seq<Log>, at: seq<nat>) {
    && Picks(logs, at, taken) && Decreasing(at)
    && (forall i :: 0 <= i < |at| ==> from <= logs[at[i]].block <= to)
    && (forall k :: 0 <= k < |logs| && from <= logs[k].block <= to && Eligible(q, logs[k]) ==>
          TakenOrOlder(logs, at, q.limit, k))
  }

  /** The Paycard of log k is taken from no older a log, or as many as wanted are taken from newer ones. */
  ghost predicate TakenOrOlder(logs: seq<Log>, at: seq<nat>, limit: nat, k: nat)
    requires k < |logs| && forall i :: 0 <= i < |at| ==> at[i] < |logs|
  {
    || (exists i :: 0 <= i < |at| && at[i] >= k && Lower(logs[at[i]].paycardId) == Lower(logs[k].paycardId))
    || (|at| == limit && forall i :: 0 <= i < |at| ==> at[i] > k)
  }

  lemma SinglePassAt(q: Query, logs: seq<Log>, from: int, to: int) returns (at: seq<nat>)
    ensures TakenAt(q, logs, from, to, SinglePass(q, logs, from, to), at)
  {
    hide Eligible, Distinct, Between, Reversed, FoundBy, TakenOrOlder;
    var b := RangeAt(logs, from, to);
    var range := Reversed(Between(logs, from, to));
    var p := DistinctAt(q, range);
    var n := if |p| <= q.limit then |p| else q.limit;
    at := seq(n, i requires 0 <= i < n => b[p[i]]);
    assert forall i :: 0 <= i < n ==> at[i] in b;
    forall k | 0 <= k < |logs| && from <= logs[k].block <= to && Eligible(q, logs[k])
      ensures TakenOrOlder(logs, at, q.limit, k)
    {
      var j :| 0 <= j < |b| && b[j] == k;
      assert FoundBy(range, p, j);
      TakenOrOlderAt(logs, range, b, p, at, q.limit, j);
    }
  }

  lemma TakenOrOlderAt(logs: seq<Log>, range: seq<Log>, b: seq<nat>, p: seq<nat>, at: seq<nat>, limit: nat, j: nat)
    requires Picks(logs, b, range) && Decreasing(b) && Increasing(p)
    requires forall i :: 0 <= i < |p| ==> p[i] < |range|
    requires j < |range| && FoundBy(range, p, j)
    requires |at| == if |p| <= limit then |p| else limit
    requires forall i :: 0 <= i < |at| ==> at[i] < |logs| && at[i] == b[p[i]]
    ensures TakenOrOlder(logs, at, limit, b[j])
  {
    hide Lower;
    var i :| 0 <= i < |p| && p[i] <= j && SameCard(range[p[i]], range[j]);
    if i < |at| {
      assert at[i] >= b[j] && Lower(logs[at[i]].paycardId) == Lower(logs[b[j]].paycardId);
    } else {
      forall l | 0 <= l < |at|
        ensures at[l] > b[j]
      {
        assert p[l] < p[i];
      }
    }
  }

  // ---- The loops' view ---------------------------------------------------------------------------

  /** What the inner loop makes of the logs of a chunk, newest first, given what was found before. */
  function Collect(q: Query, found: seq<Log>, logs: seq<Log>): seq<Log> {
    if logs == [] then found
    else
      var earlier, log := Collect(q, found, logs[..|logs| - 1]), logs[|logs| - 1];
      if |earlier| < q.limit && Eligible(q, log) && Lower(log.paycardId) !in KeysOf(earlier) then earlier + [log]
      else earlier
  }

  lemma {:induction false} CollectIsTake(q: Query, logs: seq<Log>)
    ensures Collect(q, [], logs) == Take(Distinct(q, logs), q.limit)
  {
    if logs != [] { CollectIsTake(q, logs[..|logs| - 1]); }
  }

  lemma {:induction false} CollectConcat(q: Query, found: seq<Log>, a: seq<Log>, b: seq<Log>)
    ensures Collect(q, Collect(q, found, a), b) == Collect(q, found, a + b)
  {
    if b == [] {
      assert a + b == a;
    } else {
      assert (a + b)[..|a + b| - 1] == a + b[..|b| - 1];
      CollectConcat(q, found, a, b[..|b| - 1]);
    }
  }

  lemma {:induction false} CollectFull(q: Query, found: seq<Log>, logs: seq<Log>)
    requires |found| >= q.limit
    ensures Collect(q, found, logs) == found
  {
    if logs != [] { CollectFull(q, found, logs[..|logs| - 1]); }
  }

  lemma {:induction false} BetweenNothing(logs: seq<Log>, from: int, to: int)
    requires forall i :: 0 <= i < |logs| ==> !(from <= logs[i].block <= to)
    ensures Between(logs, from, to) == []
  {
    if logs != [] { BetweenNothing(logs[..|logs| - 1], from, to); }
  }

  /** A block range is its lower part followed by its upper part. */
  lemma {:induction false} BetweenSplit(logs: seq<Log>, from: int, mid: int, to: int)
    requires ChainOrder(logs) && from <= mid <= to + 1
    ensures Between(logs, from, to) == Between(logs, from, mid - 1) + Between(logs, mid, to)
  {
    if logs != [] {
      var front, log := logs[..|logs| - 1], logs[|logs| - 1];
      BetweenSplit(front, from, mid, to);
      BetweenStep(logs, from, to);
      BetweenStep(logs, from, mid - 1);
      BetweenStep(logs, mid, to);
      if log.block < mid {
        NoneBefore(logs, mid);
        BetweenNothing(front, mid, to);
        BetweenNothing(logs, mid, to);
      }
      hide Between, ChainOrder;
    }
  }

  lemma BetweenStep(logs: seq<Log>, from: int, to: int)
    requires logs != []
    ensures Between(logs, from, to) == Between(logs[..|logs| - 1], from, to)
                                       + if from <= logs[|logs| - 1].block <= to then [logs[|logs| - 1]] else []
  {
  }

  /** In chain order no log is in a later block than the last one. */
  lemma NoneBefore(logs: seq<Log>, mid: int)
    requires ChainOrder(logs) && logs != [] && logs[|logs| - 1].block < mid
    ensures forall i :: 0 <= i < |logs| ==> logs[i].block < mid
  {
  }

  lemma {:induction false} ReversedConcat(a: seq<Log>, b: seq<Log>)
    ensures Reversed(a + b) == Reversed(b) + Reversed(a)
  {
    if b == [] {
      assert a + b == a;
    } else {
      assert (a + b)[..|a + b| - 1] == a + b[..|b| - 1];
      ReversedConcat(a, b[..|b| - 1]);
    }
  }

  // ---- The scan ----------------------------------------------------------------------------------

  /** One chunk's logs, newest first. */
  method CollectChunk(q: Query, logs: seq<Log>, found: seq<Log>) returns (results: seq<Log>)
    requires |found| <= q.limit
    ensures results == Collect(q, found, logs) && |results| <= q.limit
  {
    results := found;
    var i := 0;
    while i < |logs| && |results| < q.limit
      invariant 0 <= i <= |logs| && |results| <= q.limit
      invariant results == Collect(q, found, logs[..i])
    {
      assert logs[..i + 1][..i] == logs[..i];
      if Eligible(q, logs[i]) && Lower(logs[i].paycardId) !in KeysOf(results) {
        results := results + [logs[i]];
      }
      i := i + 1;
    }
    assert logs == logs[..i] + logs[i..];
    CollectConcat(q, found, logs[..i], logs[i..]);
    if i < |logs| {
      CollectFull(q, results, logs[i..]);
    } else {
      assert logs[i..] == [];
    }
  }

  /** The chunks from the newest down, until enough is found or the range is exhausted. */
  method ScanBackwards(q: Query, logs: seq<Log>, fromBlock: nat, last: int, chunkSize: nat) returns (results: seq<Log>)
    requires ChainOrder(logs) && chunkSize > 0
    ensures results == SinglePass(q, logs, fromBlock, last)
  {
    hide Between, Reversed, Collect, Distinct, ChainOrder;
    ghost var range := Reversed(Between(logs, fromBlock, last));
    CollectIsTake(q, range);
    var chunkTo := last;
    results := [];
    while chunkTo >= fromBlock && |results| < q.limit
      invariant |results| <= q.limit
      invariant Collect(q, [], range) == Collect(q, results, Reversed(Between(logs, fromBlock, chunkTo)))
      decreases chunkTo - fromBlock
    {
      var chunkFrom := if fromBlock >= chunkTo - chunkSize + 1 then fromBlock else chunkTo - chunkSize + 1;
      var chunk := Reversed(Between(logs, chunkFrom, chunkTo));
      ChunkThenRest(q, logs, results, fromBlock, chunkFrom, chunkTo);
      results := CollectChunk(q, chunk, results);
      chunkTo := chunkFrom - 1;
      if chunkFrom == fromBlock {
        break;
      }
    }
    if chunkTo < fromBlock {
      NothingLeft(q, logs, results, fromBlock, chunkTo);
    } else {
      CollectFull(q, results, Reversed(Between(logs, fromBlock, chunkTo)));
    }
  }

  lemma ChunkThenRest(q: Query, logs: seq<Log>, found: seq<Log>, from: int, chunkFrom: int, chunkTo: int)
    requires ChainOrder(logs) && from <= chunkFrom <= chunkTo + 1
    ensures Collect(q, found, Reversed(Between(logs, from, chunkTo))) ==
              Collect(q, Collect(q, found, Reversed(Between(logs, chunkFrom, chunkTo))),
                      Reversed(Between(logs, from, chunkFrom - 1)))
  {
    hide Collect, Between, Reversed;
    var chunk, rest := Between(logs, chunkFrom, chunkTo), Between(logs, from, chunkFrom - 1);
    BetweenSplit(logs, from, chunkFrom, chunkTo);
    ReversedConcat(rest, chunk);
    CollectConcat(q, found, Reversed(chunk), Reversed(rest));
  }

  lemma NothingLeft(q: Query, logs: seq<Log>, found: seq<Log>, from: int, to: int)
    requires to < from
    ensures Collect(q, found, Reversed(Between(logs, from, to))) == found
  {
    BetweenNothing(logs, from, to);
  }

  /**
   * For every chunk size the scan returns what one pass over the whole range returns; options that are out of range
   * are refused before any log is read. Found at the positions `at`, the returned logs are the newest ones of pairwise
   * different Paycards, newest first, and a Paycard with a wanted log is missing only when `limit` newer ones are not.
   */
  method RecoverPaycards(logs: seq<Log>, latestBlock: nat, fromBlock: int, toBlock: Option<int>, chunkSize: int,
                         limit: int, metadataHash: Option<string>, registered: string -> bool)
    returns (r: Result<seq<Log>>, ghost at: seq<nat>)
    requires ChainOrder(logs)
    ensures var to := if toBlock.Some? then toBlock.value else latestBlock;
            if fromBlock < 0 || to < fromBlock || limit <= 0 || chunkSize <= 0 then r.Err?
            else r == Ok(SinglePass(Query(metadataHash, registered, limit), logs, fromBlock,
                                    if to <= latestBlock then to else latestBlock))
    ensures r.Ok? ==> |at| == |r.value| <= limit
    ensures r.Ok? ==>
              forall i :: 0 <= i < |at| ==>
                && at[i] < |logs| && logs[at[i]] == r.value[i]
                && r.value[i].parsed && registered(r.value[i].paycardId)
                && fromBlock <= r.value[i].block <= latestBlock
                && (toBlock.Some? ==> r.value[i].block <= toBlock.value)
                && (metadataHash.Some? && metadataHash.value != "" ==>
                      Lower(r.value[i].metadataHash) == Lower(metadataHash.value))
    ensures r.Ok? ==>
              forall i, j :: 0 <= i < j < |at| ==>
                at[i] > at[j] && Lower(r.value[i].paycardId) != Lower(r.value[j].paycardId)
    ensures r.Ok? ==>
              forall k :: 0 <= k < |logs| && logs[k].parsed && registered(logs[k].paycardId)
                          && fromBlock <= logs[k].block <= latestBlock
                          && (toBlock.None? || logs[k].block <= toBlock.value)
                          && (metadataHash.None? || metadataHash.value == ""
                              || Lower(logs[k].metadataHash) == Lower(metadataHash.value)) ==>
                || (exists i :: 0 <= i < |at| && at[i] >= k
                                && Lower(r.value[i].paycardId) == Lower(logs[k].paycardId))
                || (|at| == limit && forall i :: 0 <= i < |at| ==> at[i] > k)
  {
    hide SinglePass, Lower;
    at := [];
    var to := if toBlock.Some? then toBlock.value else latestBlock;
    if fromBlock < 0 {
      return Err("fromBlock must be a non-negative integer"), at;
    }
    if to < fromBlock {
      return Err("toBlock must be an integer greater than or equal to fromBlock"), at;
    }
    if limit <= 0 {
      return Err("limit must be a positive integer"), at;
    }
    if chunkSize <= 0 {
      return Err("chunkSize must be a positive integer"), at;
    }
    var last := if to <= latestBlock then to else latestBlock;
    var q := Query(metadataHash, registered, limit);
    var results := ScanBackwards(q, logs, fromBlock, last, chunkSize);
    at := SinglePassAt(q, logs, fromBlock, last);
    SinglePassFinds(q, logs, fromBlock, last);
    r := Ok(results);
  }

  /** What is taken was eligible, no more than wanted, of different Paycards. */
  lemma SinglePassFinds(q: Query, logs: seq<Log>, from: int, to: int)
    ensures var taken := SinglePass(q, logs, from, to);
            && |taken| <= q.limit
            && (forall i :: 0 <= i < |taken| ==> Eligible(q, taken[i]))
            && (forall i, j :: 0 <= i < j < |taken| ==> Lower(taken[i].paycardId) != Lower(taken[j].paycardId))
  {
    hide Lower, Distinct;
    DistinctLogs(q, Reversed(Between(logs, from, to)));
  }
}
