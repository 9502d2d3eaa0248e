// What the gateway's balances say: they depend on which logs took effect, not on their order.
module GatewayBalance {
  import opened Prelude
  import opened TerminationQueue
  import opened StateStore
  import opened Gateway

  /** The logs that took effect on a paycard since it was last provisioned, and its allocation then. */
  datatype History = Unseen | Seen(allocation: nat, logs: seq<Log>)

  function Since(applied: seq<Log>, id: string): History {
    if applied == [] then Unseen
    else Extend(Since(applied[..|applied| - 1], id), applied[|applied| - 1], id)
  }

  function Extend(h: History, log: Log, id: string): History {
    if log.paycardId != id then h
    else if log.kind.Provisioned? then Seen(log.kind.allocation, [])
    else if h.Seen? then Seen(h.allocation, h.logs + [log])
    else Unseen
  }

  function WithdrawnBy(log: Log): nat {
    if log.kind.Flushed? then log.kind.withdrawn else 0
  }

  function Withdrawn(logs: seq<Log>): nat {
    if logs == [] then 0 else Withdrawn(logs[..|logs| - 1]) + WithdrawnBy(logs[|logs| - 1])
  }

  predicate AnyReclaimed(logs: seq<Log>) {
    exists log :: log in logs && log.kind.Reclaimed?
  }

  predicate AnyFlushed(logs: seq<Log>) {
    exists log :: log in logs && log.kind.Flushed?
  }

  /** max(0, allocation - sum of withdrawals), or 0 after a reclaim. */
  function BalanceAfter(allocation: nat, logs: seq<Log>): nat {
    if AnyReclaimed(logs) || Withdrawn(logs) >= allocation then 0 else allocation - Withdrawn(logs)
  }

  predicate Drained(allocation: nat, logs: seq<Log>) {
    AnyReclaimed(logs) || (AnyFlushed(logs) && Withdrawn(logs) >= allocation)
  }

  predicate Follows(stream: Stream, h: History)
    requires h.Seen?
  {
    && stream.allocation == h.allocation && stream.balance == BalanceAfter(h.allocation, h.logs)
    && (stream.status == Terminated <==> Drained(h.allocation, h.logs))
  }

  ghost predicate FollowsAt(streams: map<string, Stream>, applied: seq<Log>, id: string) {
    var h := Since(applied, id);
    (id in streams <==> h.Seen?) && (h.Seen? ==> Follows(streams[id], h))
  }

  /** A stream's money and whether it has terminated. */
  ghost predicate SameMoney(a: map<string, Stream>, b: map<string, Stream>, id: string) {
    && (id in a <==> id in b)
    && (id in a ==> && b[id].allocation == a[id].allocation && b[id].balance == a[id].balance
                    && (b[id].status == Terminated <==> a[id].status == Terminated))
  }

  lemma {:induction false} FlipKeepsMoney(streams: map<string, Stream>, ids: seq<string>, id: string)
    ensures SameMoney(streams, FlipAll(streams, ids), id)
  {
    if ids != [] { FlipKeepsMoney(streams, ids[..|ids| - 1], id); }
  }

  lemma AppendLog(logs: seq<Log>, log: Log)
    ensures Withdrawn(logs + [log]) == Withdrawn(logs) + WithdrawnBy(log)
    ensures AnyReclaimed(logs + [log]) <==> AnyReclaimed(logs) || log.kind.Reclaimed?
    ensures AnyFlushed(logs + [log]) <==> AnyFlushed(logs) || log.kind.Flushed?
  {
    assert (logs + [log])[..|logs|] == logs;
    assert forall x :: x in logs + [log] <==> x in logs || x == log;
  }

  /** What a handler does to the stream of its own paycard. */
  function Handled(stream: Stream, log: Log, timestamp: Option<Time>): Stream {
    match log.kind
    case Provisioned(_, _, _, _, _) => NewStream(log.paycardId, log.kind)
    case Flushed(withdrawn) => Flush(stream, withdrawn, timestamp)
    case Reclaimed => stream.(balance := 0, status := Terminated)
    case Other => stream
  }

  lemma ApplyHandles(s: State, log: Log, timestamp: Option<Time>, id: string)
    ensures var r := Apply(s, log, timestamp).streams;
            if id != log.paycardId || (id !in s.streams && !log.kind.Provisioned?)
            then (id in r <==> id in s.streams) && (id in s.streams ==> r[id] == s.streams[id])
            else id in r && (id in s.streams ==> r[id] == Handled(s.streams[id], log, timestamp))
                 && (log.kind.Provisioned? ==> r[id] == NewStream(id, log.kind))
  {
  }

  lemma HandledFollows(stream: Stream, h: History, log: Log, timestamp: Option<Time>)
    requires h.Seen? && Follows(stream, h)
    ensures Extend(h, log, log.paycardId).Seen?
    ensures Follows(Handled(stream, log, timestamp), Extend(h, log, log.paycardId))
  {
    AppendLog(h.logs, log);
    NothingYet();
    hide Withdrawn, AnyReclaimed, AnyFlushed;
  }

  lemma ApplyFollows(s: State, log: Log, timestamp: Option<Time>, applied: seq<Log>, id: string)
    requires FollowsAt(s.streams, applied, id)
    ensures FollowsAt(Apply(s, log, timestamp).streams, applied + [log], id)
  {
    assert (applied + [log])[..|applied|] == applied;
    var h := Since(applied, id);
    assert Since(applied + [log], id) == Extend(h, log, id);
    ApplyHandles(s, log, timestamp, id);
    hide Since, Apply, Follows, Handled;
    if log.paycardId == id {
      if h.Seen? {
        HandledFollows(s.streams[id], h, log, timestamp);
      } else if log.kind.Provisioned? {
        FirstFollows(log);
      }
    }
  }

  lemma FirstFollows(log: Log)
    requires log.kind.Provisioned?
    ensures Follows(NewStream(log.paycardId, log.kind), Seen(log.kind.allocation, []))
  {
    NothingYet();
  }

  lemma NothingYet()
    ensures Withdrawn([]) == 0 && !AnyReclaimed([]) && !AnyFlushed([])
  {
  }

  lemma NextFollows(s: State, e: Event, applied: seq<Log>, id: string)
    requires FollowsAt(s.streams, applied, id) && !(Dies(e) && !s.durable)
    ensures FollowsAt(Next(s, e).streams,
                      if Enabled(s, e) && e.Finish? then applied + [s.inflight[e.k]] else applied, id)
  {
    hide Apply, FlipAll, Since, Follows;
    if Enabled(s, e) {
      match e
      case Finish(k, timestamp) => ApplyFollows(Record(s, s.inflight[k].key), s.inflight[k], timestamp, applied, id);
      case Sweep(now) => FlipKeepsMoney(s.streams, Ids(s.queue[..Due(s.queue, now)]), id);
        MoneyFollows(s.streams, Next(s, e).streams, applied, id);
      case DieSweeping(now, n) => FlipKeepsMoney(s.streams, Ids(s.queue[..n]), id);
        MoneyFollows(s.streams, Next(s, e).streams, applied, id);
      case Bind(_, _) => MoneyFollows(s.streams, Next(s, e).streams, applied, id);
      case _ =>
    }
  }

  lemma MoneyFollows(a: map<string, Stream>, b: map<string, Stream>, applied: seq<Log>, id: string)
    requires FollowsAt(a, applied, id) && SameMoney(a, b, id)
    ensures FollowsAt(b, applied, id)
  {
    hide BalanceAfter, Drained, Since;
  }

  /** A tracked balance is the allocation less what the applied logs withdrew, however those were ordered. */
  lemma {:induction false} BalanceFollowsLogs(durable: bool, run: seq<Event>, id: string)
    ensures FollowsAt(Run(durable, run).streams, Applied(durable, run), id)
  {
    if run != [] {
      var earlier, e := run[..|run| - 1], run[|run| - 1];
      BalanceFollowsLogs(durable, earlier, id);
      RunDeduplicates(durable, earlier);
      hide Next, FollowsAt;
      if Dies(e) && !durable {
        EmptyFollows(Run(durable, earlier), e, Applied(durable, earlier), id);
      } else {
        NextFollows(Run(durable, earlier), e, Applied(durable, earlier), id);
      }
    }
  }

  lemma EmptyFollows(s: State, e: Event, applied: seq<Log>, id: string)
    requires Dies(e) && !s.durable && FollowsAt(s.streams, applied, id)
    ensures FollowsAt(Next(s, e).streams, if Enabled(s, e) then [] else applied, id)
  {
    hide Follows;
  }

  /** Two gateways that applied the same logs to a paycard agree on its balance and on whether it terminated. */
  lemma OrderIrrelevant(durable: bool, run: seq<Event>, otherDurable: bool, other: seq<Event>, id: string)
    requires var h, g := Since(Applied(durable, run), id), Since(Applied(otherDurable, other), id);
             h.Seen? && g.Seen? && h.allocation == g.allocation && multiset(h.logs) == multiset(g.logs)
    ensures var a, b := Run(durable, run).streams, Run(otherDurable, other).streams;
            id in a && id in b && a[id].balance == b[id].balance
            && (a[id].status == Terminated <==> b[id].status == Terminated)
  {
    BalanceFollowsLogs(durable, run, id);
    BalanceFollowsLogs(otherDurable, other, id);
    hide Run, Applied, Since, AnyReclaimed, AnyFlushed, Withdrawn;
    var h, g := Since(Applied(durable, run), id), Since(Applied(otherDurable, other), id);
    SameLogs(h.logs, g.logs);
  }

  lemma SameLogs(a: seq<Log>, b: seq<Log>)
    requires multiset(a) == multiset(b)
    ensures Withdrawn(a) == Withdrawn(b)
    ensures AnyReclaimed(a) <==> AnyReclaimed(b)
    ensures AnyFlushed(a) <==> AnyFlushed(b)
  {
    assert forall log :: log in a <==> log in multiset(a);
    assert forall log :: log in b <==> log in multiset(b);
    WithdrawnPermuted(a, b);
  }

  lemma {:induction false} WithdrawnSplit(a: seq<Log>, b: seq<Log>)
    ensures Withdrawn(a + b) == Withdrawn(a) + Withdrawn(b)
  {
    if b == [] {
      assert a + b == a;
    } else {
      assert (a + b)[..|a + b| - 1] == a + b[..|b| - 1];
      WithdrawnSplit(a, b[..|b| - 1]);
    }
  }

  lemma SameRest(a: seq<Log>, b: seq<Log>, k: nat)
    requires multiset(a) == multiset(b) && a != [] && k < |b| && b[k] == a[|a| - 1]
    ensures multiset(a[..|a| - 1]) == multiset(b[..k] + b[k + 1..])
  {
    var log := b[k];
    assert a == a[..|a| - 1] + [log];
    assert b == b[..k] + [log] + b[k + 1..];
    var p, q := multiset(a[..|a| - 1]), multiset(b[..k] + b[k + 1..]);
    assert multiset(a) == p + multiset{log};
    assert multiset(b) == q + multiset{log};
    assert p == multiset(a) - multiset{log} && q == multiset(b) - multiset{log};
  }

  lemma {:induction false} WithdrawnPermuted(a: seq<Log>, b: seq<Log>)
    requires multiset(a) == multiset(b)
    ensures Withdrawn(a) == Withdrawn(b)
  {
    assert |a| == |multiset(a)| == |multiset(b)| == |b|;
    if a != [] {
      var log := a[|a| - 1];
      assert log in multiset(b);
      var k :| 0 <= k < |b| && b[k] == log;
      var left, right := b[..k], b[k + 1..];
      assert a == a[..|a| - 1] + [log];
      assert b == left + ([log] + right);
      SameRest(a, b, k);
      WithdrawnPermuted(a[..|a| - 1], left + right);
      WithdrawnSplit(left, [log] + right);
      WithdrawnSplit([log], right);
      WithdrawnSplit(left, right);
      assert Withdrawn([log]) == WithdrawnBy(log) by { assert [log][..0] == []; }
    }
  }

  /** With money in it to begin with, a stream has terminated exactly when its balance is zero. */
  lemma TerminatedWhenEmpty(durable: bool, run: seq<Event>, id: string)
    requires id in Run(durable, run).streams && Run(durable, run).streams[id].allocation > 0
    ensures var stream := Run(durable, run).streams[id];
            stream.status == Terminated <==> stream.balance == 0
  {
    BalanceFollowsLogs(durable, run, id);
    var h := Since(Applied(durable, run), id);
    hide Run, Applied, Since;
    if !AnyFlushed(h.logs) { NoFlushNoWithdrawal(h.logs); }
  }

  lemma {:induction false} NoFlushNoWithdrawal(logs: seq<Log>)
    requires !AnyFlushed(logs)
    ensures Withdrawn(logs) == 0
  {
    if logs != [] {
      assert logs[|logs| - 1] in logs;
      assert forall log :: log in logs[..|logs| - 1] ==> log in logs;
      NoFlushNoWithdrawal(logs[..|logs| - 1]);
    }
  }

  // ---- What else a stream says -------------------------------------------------------------------

  /** The log that last provisioned a paycard and when the paycard was last heard of, by the calls of a run. */
  datatype Origin = Unknown | Known(provision: Log, seen: Time)

  function Traced(o: Origin, log: Log, timestamp: Option<Time>, id: string): Origin {
    if log.paycardId != id then o
    else if log.kind.Provisioned? then Known(log, log.kind.genesis)
    else if log.kind.Flushed? && o.Known? && timestamp.Some? then Known(o.provision, timestamp.value)
    else o
  }

  function OriginOf(durable: bool, run: seq<Event>, id: string): Origin {
    if run == [] then Unknown
    else
      var earlier, e := run[..|run| - 1], run[|run| - 1];
      var s, o := Run(durable, earlier), OriginOf(durable, earlier, id);
      if Enabled(s, e) && e.Finish? then Traced(o, s.inflight[e.k], e.timestamp, id)
      else if Enabled(s, e) && Dies(e) && !durable then Unknown
      else o
  }

  /** The stream is the one that was provisioned, checked last when the gateway last heard of it. */
  ghost predicate TellsOrigin(streams: map<string, Stream>, o: Origin, id: string) {
    && (id in streams <==> o.Known?)
    && (o.Known? ==>
          && o.provision.paycardId == id && o.provision.kind.Provisioned?
          && var stream, k := streams[id], o.provision.kind;
          && stream.paycardId == id && stream.metadataHash == k.metadataHash && stream.allocation == k.allocation
          && stream.velocity == k.velocity && stream.genesis == k.genesis && stream.lifespan == k.lifespan
          && stream.lastCheckpoint == o.seen)
  }

  /** Everything but status, balance and workflow. */
  ghost predicate SameOrigin(a: map<string, Stream>, b: map<string, Stream>, id: string) {
    && (id in a <==> id in b)
    && (id in a ==>
          b[id] == a[id].(status := b[id].status, balance := b[id].balance, workflowId := b[id].workflowId))
  }

  lemma {:induction false} FlipKeepsOrigin(streams: map<string, Stream>, ids: seq<string>, id: string)
    ensures SameOrigin(streams, FlipAll(streams, ids), id)
  {
    if ids != [] { FlipKeepsOrigin(streams, ids[..|ids| - 1], id); }
  }

  lemma OriginKept(a: map<string, Stream>, b: map<string, Stream>, o: Origin, id: string)
    requires SameOrigin(a, b, id) && TellsOrigin(a, o, id)
    ensures TellsOrigin(b, o, id)
  {
  }

  lemma ApplyTells(s: State, log: Log, timestamp: Option<Time>, o: Origin, id: string)
    requires TellsOrigin(s.streams, o, id)
    ensures TellsOrigin(Apply(s, log, timestamp).streams, Traced(o, log, timestamp, id), id)
  {
    ApplyHandles(s, log, timestamp, id);
    hide Apply;
  }

  /**
   * Over every run a tracked stream carries the allocation, velocity, genesis, lifespan and metadata hash of the log
   * that last provisioned its paycard, and as its last checkpoint that genesis or the time of the last withdrawal
   * handled since whose block was known.
   */
  lemma {:induction false} StreamsTellTheirOrigin(durable: bool, run: seq<Event>, id: string)
    ensures TellsOrigin(Run(durable, run).streams, OriginOf(durable, run, id), id)
  {
    if run != [] {
      var earlier, e := run[..|run| - 1], run[|run| - 1];
      var s, o := Run(durable, earlier), OriginOf(durable, earlier, id);
      StreamsTellTheirOrigin(durable, earlier, id);
      RunDeduplicates(durable, earlier);
      hide Apply, FlipAll, TellsOrigin, Traced, Deduplicated;
      if Enabled(s, e) {
        match e
        case Finish(k, timestamp) => ApplyTells(Record(s, s.inflight[k].key), s.inflight[k], timestamp, o, id);
        case Sweep(now) =>
          FlipKeepsOrigin(s.streams, Ids(s.queue[..Due(s.queue, now)]), id);
          OriginKept(s.streams, Next(s, e).streams, o, id);
        case DieSweeping(now, n) =>
          FlipKeepsOrigin(s.streams, Ids(s.queue[..n]), id);
          if durable { OriginKept(s.streams, Next(s, e).streams, o, id); } else { NothingTold(id); }
        case Bind(_, _) => OriginKept(s.streams, Next(s, e).streams, o, id);
        case _ => NothingTold(id);
      }
    } else {
      NothingTold(id);
    }
  }

  lemma NothingTold(id: string)
    ensures TellsOrigin(map[], Unknown, id)
  {
  }

  // ---- What order does matter for ----------------------------------------------------------------

  lemma RunMore(durable: bool, run: seq<Event>, e: Event)
    ensures Run(durable, run + [e]) == Next(Run(durable, run), e)
  {
    assert (run + [e])[..|run|] == run;
  }

  /** A log handled in a process that has no other handler open. */
  lemma HandledAlone(durable: bool, run: seq<Event>, log: Log)
    requires Run(durable, run).inflight == [] && Run(durable, run).durable == durable
    requires log.key !in Run(durable, run).processed && log.key !in Run(durable, run).recorded
    ensures var s, r := Run(durable, run), Run(durable, run + [Begin(log)] + [Finish(0, None)]);
            && r.inflight == [] && r.durable == durable && r.streams == Apply(s, log, None).streams
            && r.processed == s.processed + {log.key} && r.recorded <= s.recorded + {log.key}
  {
    hide Run, Apply;
    RunMore(durable, run, Begin(log));
    RunMore(durable, run + [Begin(log)], Finish(0, None));
    var s := Run(durable, run);
    var m := s.(processed := s.processed + {log.key}, inflight := [log]);
    assert Next(s, Begin(log)) == m;
    ApplyKeepsKeys(Record(m, log.key), log, None);
    SameStreams(Record(m, log.key), s, log);
  }

  lemma SameStreams(a: State, b: State, log: Log)
    requires a.streams == b.streams
    ensures Apply(a, log, None).streams == Apply(b, log, None).streams
  {
  }

  /**
   * A withdrawal handled before its paycard is provisioned is lost for good: the same two logs leave different
   * balances, so a balance is a function of the logs applied since the paycard was provisioned and of no fewer.
   */
  lemma EarlyFlushIsLost(durable: bool, provision: Log, flush: Log)
    requires provision.kind.Provisioned? && flush.kind.Flushed? && provision.paycardId == flush.paycardId
    requires provision.key != flush.key
    ensures var id, allocation, withdrawn := provision.paycardId, provision.kind.allocation, flush.kind.withdrawn;
            var inOrder := [Begin(provision)] + [Finish(0, None)] + [Begin(flush)] + [Finish(0, None)];
            var early := [Begin(flush)] + [Finish(0, None)] + [Begin(provision)] + [Finish(0, None)];
            var a, b := Run(durable, inOrder).streams, Run(durable, early).streams;
            && id in a && a[id].balance == (if withdrawn < allocation then allocation - withdrawn else 0)
            && id in b && b[id].balance == allocation
  {
    EmptyRun(durable);
    hide Run, Next;
    assert [] + [Begin(provision)] == [Begin(provision)] && [] + [Begin(flush)] == [Begin(flush)];
    FlushHandledNext(durable, provision, flush);
    FlushHandledFirst(durable, provision, flush);
  }

  lemma FlushHandledNext(durable: bool, provision: Log, flush: Log)
    requires provision.kind.Provisioned? && flush.kind.Flushed? && provision.paycardId == flush.paycardId
    requires provision.key != flush.key && Run(durable, []) == Initial(durable)
    ensures var id, allocation, withdrawn := provision.paycardId, provision.kind.allocation, flush.kind.withdrawn;
            var a := Run(durable, [] + [Begin(provision)] + [Finish(0, None)]
                                  + [Begin(flush)] + [Finish(0, None)]).streams;
            id in a && a[id].balance == if withdrawn < allocation then allocation - withdrawn else 0
  {
    hide Run, Next;
    HandledAlone(durable, [], provision);
    HandledAlone(durable, [] + [Begin(provision)] + [Finish(0, None)], flush);
  }

  lemma FlushHandledFirst(durable: bool, provision: Log, flush: Log)
    requires provision.kind.Provisioned? && flush.kind.Flushed? && provision.paycardId == flush.paycardId
    requires provision.key != flush.key && Run(durable, []) == Initial(durable)
    ensures var b := Run(durable, [] + [Begin(flush)] + [Finish(0, None)]
                                  + [Begin(provision)] + [Finish(0, None)]).streams;
            provision.paycardId in b && b[provision.paycardId].balance == provision.kind.allocation
  {
    hide Run, Next;
    HandledAlone(durable, [], flush);
    HandledAlone(durable, [] + [Begin(flush)] + [Finish(0, None)], provision);
  }

  /** Every withdrawal and reclaim of a paycard that took effect, whenever that was. */
  function OwnLogs(applied: seq<Log>, id: string): seq<Log> {
    if applied == [] then []
    else
      var last := applied[|applied| - 1];
      OwnLogs(applied[..|applied| - 1], id) + if last.paycardId == id && !last.kind.Provisioned? then [last] else []
  }

  /** Those of them that came before the paycard was last provisioned. */
  function EarlyLogs(applied: seq<Log>, id: string): seq<Log> {
    if applied == [] then []
    else
      var init, last := applied[..|applied| - 1], applied[|applied| - 1];
      if last.paycardId != id then EarlyLogs(init, id)
      else if last.kind.Provisioned? then OwnLogs(init, id)
      else if Since(init, id).Seen? then EarlyLogs(init, id)
      else EarlyLogs(init, id) + [last]
  }

  lemma {:induction false} OwnLogsSplit(applied: seq<Log>, id: string)
    ensures var h := Since(applied, id);
            OwnLogs(applied, id) == EarlyLogs(applied, id) + if h.Seen? then h.logs else []
  {
    if applied != [] {
      OwnLogsSplit(applied[..|applied| - 1], id);
    }
  }

  /**
   * Over every run the stored balance is what all of a paycard's logs say exactly when none was lost to no effect:
   * those since it was provisioned already leave nothing, or those before withdrew nothing and reclaimed nothing.
   */
  lemma BalanceTellsAllLogs(durable: bool, run: seq<Event>, id: string)
    requires Since(Applied(durable, run), id).Seen?
    ensures var applied, streams := Applied(durable, run), Run(durable, run).streams;
            var h, early := Since(applied, id), EarlyLogs(applied, id);
            && id in streams
            && (streams[id].balance == BalanceAfter(h.allocation, OwnLogs(applied, id)) <==>
                  || AnyReclaimed(h.logs) || Withdrawn(h.logs) >= h.allocation
                  || (!AnyReclaimed(early) && Withdrawn(early) == 0))
  {
    var applied := Applied(durable, run);
    var h, early := Since(applied, id), EarlyLogs(applied, id);
    BalanceFollowsLogs(durable, run, id);
    OwnLogsSplit(applied, id);
    hide Run, Applied, Since, OwnLogs, EarlyLogs;
    WithdrawnSplit(early, h.logs);
    assert AnyReclaimed(early + h.logs) <==> AnyReclaimed(early) || AnyReclaimed(h.logs);
  }

  lemma EmptyRun(durable: bool)
    ensures Run(durable, []) == Initial(durable)
  {
  }
}
