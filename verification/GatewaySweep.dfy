// The expiry sweep against a naive scan of the store, over every run, restarts included.
module GatewaySweep {
  import opened Prelude
  import opened TerminationQueue
  import opened StateStore
  import opened Gateway
  import opened GatewayBalance

  // ---- What the queue holds ----------------------------------------------------------------------

  ghost predicate IsEntryOf(e: Entry, streams: map<string, Stream>) {
    && e.paycardId in streams && streams[e.paycardId].lifespan > 0.0
    && e.expiresAt == streams[e.paycardId].genesis + streams[e.paycardId].lifespan
  }

  ghost predicate DistinctIds(q: seq<Entry>) {
    forall i, j :: 0 <= i < j < |q| ==> q[i].paycardId != q[j].paycardId
  }

  ghost predicate Lists(q: seq<Entry>, id: string) {
    exists e :: e in q && e.paycardId == id
  }

  predicate Expires(streams: map<string, Stream>, id: string) {
    id in streams && streams[id].status == Active && streams[id].lifespan > 0.0
  }

  /** The queue is in time order, and lists stored streams of positive lifespan once each, all active ones included. */
  ghost predicate Tracks(q: seq<Entry>, streams: map<string, Stream>) {
    && Sorted(q) && DistinctIds(q)
    && (forall e :: e in q ==> IsEntryOf(e, streams))
    && (forall id :: Expires(streams, id) ==> Lists(q, id))
  }

  ghost predicate Named(ids: seq<string>, streams: map<string, Stream>) {
    && NoDuplicates(ids) && (forall id :: id in ids <==> id in streams)
    && (forall id :: id in streams ==> streams[id].paycardId == id)
  }

  /** Streams change, but not their identity or lifetime, and none becomes active again. */
  ghost predicate Evolves(a: map<string, Stream>, b: map<string, Stream>) {
    && a.Keys == b.Keys
    && forall id :: id in a ==>
         && b[id].paycardId == a[id].paycardId && b[id].genesis == a[id].genesis && b[id].lifespan == a[id].lifespan
         && (b[id].status == Active ==> a[id].status == Active)
  }

  lemma EvolvedTracks(q: seq<Entry>, ids: seq<string>, a: map<string, Stream>, b: map<string, Stream>)
    requires Evolves(a, b) && Tracks(q, a) && Named(ids, a)
    ensures Tracks(q, b) && Named(ids, b)
  {
    hide Lists, Sorted, DistinctIds, NoDuplicates;
  }

  lemma {:induction false} FlipEvolves(streams: map<string, Stream>, ids: seq<string>)
    ensures Evolves(streams, FlipAll(streams, ids))
    ensures forall id :: id in streams ==>
              FlipAll(streams, ids)[id] == if id in ids && streams[id].status == Active
                                           then streams[id].(status := PendingSettlement) else streams[id]
  {
    if ids != [] {
      FlipEvolves(streams, ids[..|ids| - 1]);
      assert forall id :: id in ids <==> id in ids[..|ids| - 1] || id == ids[|ids| - 1];
    }
  }

  lemma InsertTracks(q: seq<Entry>, streams: map<string, Stream>, id: string, state: Stream)
    requires Tracks(q, streams) && id !in streams
    ensures Tracks(Scheduling(q, id, state.genesis, state.lifespan), streams[id := state])
  {
    var r := Scheduling(q, id, state.genesis, state.lifespan);
    var e := Entry(id, state.genesis + state.lifespan);
    var after := streams[id := state];
    if state.lifespan > 0.0 {
      InsertedInOrder(q, e);
      InsertedDistinct(q, e);
    }
    hide Sorted, DistinctIds, Inserted;
    forall x | Expires(after, x) ensures Lists(r, x) {
      if x == id {
        assert e in r;
      } else {
        assert Lists(q, x);
      }
    }
  }

  lemma InsertedDistinct(q: seq<Entry>, e: Entry)
    requires DistinctIds(q) && forall x :: x in q ==> x.paycardId != e.paycardId
    ensures DistinctIds(Inserted(q, e))
  {
    var n, r := Due(q, e.expiresAt), Inserted(q, e);
    hide Due;
    forall i | 0 <= i < |r| ensures r[i] == if i < n then q[i] else if i == n then e else q[i - 1] {}
    forall i, j | 0 <= i < j < |r| ensures r[i].paycardId != r[j].paycardId {
      if i == n {
        assert q[j - 1] in q;
      } else if j == n {
        assert q[i] in q;
      }
    }
  }

  // ---- Rebuilding on start -----------------------------------------------------------------------

  /** What start() schedules, in order. */
  function RebuildOrder(ids: seq<string>, streams: map<string, Stream>): seq<Entry> {
    if ids == [] then []
    else
      var id := ids[|ids| - 1];
      RebuildOrder(ids[..|ids| - 1], streams)
      + if Expires(streams, id)
        then [Entry(streams[id].paycardId, streams[id].genesis + streams[id].lifespan)] else []
  }

  /** Tracks, for the streams listed so far. */
  ghost predicate TracksListed(q: seq<Entry>, ids: seq<string>, streams: map<string, Stream>) {
    && Sorted(q) && DistinctIds(q)
    && (forall e :: e in q ==> IsEntryOf(e, streams) && e.paycardId in ids)
    && (forall id :: id in ids && Expires(streams, id) ==> Lists(q, id))
  }

  lemma {:induction false} RebuildTracks(ids: seq<string>, streams: map<string, Stream>)
    requires NoDuplicates(ids) && forall id :: id in streams ==> streams[id].paycardId == id
    ensures TracksListed(Rebuild(ids, streams), ids, streams)
  {
    if ids != [] {
      var front, id := ids[..|ids| - 1], ids[|ids| - 1];
      RebuildTracks(front, streams);
      assert front + [id] == ids;
      if Expires(streams, id) {
        RebuildStep(front, id, streams);
        InsertListed(Rebuild(front, streams), front, id, streams);
      } else {
        RebuildSkip(front, id, streams);
        hide Rebuild, Sorted, DistinctIds;
      }
    }
  }

  lemma InsertListed(q: seq<Entry>, ids: seq<string>, id: string, streams: map<string, Stream>)
    requires TracksListed(q, ids, streams) && id !in ids && Expires(streams, id)
    ensures TracksListed(Inserted(q, Entry(id, streams[id].genesis + streams[id].lifespan)), ids + [id], streams)
  {
    var e := Entry(id, streams[id].genesis + streams[id].lifespan);
    var r := Inserted(q, e);
    InsertedInOrder(q, e);
    InsertedDistinct(q, e);
    hide Inserted, Sorted, DistinctIds;
    forall x | x in ids + [id] && Expires(streams, x) ensures Lists(r, x) {
      if x == id {
        assert e in r;
      } else {
        assert Lists(q, x);
      }
    }
  }

  lemma RebuildStep(front: seq<string>, id: string, streams: map<string, Stream>)
    requires Expires(streams, id)
    ensures Rebuild(front + [id], streams) ==
              Inserted(Rebuild(front, streams),
                       Entry(streams[id].paycardId, streams[id].genesis + streams[id].lifespan))
  {
    assert (front + [id])[..|front|] == front;
  }

  lemma RebuildSkip(front: seq<string>, id: string, streams: map<string, Stream>)
    requires !Expires(streams, id)
    ensures Rebuild(front + [id], streams) == Rebuild(front, streams)
  {
    assert (front + [id])[..|front|] == front;
  }

  lemma AllListed(q: seq<Entry>, ids: seq<string>, streams: map<string, Stream>)
    requires TracksListed(q, ids, streams) && forall id :: id in streams ==> id in ids
    ensures Tracks(q, streams)
  {
  }

  lemma {:induction false} RebuildSorted(ids: seq<string>, streams: map<string, Stream>)
    ensures Sorted(Rebuild(ids, streams))
  {
    if ids != [] {
      var front, id := ids[..|ids| - 1], ids[|ids| - 1];
      RebuildSorted(front, streams);
      if Expires(streams, id) {
        hide Inserted, Sorted;
        InsertedInOrder(Rebuild(front, streams),
                        Entry(streams[id].paycardId, streams[id].genesis + streams[id].lifespan));
      }
    }
  }

  lemma OrderStep(front: seq<string>, id: string, streams: map<string, Stream>)
    ensures RebuildOrder(front + [id], streams) == RebuildOrder(front, streams)
              + if Expires(streams, id)
                then [Entry(streams[id].paycardId, streams[id].genesis + streams[id].lifespan)] else []
  {
    assert (front + [id])[..|front|] == front;
  }

  /** The rebuilt queue keeps, at every instant, the order in which start() schedules. */
  lemma {:induction false} RebuildOrdered(ids: seq<string>, streams: map<string, Stream>, t: Time)
    ensures At(Rebuild(ids, streams), t) == At(RebuildOrder(ids, streams), t)
  {
    if ids != [] {
      var front, id := ids[..|ids| - 1], ids[|ids| - 1];
      RebuildOrdered(front, streams, t);
      RebuildSorted(front, streams);
      assert front + [id] == ids;
      OrderStep(front, id, streams);
      hide Rebuild, RebuildOrder, At, Sorted;
      if Expires(streams, id) {
        var e := Entry(streams[id].paycardId, streams[id].genesis + streams[id].lifespan);
        RebuildStep(front, id, streams);
        InsertedAt(Rebuild(front, streams), e, t);
        AtConcat(RebuildOrder(front, streams), [e], t);
        AtOne(e, t);
      } else {
        RebuildSkip(front, id, streams);
        assert RebuildOrder(front, streams) + [] == RebuildOrder(front, streams);
      }
    }
  }

  // ---- Over every run ----------------------------------------------------------------------------

  /** What has been scheduled since the process started, in order. */
  function Scheduled(durable: bool, run: seq<Event>): seq<Entry> {
    if run == [] then []
    else
      var earlier, e := run[..|run| - 1], run[|run| - 1];
      var s := Run(durable, earlier);
      if Enabled(s, e) && Dies(e) then
        var r := Next(s, e);
        RebuildOrder(r.ids, r.streams)
      else if Enabled(s, e) && e.Finish? then Scheduled(durable, earlier) + ScheduledBy(s.inflight[e.k])
      else Scheduled(durable, earlier)
  }

  function ScheduledBy(log: Log): seq<Entry> {
    if log.kind.Provisioned? && log.kind.lifespan > 0.0
    then [Entry(log.paycardId, log.kind.genesis + log.kind.lifespan)] else []
  }

  ghost predicate IsSuffix(a: seq<Entry>, b: seq<Entry>) {
    |a| <= |b| && a == b[|b| - |a|..]
  }

  /** Each Paycard is provisioned by one log. */
  ghost predicate ProvisionedOnce(run: seq<Event>) {
    forall a, b: Log ::
      Begin(a) in run && Begin(b) in run && a.kind.Provisioned? && b.kind.Provisioned? && a.paycardId == b.paycardId
      ==> a.key == b.key
  }

  ghost predicate Consistent(s: State) {
    Tracks(s.queue, s.streams) && Named(s.ids, s.streams)
  }

  ghost predicate InOrder(s: State, scheduled: seq<Entry>) {
    Sorted(s.queue) && forall t :: IsSuffix(At(s.queue, t), At(scheduled, t))
  }

  /** Handlers and effects come from logs that arrived. */
  lemma {:induction false} LogsArrived(durable: bool, run: seq<Event>, log: Log)
    requires log in Run(durable, run).inflight || log in Applied(durable, run)
    ensures Begin(log) in run
  {
    if run != [] {
      var earlier, e := run[..|run| - 1], run[|run| - 1];
      var s := Run(durable, earlier);
      assert forall x :: x in run <==> x in earlier || x == e;
      InflightGrows(s, e);
      hide Next;
      if log in s.inflight || log in Applied(durable, earlier) {
        LogsArrived(durable, earlier, log);
      }
    }
  }

  lemma InflightGrows(s: State, e: Event)
    ensures forall log :: log in Next(s, e).inflight ==> log in s.inflight || e == Begin(log)
  {
    hide Apply;
    forall k | 0 <= k < |s.inflight| ensures forall log :: log in Remove(s.inflight, k) ==> log in s.inflight {}
    if Enabled(s, e) && e.Finish? {
      ApplyKeepsKeys(Record(s, s.inflight[e.k].key), s.inflight[e.k], e.timestamp);
    }
  }

  lemma {:induction false} SeenIsProvisioned(applied: seq<Log>, id: string) returns (log: Log)
    requires Since(applied, id).Seen?
    ensures log in applied && log.kind.Provisioned? && log.paycardId == id
  {
    var last := applied[|applied| - 1];
    if last.paycardId == id && last.kind.Provisioned? {
      log := last;
    } else {
      log := SeenIsProvisioned(applied[..|applied| - 1], id);
    }
  }

  lemma TrackedIsApplied(durable: bool, run: seq<Event>, log: Log)
    requires ProvisionedOnce(run) && Begin(log) in run && log.kind.Provisioned?
    requires log.paycardId in Run(durable, run).streams
    ensures HasKey(Applied(durable, run), log.key)
  {
    BalanceFollowsLogs(durable, run, log.paycardId);
    hide Run, Applied, Follows;
    var first := SeenIsProvisioned(Applied(durable, run), log.paycardId);
    LogsArrived(durable, run, first);
    assert first.key == log.key;
  }

  /** A handler of a provisioning log finds its paycard untracked. */
  lemma ProvisionsFresh(durable: bool, run: seq<Event>, k: nat)
    requires ProvisionedOnce(run) && k < |Run(durable, run).inflight| && Run(durable, run).inflight[k].kind.Provisioned?
    ensures Run(durable, run).inflight[k].paycardId !in Run(durable, run).streams
  {
    var s := Run(durable, run);
    LogsArrived(durable, run, s.inflight[k]);
    RunDeduplicates(durable, run);
    hide Run, Applied;
    assert s.inflight[k] in s.inflight;
    if s.inflight[k].paycardId in s.streams {
      TrackedIsApplied(durable, run, s.inflight[k]);
    }
  }

  // ---- One event ---------------------------------------------------------------------------------

  lemma ApplyConsistent(s: State, log: Log, timestamp: Option<Time>)
    requires Consistent(s) && (log.kind.Provisioned? ==> log.paycardId !in s.streams)
    ensures Consistent(Apply(s, log, timestamp))
  {
    var id, r := log.paycardId, Apply(s, log, timestamp);
    if log.kind.Provisioned? {
      InsertTracks(s.queue, s.streams, id, NewStream(id, log.kind));
      NamedMore(s.ids, s.streams, id, NewStream(id, log.kind));
    } else if r != s {
      hide Tracks, Named;
      assert AppendId(s.ids, id) == s.ids by { NamedIds(s.ids, s.streams, id); }
      EvolvedTracks(s.queue, s.ids, s.streams, r.streams);
    }
  }

  lemma NamedIds(ids: seq<string>, streams: map<string, Stream>, id: string)
    requires Named(ids, streams) && id in streams
    ensures id in ids
  {
  }

  lemma NamedMore(ids: seq<string>, streams: map<string, Stream>, id: string, state: Stream)
    requires Named(ids, streams) && id !in streams && state.paycardId == id
    ensures Named(AppendId(ids, id), streams[id := state])
  {
  }

  lemma RestartConsistent(s: State)
    requires s.durable && Named(s.ids, s.streams)
    ensures Consistent(Restarted(s))
  {
    RebuildTracks(s.ids, s.streams);
    AllListed(Rebuild(s.ids, s.streams), s.ids, s.streams);
  }

  lemma EmptyConsistent(durable: bool)
    ensures Consistent(Initial(durable))
  {
  }

  lemma IdsListed(q: seq<Entry>)
    ensures forall e :: e in q ==> e.paycardId in Ids(q)
    ensures forall id :: id in Ids(q) ==> Lists(q, id)
  {
    forall e | e in q ensures e.paycardId in Ids(q) {
      var k :| 0 <= k < |q| && q[k] == e;
      assert Ids(q)[k] == e.paycardId;
    }
    forall id | id in Ids(q) ensures Lists(q, id) {
      var k :| 0 <= k < |q| && Ids(q)[k] == id;
      assert q[k] in q;
    }
  }

  lemma SweepConsistent(s: State, now: Time)
    requires Consistent(s)
    ensures Consistent(Swept(s, now))
  {
    var n := Due(s.queue, now);
    var due, rest := s.queue[..n], s.queue[n..];
    var flipped := FlipAll(s.streams, Ids(due));
    FlipEvolves(s.streams, Ids(due));
    EvolvedTracks(s.queue, s.ids, s.streams, flipped);
    assert s.queue == due + rest;
    IdsListed(due);
    forall id | Expires(flipped, id) ensures Lists(rest, id) {
      assert Lists(s.queue, id);
      var e :| e in s.queue && e.paycardId == id;
      assert e in due || e in rest;
    }
    hide FlipAll, Due;
    assert Sorted(rest) && DistinctIds(rest);
  }

  lemma NextConsistent(durable: bool, run: seq<Event>, e: Event)
    requires ProvisionedOnce(run) && Consistent(Run(durable, run)) && Run(durable, run).durable == durable
    ensures Consistent(Next(Run(durable, run), e))
  {
    var s := Run(durable, run);
    if Enabled(s, e) && e.Finish? {
      if s.inflight[e.k].kind.Provisioned? { ProvisionsFresh(durable, run, e.k); }
      hide Run, Apply, Consistent;
      ApplyConsistent(Record(s, s.inflight[e.k].key), s.inflight[e.k], e.timestamp);
    } else if Enabled(s, e) && Dies(e) {
      hide Run;
      DieConsistent(s, e);
    } else if e.Sweep? {
      hide Run, Swept;
      SweepConsistent(s, e.now);
    } else if e.Bind? && e.id in s.streams {
      hide Run, Tracks, Named;
      EvolvedTracks(s.queue, s.ids, s.streams, Next(s, e).streams);
    }
  }

  lemma DieConsistent(s: State, e: Event)
    requires Consistent(s) && Enabled(s, e) && Dies(e)
    ensures Consistent(Next(s, e))
  {
    EmptyConsistent(false);
    hide FlipAll, Tracks;
    if s.durable {
      match e
      case DieSweeping(now, n) =>
        var streams := FlipAll(s.streams, Ids(s.queue[..n]));
        FlipEvolves(s.streams, Ids(s.queue[..n]));
        EvolvedTracks(s.queue, s.ids, s.streams, streams);
        RestartConsistent(s.(streams := streams));
      case DieRecording(k) => RestartConsistent(Record(s, s.inflight[k].key));
      case Restart => RestartConsistent(s);
    }
  }

  lemma {:induction false} RunConsistent(durable: bool, run: seq<Event>)
    requires ProvisionedOnce(run)
    ensures Consistent(Run(durable, run)) && Run(durable, run).durable == durable
  {
    RunDeduplicates(durable, run);
    hide Deduplicated;
    if run == [] {
      EmptyConsistent(durable);
    } else {
      var earlier := run[..|run| - 1];
      assert forall e :: e in earlier ==> e in run;
      RunConsistent(durable, earlier);
      NextConsistent(durable, earlier, run[|run| - 1]);
      hide Next, Consistent;
    }
  }

  // ---- Ties --------------------------------------------------------------------------------------

  lemma ScheduleInOrder(queue: seq<Entry>, scheduled: seq<Entry>, log: Log, t: Time)
    requires Sorted(queue) && IsSuffix(At(queue, t), At(scheduled, t)) && log.kind.Provisioned?
    ensures Sorted(Scheduling(queue, log.paycardId, log.kind.genesis, log.kind.lifespan))
    ensures IsSuffix(At(Scheduling(queue, log.paycardId, log.kind.genesis, log.kind.lifespan), t),
                     At(scheduled + ScheduledBy(log), t))
  {
    hide At, Inserted, Sorted;
    if log.kind.lifespan > 0.0 {
      var e := Entry(log.paycardId, log.kind.genesis + log.kind.lifespan);
      InsertedInOrder(queue, e);
      InsertedAt(queue, e, t);
      AtConcat(scheduled, [e], t);
      AtOne(e, t);
    } else {
      assert scheduled + [] == scheduled;
    }
  }

  lemma ApplyInOrder(s: State, log: Log, timestamp: Option<Time>, scheduled: seq<Entry>)
    requires InOrder(s, scheduled)
    ensures InOrder(Apply(s, log, timestamp), scheduled + ScheduledBy(log))
  {
    var r := Apply(s, log, timestamp);
    if log.kind.Provisioned? {
      hide At, Sorted, Scheduling, IsSuffix;
      forall t
        ensures Sorted(r.queue) && IsSuffix(At(r.queue, t), At(scheduled + ScheduledBy(log), t))
      {
        ScheduleInOrder(s.queue, scheduled, log, t);
      }
      assert IsSuffix(At(r.queue, 0.0), At(scheduled + ScheduledBy(log), 0.0));
    } else {
      assert scheduled + [] == scheduled;
    }
  }

  lemma SweepInOrder(s: State, now: Time, scheduled: seq<Entry>)
    requires InOrder(s, scheduled)
    ensures InOrder(Swept(s, now), scheduled)
  {
    var r := Swept(s, now);
    SuffixSorted(s.queue, Due(s.queue, now));
    forall t ensures IsSuffix(At(r.queue, t), At(scheduled, t)) {
      SweptAt(s.queue, now, t);
    }
  }

  lemma RestartInOrder(s: State)
    ensures InOrder(Restarted(s), RebuildOrder(Restarted(s).ids, Restarted(s).streams))
  {
    var r := Restarted(s);
    if s.durable {
      RebuildSorted(s.ids, s.streams);
      forall t ensures IsSuffix(At(r.queue, t), At(RebuildOrder(r.ids, r.streams), t)) {
        RebuildOrdered(s.ids, s.streams, t);
      }
    }
  }

  lemma {:induction false} RunInOrder(durable: bool, run: seq<Event>)
    ensures InOrder(Run(durable, run), Scheduled(durable, run))
  {
    if run != [] {
      var earlier, e := run[..|run| - 1], run[|run| - 1];
      var s, scheduled := Run(durable, earlier), Scheduled(durable, earlier);
      RunInOrder(durable, earlier);
      hide InOrder, Apply, Restarted, Swept, RebuildOrder;
      if Enabled(s, e) {
        match e
        case Finish(k, timestamp) =>
          ApplyInOrder(Record(s, s.inflight[k].key), s.inflight[k], timestamp, scheduled) by {
            SameQueueInOrder(s, Record(s, s.inflight[k].key), scheduled);
          }
          SameQueueInOrder(Apply(Record(s, s.inflight[k].key), s.inflight[k], timestamp), Next(s, e),
                           scheduled + ScheduledBy(s.inflight[k]));
        case Sweep(now) => SweepInOrder(s, now, scheduled);
        case DieRecording(k) => RestartInOrder(Record(s, s.inflight[k].key));
        case DieSweeping(now, n) => RestartInOrder(s.(streams := FlipAll(s.streams, Ids(s.queue[..n]))));
        case Restart => RestartInOrder(s);
        case _ => SameQueueInOrder(s, Next(s, e), scheduled);
      }
    }
  }

  lemma SameQueueInOrder(s: State, r: State, scheduled: seq<Entry>)
    requires InOrder(s, scheduled) && r.queue == s.queue
    ensures InOrder(r, scheduled)
  {
  }

  // ---- The sweep ---------------------------------------------------------------------------------

  /** The streams a sweep flips, in the order in which it does. */
  function FlippedBy(streams: map<string, Stream>, due: seq<Entry>): seq<Entry> {
    if due == [] then []
    else
      var e := due[|due| - 1];
      FlippedBy(streams, due[..|due| - 1])
      + if e.paycardId in streams && streams[e.paycardId].status == Active then [e] else []
  }

  lemma {:induction false} FlippedAre(streams: map<string, Stream>, due: seq<Entry>)
    ensures forall e :: e in FlippedBy(streams, due) <==>
              e in due && e.paycardId in streams && streams[e.paycardId].status == Active
  {
    if due != [] {
      var front, e := due[..|due| - 1], due[|due| - 1];
      FlippedAre(streams, front);
      assert forall x :: x in due <==> x in front || x == e;
    }
  }

  lemma {:induction false} FlippedFrom(streams: map<string, Stream>, due: seq<Entry>)
    requires Sorted(due) && DistinctIds(due)
    ensures var flipped := FlippedBy(streams, due);
            && Sorted(flipped) && DistinctIds(flipped)
            && (forall e :: e in flipped <==>
                  e in due && e.paycardId in streams && streams[e.paycardId].status == Active)
  {
    FlippedAre(streams, due);
    if due != [] {
      var front, e := due[..|due| - 1], due[|due| - 1];
      FlippedFrom(streams, front);
      var flipped := FlippedBy(streams, front);
      forall i | 0 <= i < |flipped|
        ensures flipped[i].expiresAt <= e.expiresAt && flipped[i].paycardId != e.paycardId
      {
        assert flipped[i] in front;
        var k :| 0 <= k < |front| && front[k] == flipped[i];
      }
    }
  }

  lemma DueEntries(q: seq<Entry>, now: Time)
    requires Sorted(q) && DistinctIds(q)
    ensures var due := q[..Due(q, now)];
            Sorted(due) && DistinctIds(due) && forall e :: e in due <==> e in q && e.expiresAt <= now
  {
    DueSplits(q, now);
    var n := Due(q, now);
    forall e | e in q && e.expiresAt <= now ensures e in q[..n] {
      var k :| 0 <= k < |q| && q[k] == e;
      assert q[..n][k] == e;
    }
  }

  /**
   * In every run that provisions each Paycard once, restarts included, a sweep flips exactly the streams of positive
   * lifespan that a scan for expired ones finds, each once and in expiry order, and touches nothing else. What it
   * takes for one instant it takes in the order in which it was scheduled.
   */
  lemma SweepMatchesScan(durable: bool, run: seq<Event>, now: Time)
    requires ProvisionedOnce(run)
    ensures var s := Run(durable, run);
            var due := s.queue[..Due(s.queue, now)];
            var flipped, after := FlippedBy(s.streams, due), Swept(s, now).streams;
            && Sorted(flipped) && DistinctIds(flipped)
            && (forall id :: Lists(flipped, id) <==>
                  id in s.streams && IsExpired(now)(s.streams[id]) && s.streams[id].lifespan > 0.0)
            && after.Keys == s.streams.Keys
            && (forall id :: id in after ==>
                  after[id] == if Lists(flipped, id) then s.streams[id].(status := PendingSettlement)
                               else s.streams[id])
            && (forall t :: t <= now ==> IsSuffix(At(due, t), At(Scheduled(durable, run), t)))
  {
    var s := Run(durable, run);
    var due := s.queue[..Due(s.queue, now)];
    RunConsistent(durable, run);
    RunInOrder(durable, run);
    hide Run, Scheduled;
    DueEntries(s.queue, now);
    FlippedFrom(s.streams, due);
    FlipEvolves(s.streams, Ids(due));
    IdsListed(due);
    forall t | t <= now ensures IsSuffix(At(due, t), At(Scheduled(durable, run), t)) {
      SweptAt(s.queue, now, t);
    }
    hide Due, FlipAll, At, FlippedBy, Sorted, DistinctIds, Ids;
    var flipped := FlippedBy(s.streams, due);
    forall id
      ensures Lists(flipped, id) <==>
                id in s.streams && IsExpired(now)(s.streams[id]) && s.streams[id].lifespan > 0.0
      ensures Lists(flipped, id) <==> Lists(due, id) && id in s.streams && s.streams[id].status == Active
    {
      if Expires(s.streams, id) { assert Lists(s.queue, id); }
    }
  }

  /** After a sweep no stream of positive lifespan is left that has expired and is still active. */
  lemma SweepLeavesNoneBehind(durable: bool, run: seq<Event>, now: Time, id: string)
    requires ProvisionedOnce(run)
    ensures var after := Swept(Run(durable, run), now).streams;
            id in after && after[id].lifespan > 0.0 ==> !IsExpired(now)(after[id])
  {
    SweepMatchesScan(durable, run, now);
    hide Run, Swept, Lists;
  }
}
