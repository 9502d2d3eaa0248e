// The stream gateway's projection (stream-gateway/index.ts): logs handled concurrently, cut at the await of the
// block, with failed lookups, crashes and restarts.
module Gateway {
  import opened Prelude
  import opened TerminationQueue
  import opened StateStore

  datatype Kind = Provisioned(allocation: nat, velocity: nat, genesis: Time, lifespan: Time, metadataHash: string)
                | Flushed(withdrawn: nat) | Reclaimed | Other

  /** A parsed log; key is its transaction hash and log index. */
  datatype Log = Log(key: string, paycardId: string, kind: Kind)

  /**
   * The gateway over a durable or an in-memory store: the keys handled by this process, the keys of recorded events
   * (durable stores only), the handlers awaiting their block, the stored streams and the termination queue.
   */
  datatype State = State(durable: bool, processed: set<string>, recorded: set<string>, inflight: seq<Log>,
                         ids: seq<string>, streams: map<string, Stream>, queue: seq<Entry>)

  /**
   * A log arrives, live or by backfill; a handler's block lookup fails or succeeds; the process dies after recording
   * an event, part way through a sweep or at any other time, and starts again; a tick sweeps; metadata is bound.
   */
  datatype Event = Begin(log: Log) | Fail(k: nat) | Finish(k: nat, timestamp: Option<Time>) | DieRecording(k: nat)
                 | DieSweeping(now: Time, n: nat) | Restart | Sweep(now: Time) | Bind(id: string, workflowId: string)

  function Initial(durable: bool): State {
    State(durable, {}, {}, [], [], map[], [])
  }

  predicate Enabled(s: State, e: Event) {
    match e
    case Fail(k) => k < |s.inflight|
    case Finish(k, _) => k < |s.inflight|
    case DieRecording(k) => k < |s.inflight|
    case DieSweeping(now, n) => n <= Due(s.queue, now)
    case _ => true
  }

  // ---- Handlers ----------------------------------------------------------------------------------

  function NewStream(id: string, k: Kind): Stream
    requires k.Provisioned?
  {
    Stream(id, k.metadataHash, "", k.allocation, k.allocation, k.velocity, k.genesis, k.lifespan, k.genesis, Active)
  }

  function Flush(s: Stream, withdrawn: nat, timestamp: Option<Time>): Stream {
    s.(balance := if s.balance > withdrawn then s.balance - withdrawn else 0,
       lastCheckpoint := if timestamp.Some? then timestamp.value else s.lastCheckpoint,
       status := if s.balance > withdrawn then s.status else Terminated)
  }

  function Put(s: State, id: string, state: Stream): State {
    s.(ids := AppendId(s.ids, id), streams := s.streams[id := state])
  }

  function Scheduling(queue: seq<Entry>, id: string, genesis: Time, lifespan: Time): seq<Entry> {
    if lifespan > 0.0 then Inserted(queue, Entry(id, genesis + lifespan)) else queue
  }

  function Apply(s: State, log: Log, timestamp: Option<Time>): State {
    var id := log.paycardId;
    match log.kind
    case Provisioned(_, _, genesis, lifespan, _) =>
      Put(s, id, NewStream(id, log.kind)).(queue := Scheduling(s.queue, id, genesis, lifespan))
    case Flushed(withdrawn) => if id in s.streams then Put(s, id, Flush(s.streams[id], withdrawn, timestamp)) else s
    case Reclaimed =>
      if id in s.streams then Put(s, id, s.streams[id].(balance := 0, status := Terminated)) else s
    case Other => s
  }

  function Remove(inflight: seq<Log>, k: nat): seq<Log>
    requires k < |inflight|
  {
    inflight[..k] + inflight[k + 1..]
  }

  /** recordEvent, on a durable store. */
  function Record(s: State, key: string): State {
    if s.durable then s.(recorded := s.recorded + {key}) else s
  }

  /** The stream, pending settlement if it was active. */
  function Flip(streams: map<string, Stream>, id: string): map<string, Stream> {
    if id in streams && streams[id].status == Active then streams[id := streams[id].(status := PendingSettlement)]
    else streams
  }

  function FlipAll(streams: map<string, Stream>, ids: seq<string>): map<string, Stream> {
    if ids == [] then streams else Flip(FlipAll(streams, ids[..|ids| - 1]), ids[|ids| - 1])
  }

  /** The queue that start() builds from the active streams of the store. */
  function Rebuild(ids: seq<string>, streams: map<string, Stream>): seq<Entry> {
    if ids == [] then []
    else
      var earlier, id := Rebuild(ids[..|ids| - 1], streams), ids[|ids| - 1];
      if id in streams && streams[id].status == Active
      then Scheduling(earlier, streams[id].paycardId, streams[id].genesis, streams[id].lifespan)
      else earlier
  }

  /** A new process on the same store; an in-memory store is gone with the old one. */
  function Restarted(s: State): State {
    if s.durable then s.(processed := {}, inflight := [], queue := Rebuild(s.ids, s.streams)) else Initial(false)
  }

  function Begun(s: State, log: Log): State {
    if log.key in s.processed then s
    else if s.durable && log.key in s.recorded then s.(processed := s.processed + {log.key})
    else s.(processed := s.processed + {log.key}, inflight := s.inflight + [log])
  }

  function Swept(s: State, now: Time): State {
    var n := Due(s.queue, now);
    s.(queue := s.queue[n..], streams := FlipAll(s.streams, Ids(s.queue[..n])))
  }

  function Bound(s: State, id: string, workflowId: string): State {
    if id in s.streams then s.(streams := s.streams[id := s.streams[id].(workflowId := workflowId)]) else s
  }

  function Finished(s: State, k: nat, timestamp: Option<Time>): State
    requires k < |s.inflight|
  {
    Apply(Record(s, s.inflight[k].key), s.inflight[k], timestamp).(inflight := Remove(s.inflight, k))
  }

  function Next(s: State, e: Event): State {
    if !Enabled(s, e) then s
    else
      match e
      case Begin(log) => Begun(s, log)
      case Fail(k) => s.(inflight := Remove(s.inflight, k))
      case Finish(k, timestamp) => Finished(s, k, timestamp)
      case DieRecording(k) => Restarted(Record(s, s.inflight[k].key))
      case DieSweeping(now, n) => Restarted(s.(streams := FlipAll(s.streams, Ids(s.queue[..n]))))
      case Restart => Restarted(s)
      case Sweep(now) => Swept(s, now)
      case Bind(id, workflowId) => Bound(s, id, workflowId)
  }

  function Run(durable: bool, run: seq<Event>): State {
    if run == [] then Initial(durable) else Next(Run(durable, run[..|run| - 1]), run[|run| - 1])
  }

  predicate Dies(e: Event) {
    e.Restart? || e.DieRecording? || e.DieSweeping?
  }

  /** The logs that have taken effect on the stored streams, in the order in which they did. */
  function Applied(durable: bool, run: seq<Event>): seq<Log> {
    if run == [] then []
    else
      var earlier, e := run[..|run| - 1], run[|run| - 1];
      var s := Run(durable, earlier);
      if Enabled(s, e) && e.Finish? then Applied(durable, earlier) + [s.inflight[e.k]]
      else if Enabled(s, e) && Dies(e) && !durable then []
      else Applied(durable, earlier)
  }

  // ---- Each log at most once ---------------------------------------------------------------------

  ghost predicate UniqueKeys(logs: seq<Log>) {
    forall i, j :: 0 <= i < j < |logs| ==> logs[i].key != logs[j].key
  }

  ghost predicate HasKey(logs: seq<Log>, key: string) {
    exists i :: 0 <= i < |logs| && logs[i].key == key
  }

  ghost predicate Deduplicated(s: State, applied: seq<Log>) {
    && UniqueKeys(s.inflight) && UniqueKeys(applied)
    && (forall log :: log in s.inflight ==> log.key in s.processed && !HasKey(applied, log.key))
    && (forall log :: log in applied ==> log.key in if s.durable then s.recorded else s.processed)
  }

  lemma RemoveKeeps(logs: seq<Log>, k: nat)
    requires k < |logs| && UniqueKeys(logs)
    ensures UniqueKeys(Remove(logs, k))
    ensures forall log :: log in Remove(logs, k) ==> log in logs && log.key != logs[k].key
  {
    var r := Remove(logs, k);
    forall i | 0 <= i < |r| ensures r[i] == logs[if i < k then i else i + 1] {}
  }

  lemma FinishDeduplicates(s: State, applied: seq<Log>, k: nat, timestamp: Option<Time>)
    requires Deduplicated(s, applied) && k < |s.inflight|
    ensures Deduplicated(Finished(s, k, timestamp), applied + [s.inflight[k]])
  {
    var log, r := s.inflight[k], Finished(s, k, timestamp);
    RemoveKeeps(s.inflight, k);
    ApplyKeepsKeys(Record(s, log.key), log, timestamp);
    hide Apply, Remove;
    assert log in s.inflight && !HasKey(applied, log.key);
    var more := applied + [log];
    forall x | x in r.inflight ensures x.key in r.processed && !HasKey(more, x.key) {
      assert x in s.inflight && !HasKey(applied, x.key);
    }
    forall i, j | 0 <= i < j < |more| ensures more[i].key != more[j].key {
      if j == |applied| { assert applied[i].key != log.key; }
    }
  }

  lemma ApplyKeepsKeys(s: State, log: Log, timestamp: Option<Time>)
    ensures var r := Apply(s, log, timestamp);
            r.processed == s.processed && r.recorded == s.recorded && r.durable == s.durable && r.inflight == s.inflight
  {
  }

  lemma BeginDeduplicates(s: State, applied: seq<Log>, log: Log)
    requires Deduplicated(s, applied)
    ensures Deduplicated(Begun(s, log), applied)
  {
    var r := Begun(s, log);
    if r.inflight != s.inflight {
      assert forall x :: x in applied ==> x.key != log.key;
      forall i | 0 <= i < |s.inflight| ensures s.inflight[i].key != log.key {
        assert s.inflight[i] in s.inflight;
      }
      forall x | x in r.inflight ensures x.key in r.processed && !HasKey(applied, x.key) {
        assert x in s.inflight || x == log;
      }
    }
  }

  lemma FailDeduplicates(s: State, applied: seq<Log>, k: nat)
    requires Deduplicated(s, applied) && k < |s.inflight|
    ensures Deduplicated(s.(inflight := Remove(s.inflight, k)), applied)
  {
    RemoveKeeps(s.inflight, k);
    hide Remove;
  }

  lemma RestartDeduplicates(s: State, applied: seq<Log>)
    requires Deduplicated(s, applied)
    ensures Deduplicated(Restarted(s), if s.durable then applied else [])
  {
  }

  lemma {:induction false} RunDeduplicates(durable: bool, run: seq<Event>)
    ensures Deduplicated(Run(durable, run), Applied(durable, run)) && Run(durable, run).durable == durable
  {
    if run != [] {
      var earlier, e := run[..|run| - 1], run[|run| - 1];
      var s, applied := Run(durable, earlier), Applied(durable, earlier);
      RunDeduplicates(durable, earlier);
      hide Finished, Begun, Restarted, Swept, Bound, Remove;
      if Enabled(s, e) {
        match e
        case Begin(log) => BeginDeduplicates(s, applied, log); SameSettings(s, log);
        case Fail(k) => FailDeduplicates(s, applied, k);
        case Finish(k, timestamp) =>
          FinishDeduplicates(s, applied, k, timestamp);
          FinishSettings(s, k, timestamp);
        case DieRecording(k) =>
          RestartDeduplicates(Record(s, s.inflight[k].key), applied);
          RestartSettings(Record(s, s.inflight[k].key));
        case DieSweeping(now, n) =>
          RestartDeduplicates(s.(streams := FlipAll(s.streams, Ids(s.queue[..n]))), applied);
          RestartSettings(s.(streams := FlipAll(s.streams, Ids(s.queue[..n]))));
        case Restart => RestartDeduplicates(s, applied); RestartSettings(s);
        case Sweep(now) => SweepSettings(s, now);
        case Bind(id, workflowId) => BindSettings(s, id, workflowId);
      }
    }
  }

  lemma SameSettings(s: State, log: Log)
    ensures Begun(s, log).durable == s.durable
  {
  }

  lemma FinishSettings(s: State, k: nat, timestamp: Option<Time>)
    requires k < |s.inflight|
    ensures Finished(s, k, timestamp).durable == s.durable
  {
  }

  lemma RestartSettings(s: State)
    ensures Restarted(s).durable == s.durable
  {
  }

  lemma SweepSettings(s: State, now: Time)
    ensures var r := Swept(s, now);
            r.durable == s.durable && r.processed == s.processed && r.recorded == s.recorded && r.inflight == s.inflight
  {
  }

  lemma BindSettings(s: State, id: string, workflowId: string)
    ensures var r := Bound(s, id, workflowId);
            r.durable == s.durable && r.processed == s.processed && r.recorded == s.recorded && r.inflight == s.inflight
  {
  }

  /** However handlers interleave and however often logs are delivered, each log takes effect at most once. */
  lemma EachLogAtMostOnce(durable: bool, run: seq<Event>)
    ensures UniqueKeys(Applied(durable, run))
  {
    RunDeduplicates(durable, run);
  }

  // ---- Logs delivered again ----------------------------------------------------------------------

  lemma OneMore(durable: bool, run: seq<Event>, e: Event)
    ensures Run(durable, run + [e]) == Next(Run(durable, run), e)
    ensures var s := Run(durable, run);
            Applied(durable, run + [e])
            == if Enabled(s, e) && e.Finish? then Applied(durable, run) + [s.inflight[e.k]]
               else if Enabled(s, e) && Dies(e) && !durable then []
               else Applied(durable, run)
  {
    assert (run + [e])[..|run|] == run;
  }

  /**
   * After a restart a log delivered again takes effect exactly when its event had not been recorded in a durable
   * store; whatever was still awaited, or had failed, when the process died is not lost.
   */
  lemma RedeliveredAfterRestart(durable: bool, run: seq<Event>, log: Log, timestamp: Option<Time>)
    ensures var s := Run(durable, run);
            Applied(durable, run + [Restart] + [Begin(log)] + [Finish(0, timestamp)])
            == (if durable then Applied(durable, run) else [])
               + (if durable && log.key in s.recorded then [] else [log])
  {
    RunDeduplicates(durable, run);
    hide Run, Applied, Apply, Rebuild, Deduplicated;
    OneMore(durable, run, Restart);
    OneMore(durable, run + [Restart], Begin(log));
    OneMore(durable, run + [Restart] + [Begin(log)], Finish(0, timestamp));
    assert (if durable then Applied(durable, run) else []) + [] == if durable then Applied(durable, run) else [];
  }

  lemma FailedAgain(s: State, log: Log)
    ensures var f := Next(Next(s, Begin(log)), Fail(|s.inflight|));
            f.streams == s.streams && Next(f, Begin(log)) == f
  {
    assert Remove(s.inflight + [log], |s.inflight|) == s.inflight;
  }

  /** A log whose block lookup fails is not handled again before the process restarts. */
  lemma FailedLookupIsDropped(durable: bool, run: seq<Event>, log: Log)
    ensures var s := Run(durable, run);
            var failed := run + [Begin(log)] + [Fail(|s.inflight|)];
            && Run(durable, failed + [Begin(log)]) == Run(durable, failed)
            && Run(durable, failed).streams == s.streams
            && Applied(durable, failed + [Begin(log)]) == Applied(durable, run)
  {
    var s := Run(durable, run);
    var failed := run + [Begin(log)] + [Fail(|s.inflight|)];
    hide Run, Applied, Next;
    FailedAgain(s, log);
    OneMore(durable, run, Begin(log));
    OneMore(durable, run + [Begin(log)], Fail(|s.inflight|));
    OneMore(durable, failed, Begin(log));
  }
}
