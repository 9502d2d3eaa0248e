// The gateway object: its store, its queue and its handlers updated in place, against the states of module Gateway.
module StreamGateway {
  import opened Prelude
  import opened TerminationQueue
  import opened StateStore
  import Gateway

  /** Rescheduling a list of active streams, in order. */
  function ScheduleEach(queue: seq<Entry>, active: seq<Stream>): seq<Entry> {
    if active == [] then queue
    else
      var s := active[|active| - 1];
      Gateway.Scheduling(ScheduleEach(queue, active[..|active| - 1]), s.paycardId, s.genesis, s.lifespan)
  }

  lemma {:induction false} RebuildFromActive(ids: seq<string>, streams: map<string, Stream>)
    ensures Gateway.Rebuild(ids, streams) == ScheduleEach([], Scan(ids, streams, IsActive()))
  {
    if ids != [] {
      var id := ids[|ids| - 1];
      RebuildFromActive(ids[..|ids| - 1], streams);
      var earlier, active := Scan(ids[..|ids| - 1], streams, IsActive()), Scan(ids, streams, IsActive());
      if id in streams && streams[id].status == Active {
        assert active == earlier + [streams[id]] && active[..|active| - 1] == earlier;
      } else {
        assert active == earlier + [] == earlier;
      }
    }
  }

  method RescheduleActive(store: MemoryStateStore) returns (queue: StreamTerminationQueue)
    requires store.Valid()
    ensures fresh(queue) && queue.Valid() && queue.queue == Gateway.Rebuild(store.ids, store.streams)
  {
    hide Indexes, Scan, ScheduleEach;
    RebuildFromActive(store.ids, store.streams);
    queue := new StreamTerminationQueue();
    var active := store.GetActive();
    ScheduleStreams(queue, active);
  }

  method ScheduleStreams(queue: StreamTerminationQueue, active: seq<Stream>)
    requires queue.Valid() && queue.queue == []
    modifies queue
    ensures queue.Valid() && queue.queue == ScheduleEach([], active)
  {
    hide Inserted;
    for i := 0 to |active|
      invariant queue.Valid() && queue.queue == ScheduleEach([], active[..i])
    {
      assert active[..i + 1][..i] == active[..i];
      if active[i].lifespan > 0.0 {
        queue.Schedule(active[i].paycardId, active[i].genesis + active[i].lifespan);
      }
    }
    assert active[..|active|] == active;
  }

  class Projection {
    const durable: bool
    const store: MemoryStateStore
    const queue: StreamTerminationQueue
    var processedLogKeys: set<string>
    var eventKeys: set<string>
    var inflight: seq<Gateway.Log>

    ghost predicate Valid()
      reads this, store, queue
    {
      store.Valid() && queue.Valid()
    }

    ghost function Snapshot(): Gateway.State
      reads this, store, queue
    {
      Gateway.State(durable, processedLogKeys, eventKeys, inflight, store.ids, store.streams, queue.queue)
    }

    /** start(): the queue is rebuilt from what the store holds as active. */
    constructor (durable: bool, store: MemoryStateStore, eventKeys: set<string>)
      requires store.Valid()
      ensures Valid() && this.store == store && this.durable == durable && fresh(queue)
      ensures store.ids == old(store.ids) && store.streams == old(store.streams)
      ensures Snapshot() == Gateway.State(durable, {}, eventKeys, [], store.ids, store.streams,
                                          Gateway.Rebuild(store.ids, store.streams))
    {
      this.durable, this.store, this.eventKeys := durable, store, eventKeys;
      processedLogKeys, inflight := {}, [];
      var rescheduled := RescheduleActive(store);
      queue := rescheduled;
    }

    /** handleLog, up to the await of the block. */
    method HandleLog(log: Gateway.Log)
      requires Valid()
      modifies this
      ensures Valid() && Snapshot() == Gateway.Begun(old(Snapshot()), log)
    {
      if log.key in processedLogKeys {
        return;
      }
      if durable && log.key in eventKeys {
        processedLogKeys := processedLogKeys + {log.key};
        return;
      }
      processedLogKeys := processedLogKeys + {log.key};
      inflight := inflight + [log];
    }

    /** The rest of handleLog, once the block has arrived. */
    method Resume(k: nat, timestamp: Option<Time>)
      requires Valid() && k < |inflight|
      modifies this, store, queue
      ensures Valid() && Snapshot() == Gateway.Finished(old(Snapshot()), k, timestamp)
    {
      var log := inflight[k];
      inflight := inflight[..k] + inflight[k + 1..];
      if durable {
        eventKeys := eventKeys + {log.key};
      }
      match log.kind
      case Provisioned(_, _, _, _, _) => OnPaycardProvisioned(log);
      case Flushed(_) => OnSettlementFlushed(log, timestamp);
      case Reclaimed => OnResidualDeltaReclaimed(log);
      case Other =>
    }

    method OnPaycardProvisioned(log: Gateway.Log)
      requires Valid() && log.kind.Provisioned?
      modifies store, queue
      ensures Valid() && Snapshot() == Gateway.Apply(old(Snapshot()), log, None)
    {
      var id, args := log.paycardId, log.kind;
      store.Set(id, Stream(id, args.metadataHash, "", args.allocation, args.allocation, args.velocity, args.genesis,
                           args.lifespan, args.genesis, Active));
      if args.lifespan > 0.0 {
        queue.Schedule(id, args.genesis + args.lifespan);
      }
    }

    method OnSettlementFlushed(log: Gateway.Log, timestamp: Option<Time>)
      requires Valid() && log.kind.Flushed?
      modifies store
      ensures Valid() && Snapshot() == Gateway.Apply(old(Snapshot()), log, timestamp)
    {
      if log.paycardId !in store.streams {
        return;
      }
      var existing := store.streams[log.paycardId];
      var remaining := existing.balance - log.kind.withdrawn;
      existing := existing.(balance := if remaining > 0 then remaining else 0);
      if timestamp.Some? {
        existing := existing.(lastCheckpoint := timestamp.value);
      }
      if remaining <= 0 {
        existing := existing.(status := Terminated);
      }
      store.Set(log.paycardId, existing);
    }

    method OnResidualDeltaReclaimed(log: Gateway.Log)
      requires Valid() && log.kind.Reclaimed?
      modifies store
      ensures Valid() && Snapshot() == Gateway.Apply(old(Snapshot()), log, None)
    {
      if log.paycardId in store.streams {
        store.Set(log.paycardId, store.streams[log.paycardId].(balance := 0, status := Terminated));
      }
    }

    /** sweepExpired, without the notifications. */
    method SweepExpired(nowSec: Time)
      requires Valid()
      modifies store, queue
      ensures Valid() && store.ids == old(store.ids)
      ensures Snapshot() == Gateway.Swept(old(Snapshot()), nowSec)
    {
      ghost var before, ids := store.streams, store.ids;
      var expired := queue.CheckExpired(nowSec);
      ghost var rest := queue.queue;
      for i := 0 to |expired|
        invariant store.Valid() && store.ids == ids && queue.Valid()
        invariant store.streams == Gateway.FlipAll(before, expired[..i])
        invariant queue.queue == rest
      {
        assert expired[..i + 1][..i] == expired[..i];
        var id := expired[i];
        if id in store.streams && store.streams[id].status == Active {
          store.Set(id, store.streams[id].(status := PendingSettlement));
        }
      }
      assert expired[..|expired|] == expired;
    }

    method BindVerifiedMetadata(id: string, workflowId: string)
      requires Valid()
      modifies store
      ensures Valid() && Snapshot() == Gateway.Bound(old(Snapshot()), id, workflowId)
    {
      var _ := store.BindWorkflow(id, workflowId);
    }
  }
}
