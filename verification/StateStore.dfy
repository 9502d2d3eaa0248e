// MemoryCacheStateStore (stream-gateway/state-store.ts): streams by id, with a secondary index by workflow.
module StateStore {
  import opened Prelude
  import opened TerminationQueue

  datatype Status = Active | PendingSettlement | Terminated

  /** A paycard's projected state; an empty workflowId is an absent one. Amounts are base units. */
  datatype Stream = Stream(paycardId: string, metadataHash: string, workflowId: string, allocation: nat, balance: nat,
                           velocity: nat, genesis: Time, lifespan: Time, lastCheckpoint: Time, status: Status)

  /** Map.prototype.set keeps the position of a key it already has. */
  function AppendId(ids: seq<string>, id: string): seq<string> {
    if id in ids then ids else ids + [id]
  }

  function Without(ids: seq<string>, id: string): (r: seq<string>)
    ensures forall x :: x in r <==> x in ids && x != id
  {
    if ids == [] then []
    else
      var rest := Without(ids[1..], id);
      if ids[0] == id then rest else [ids[0]] + rest
  }

  lemma {:induction false} WithoutUnique(ids: seq<string>, id: string)
    requires NoDuplicates(ids)
    ensures NoDuplicates(Without(ids, id))
  {
    if ids != [] {
      WithoutUnique(ids[1..], id);
      var rest := Without(ids[1..], id);
      forall j | 0 <= j < |rest| ensures rest[j] != ids[0] {
        assert rest[j] in ids[1..];
      }
    }
  }

  /** The stored streams that satisfy keep, in insertion order. */
  function Scan(ids: seq<string>, streams: map<string, Stream>, keep: Stream -> bool): seq<Stream> {
    if ids == [] then []
    else
      var id := ids[|ids| - 1];
      Scan(ids[..|ids| - 1], streams, keep) + if id in streams && keep(streams[id]) then [streams[id]] else []
  }

  function BoundTo(workflowId: string): Stream -> bool {
    (s: Stream) => s.workflowId == workflowId
  }

  function IsActive(): Stream -> bool {
    (s: Stream) => s.status == Active
  }

  function IsExpired(now: Time): Stream -> bool {
    (s: Stream) => s.status == Active && now >= s.genesis + s.lifespan
  }

  /** The index lists, once each, exactly the streams bound to each workflow. */
  ghost predicate Indexes(index: map<string, seq<string>>, streams: map<string, Stream>) {
    && (forall w :: w in index ==>
          && w != "" && NoDuplicates(index[w])
          && forall id :: id in index[w] <==> id in streams && streams[id].workflowId == w)
    && (forall id :: id in streams && streams[id].workflowId != "" ==> streams[id].workflowId in index)
  }

  // ---- A listing without repeats against a scan --------------------------------------------------

  function Lookup(ids: seq<string>, streams: map<string, Stream>): seq<Stream>
    requires forall id :: id in ids ==> id in streams
  {
    if ids == [] then [] else Lookup(ids[..|ids| - 1], streams) + [streams[ids[|ids| - 1]]]
  }

  /** The ids that a scan keeps. */
  function Kept(ids: seq<string>, streams: map<string, Stream>, keep: Stream -> bool): (r: seq<string>)
    ensures forall id :: id in r <==> id in ids && id in streams && keep(streams[id])
    ensures NoDuplicates(ids) ==> NoDuplicates(r)
  {
    if ids == [] then []
    else
      var id := ids[|ids| - 1];
      Kept(ids[..|ids| - 1], streams, keep) + if id in streams && keep(streams[id]) then [id] else []
  }

  lemma {:induction false} ScanIsLookup(ids: seq<string>, streams: map<string, Stream>, keep: Stream -> bool)
    ensures Scan(ids, streams, keep) == Lookup(Kept(ids, streams, keep), streams)
  {
    if ids != [] {
      var last := ids[|ids| - 1];
      ScanIsLookup(ids[..|ids| - 1], streams, keep);
      var earlier, kept := Kept(ids[..|ids| - 1], streams, keep), Kept(ids, streams, keep);
      if last in streams && keep(streams[last]) {
        assert kept == earlier + [last] && kept[..|kept| - 1] == earlier;
      } else {
        assert kept == earlier + [] == earlier;
      }
    }
  }

  lemma {:induction false} LookupSplit(a: seq<string>, b: seq<string>, streams: map<string, Stream>)
    requires forall id :: id in a || id in b ==> id in streams
    ensures Lookup(a + b, streams) == Lookup(a, streams) + Lookup(b, streams)
  {
    if b == [] {
      assert a + b == a;
    } else {
      assert (a + b)[..|a + b| - 1] == a + b[..|b| - 1];
      LookupSplit(a, b[..|b| - 1], streams);
    }
  }

  ghost predicate SameIds(a: seq<string>, b: seq<string>) {
    forall id :: id in a <==> id in b
  }

  lemma LookupRemove(b: seq<string>, k: nat, streams: map<string, Stream>)
    requires k < |b| && forall id :: id in b ==> id in streams
    ensures forall x :: x in b <==> x in b[..k] + b[k + 1..] || x == b[k]
    ensures multiset(Lookup(b, streams)) == multiset(Lookup(b[..k] + b[k + 1..], streams)) + multiset{streams[b[k]]}
  {
    var left, right := b[..k], b[k + 1..];
    assert b == (left + [b[k]]) + right;
    assert (left + [b[k]])[..k] == left;
    assert Lookup(left + [b[k]], streams) == Lookup(left, streams) + [streams[b[k]]];
    hide Lookup;
    LookupSplit(left + [b[k]], right, streams);
    LookupSplit(left, right, streams);
  }

  /** Listings of the same ids without repeats hold the same streams, each as often. */
  lemma {:induction false} LookupPermuted(a: seq<string>, b: seq<string>, streams: map<string, Stream>)
    requires NoDuplicates(a) && NoDuplicates(b)
    requires forall id :: id in a ==> id in streams
    requires SameIds(a, b)
    ensures multiset(Lookup(a, streams)) == multiset(Lookup(b, streams))
  {
    assert b != [] ==> b[0] in b;
    if a != [] {
      var id, front := a[|a| - 1], a[..|a| - 1];
      assert id in a;
      var k :| 0 <= k < |b| && b[k] == id;
      LookupRemove(b, k, streams);
      hide Lookup;
      SameWithout(a, b, k);
      LookupPermuted(front, b[..k] + b[k + 1..], streams);
      LookupLast(a, streams);
    }
  }

  lemma LookupLast(a: seq<string>, streams: map<string, Stream>)
    requires a != [] && forall id :: id in a ==> id in streams
    ensures multiset(Lookup(a, streams)) ==
              multiset(Lookup(a[..|a| - 1], streams)) + multiset{streams[a[|a| - 1]]}
  {
  }

  lemma SameWithout(a: seq<string>, b: seq<string>, k: nat)
    requires NoDuplicates(a) && NoDuplicates(b) && a != [] && k < |b| && b[k] == a[|a| - 1]
    requires SameIds(a, b)
    ensures NoDuplicates(b[..k] + b[k + 1..])
    ensures SameIds(a[..|a| - 1], b[..k] + b[k + 1..])
  {
    var rest := b[..k] + b[k + 1..];
    forall id ensures id in a[..|a| - 1] <==> id in rest {
      assert id in a <==> id in a[..|a| - 1] || id == a[|a| - 1];
      assert id in b <==> id in b[..k] || id == b[k] || id in b[k + 1..] by {
        assert b == b[..k] + [b[k]] + b[k + 1..];
      }
    }
  }

  // ---- Updates of the index ----------------------------------------------------------------------

  /** workflowIndex.get(workflowId)?.delete(id). */
  function Unlisted(index: map<string, seq<string>>, id: string, workflowId: string): map<string, seq<string>> {
    if workflowId in index then index[workflowId := Without(index[workflowId], id)] else index
  }

  /** An empty set of ids leaves the index. */
  function Dropped(index: map<string, seq<string>>, workflowId: string): map<string, seq<string>> {
    if workflowId in index && index[workflowId] == [] then index - {workflowId} else index
  }

  function Listed(index: map<string, seq<string>>, id: string, workflowId: string): map<string, seq<string>> {
    if workflowId == "" then index
    else index[workflowId := AppendId(if workflowId in index then index[workflowId] else [], id)]
  }

  /** The index is right about every stream but id, which it does not list. */
  ghost predicate IndexesOthers(index: map<string, seq<string>>, streams: map<string, Stream>, id: string) {
    && (forall w :: w in index ==>
          && w != "" && NoDuplicates(index[w])
          && forall x :: x in index[w] <==> x != id && x in streams && streams[x].workflowId == w)
    && (forall x :: x != id && x in streams && streams[x].workflowId != "" ==> Populated(index, streams[x].workflowId))
  }

  predicate Populated(index: map<string, seq<string>>, workflowId: string) {
    workflowId in index
  }

  lemma UnlistKeeps(index: map<string, seq<string>>, streams: map<string, Stream>, id: string)
    requires Indexes(index, streams)
    ensures id in streams ==> IndexesOthers(Unlisted(index, id, streams[id].workflowId), streams, id)
    ensures id !in streams ==> IndexesOthers(index, streams, id)
  {
    if id in streams && streams[id].workflowId in index { WithoutUnique(index[streams[id].workflowId], id); }
  }

  lemma DropKeeps(index: map<string, seq<string>>, streams: map<string, Stream>, id: string, workflowId: string)
    requires IndexesOthers(index, streams, id)
    ensures IndexesOthers(Dropped(index, workflowId), streams, id)
  {
    if workflowId in index && index[workflowId] == [] {
      forall x | x != id && x in streams && streams[x].workflowId != ""
        ensures Populated(Dropped(index, workflowId), streams[x].workflowId)
      {
        assert x !in index[workflowId];
      }
    }
  }

  lemma ListKeeps(index: map<string, seq<string>>, streams: map<string, Stream>, id: string, state: Stream)
    requires IndexesOthers(index, streams, id)
    ensures Indexes(Listed(index, id, state.workflowId), streams[id := state])
    ensures IndexesOthers(index, streams[id := state], id)
  {
  }

  /** Listing a stream again under the workflow it has changes nothing. */
  lemma ListAgain(index: map<string, seq<string>>, streams: map<string, Stream>, id: string, state: Stream)
    requires Indexes(index, streams) && id in streams && streams[id].workflowId == state.workflowId
    ensures Indexes(Listed(index, id, state.workflowId), streams[id := state])
  {
    hide NoDuplicates;
    assert Listed(index, id, state.workflowId) == index;
  }

  lemma NothingListed(index: map<string, seq<string>>, streams: map<string, Stream>, id: string)
    requires Indexes(index, streams) && (id in streams ==> streams[id].workflowId == "")
    ensures IndexesOthers(index, streams, id)
  {
    hide NoDuplicates;
  }

  lemma RemoveKeeps(index: map<string, seq<string>>, streams: map<string, Stream>, id: string)
    requires IndexesOthers(index, streams, id)
    ensures Indexes(index, streams - {id})
  {
    hide NoDuplicates;
  }

  /** What the index lists for a workflow is what a scan over all streams finds, each once. */
  lemma IndexIsScan(ids: seq<string>, index: map<string, seq<string>>, streams: map<string, Stream>, workflowId: string)
    requires Indexes(index, streams) && NoDuplicates(ids) && forall id :: id in ids <==> id in streams
    requires workflowId != ""
    ensures workflowId in index ==> forall id :: id in index[workflowId] ==> id in streams
    ensures multiset(Scan(ids, streams, BoundTo(workflowId))) ==
              multiset(if workflowId in index then Lookup(index[workflowId], streams) else [])
  {
    var kept := Kept(ids, streams, BoundTo(workflowId));
    var listed := if workflowId in index then index[workflowId] else [];
    ScanIsLookup(ids, streams, BoundTo(workflowId));
    forall id ensures id in listed <==> id in kept {}
    LookupPermuted(listed, kept, streams);
  }

  // ---- The store object --------------------------------------------------------------------------

  class MemoryStateStore {
    var ids: seq<string>
    var streams: map<string, Stream>
    var workflowIndex: map<string, seq<string>>

    ghost predicate Valid()
      reads this
    {
      && NoDuplicates(ids) && (forall id :: id in ids <==> id in streams)
      && Indexes(workflowIndex, streams)
    }

    constructor ()
      ensures Valid() && ids == [] && streams == map[]
    {
      ids, streams, workflowIndex := [], map[], map[];
    }

    method Unlist(id: string, workflowId: string)
      modifies this`workflowIndex
      ensures workflowIndex == Unlisted(old(workflowIndex), id, workflowId)
    {
      if workflowId in workflowIndex {
        workflowIndex := workflowIndex[workflowId := Without(workflowIndex[workflowId], id)];
      }
    }

    method DropIfEmpty(workflowId: string)
      modifies this`workflowIndex
      ensures workflowIndex == Dropped(old(workflowIndex), workflowId)
    {
      if workflowId in workflowIndex && workflowIndex[workflowId] == [] {
        workflowIndex := workflowIndex - {workflowId};
      }
    }

    method List(id: string, workflowId: string)
      modifies this`workflowIndex
      ensures workflowIndex == Listed(old(workflowIndex), id, workflowId)
    {
      if workflowId != "" {
        var listed := if workflowId in workflowIndex then workflowIndex[workflowId] else [];
        workflowIndex := workflowIndex[workflowId := AppendId(listed, id)];
      }
    }

    method Set(id: string, state: Stream)
      requires Valid()
      modifies this
      ensures Valid() && streams == old(streams)[id := state] && ids == AppendId(old(ids), id)
    {
      hide Indexes, IndexesOthers, Unlisted, Listed;
      UnlistKeeps(workflowIndex, streams, id);
      if id in streams && streams[id].workflowId != "" && streams[id].workflowId != state.workflowId {
        Unlist(id, streams[id].workflowId);
        ListKeeps(workflowIndex, streams, id, state);
      } else if id in streams && streams[id].workflowId == state.workflowId {
        ListAgain(workflowIndex, streams, id, state);
      } else {
        NothingListed(workflowIndex, streams, id);
        ListKeeps(workflowIndex, streams, id, state);
      }
      streams := streams[id := state];
      ids := AppendId(ids, id);
      List(id, state.workflowId);
    }

    method Delete(id: string) returns (deleted: bool)
      requires Valid()
      modifies this
      ensures Valid() && deleted == (id in old(streams))
      ensures streams == old(streams) - {id} && ids == Without(old(ids), id)
    {
      hide Indexes, IndexesOthers, Unlisted, Dropped;
      UnlistKeeps(workflowIndex, streams, id);
      WithoutUnique(ids, id);
      if id in streams && streams[id].workflowId != "" {
        Unlist(id, streams[id].workflowId);
        DropKeeps(workflowIndex, streams, id, streams[id].workflowId);
        DropIfEmpty(streams[id].workflowId);
      } else {
        NothingListed(workflowIndex, streams, id);
      }
      RemoveKeeps(workflowIndex, streams, id);
      deleted := id in streams;
      streams := streams - {id};
      ids := Without(ids, id);
    }

    method BindWorkflow(id: string, workflowId: string) returns (state: Option<Stream>)
      requires Valid()
      modifies this
      ensures Valid() && ids == old(ids)
      ensures streams == if id in old(streams) then old(streams)[id := old(streams)[id].(workflowId := workflowId)]
                         else old(streams)
      ensures state == if id in old(streams) then Some(streams[id]) else None
    {
      hide Indexes, IndexesOthers, Unlisted, Dropped, Listed;
      if id !in streams {
        return None;
      }
      UnlistKeeps(workflowIndex, streams, id);
      if streams[id].workflowId != "" {
        Unlist(id, streams[id].workflowId);
        DropKeeps(workflowIndex, streams, id, streams[id].workflowId);
        DropIfEmpty(streams[id].workflowId);
      } else {
        NothingListed(workflowIndex, streams, id);
      }
      ListKeeps(workflowIndex, streams, id, streams[id].(workflowId := workflowId));
      streams := streams[id := streams[id].(workflowId := workflowId)];
      List(id, workflowId);
      state := Some(streams[id]);
    }

    /** The streams of a workflow: exactly those a full scan finds, each once. */
    method GetByWorkflow(workflowId: string) returns (result: seq<Stream>)
      requires Valid()
      ensures workflowId != "" ==> multiset(result) == multiset(Scan(ids, streams, BoundTo(workflowId)))
    {
      if workflowId !in workflowIndex {
        if workflowId != "" { IndexIsScan(ids, workflowIndex, streams, workflowId); }
        return [];
      }
      var listed := workflowIndex[workflowId];
      result := [];
      for i := 0 to |listed|
        invariant result == Lookup(listed[..i], streams)
      {
        assert listed[..i + 1] == listed[..i] + [listed[i]];
        if listed[i] in streams {
          result := result + [streams[listed[i]]];
        }
      }
      assert listed[..|listed|] == listed;
      IndexIsScan(ids, workflowIndex, streams, workflowId);
    }

    method GetActive() returns (result: seq<Stream>)
      requires Valid()
      ensures result == Scan(ids, streams, IsActive())
    {
      result := [];
      for i := 0 to |ids|
        invariant result == Scan(ids[..i], streams, IsActive())
      {
        assert ids[..i + 1][..i] == ids[..i];
        if streams[ids[i]].status == Active {
          result := result + [streams[ids[i]]];
        }
      }
      assert ids[..|ids|] == ids;
    }

    method GetExpired(currentTime: Time) returns (result: seq<Stream>)
      requires Valid()
      ensures result == Scan(ids, streams, IsExpired(currentTime))
    {
      result := [];
      for i := 0 to |ids|
        invariant result == Scan(ids[..i], streams, IsExpired(currentTime))
      {
        assert ids[..i + 1][..i] == ids[..i];
        var state := streams[ids[i]];
        if state.status == Active && currentTime >= state.genesis + state.lifespan {
          result := result + [state];
        }
      }
      assert ids[..|ids|] == ids;
    }
  }
}
