// StreamTerminationQueue (stream-gateway/state-store.ts): expirations in time order, ties in schedule order.
module TerminationQueue {
  import opened Prelude

  /** Seconds. */
  type Time = real

  datatype Entry = Entry(paycardId: string, expiresAt: Time)

  ghost predicate Sorted(q: seq<Entry>) {
    forall i, j :: 0 <= i < j < |q| ==> q[i].expiresAt <= q[j].expiresAt
  }

  /** The entries that expire at one instant, in queue order. */
  function At(q: seq<Entry>, t: Time): seq<Entry> {
    if q == [] then [] else At(q[..|q| - 1], t) + if q[|q| - 1].expiresAt == t then [q[|q| - 1]] else []
  }

  /** How many entries expire by now. */
  function Due(q: seq<Entry>, now: Time): (n: nat)
    ensures n <= |q|
    ensures forall i :: 0 <= i < n ==> q[i].expiresAt <= now
    ensures n < |q| ==> q[n].expiresAt > now
  {
    if q == [] || q[0].expiresAt > now then 0
    else
      assert forall i :: 0 <= i < Due(q[1..], now) ==> q[i + 1] == q[1..][i];
      1 + Due(q[1..], now)
  }

  /** Scheduling puts an entry behind every entry that expires no later. */
  function Inserted(q: seq<Entry>, e: Entry): seq<Entry> {
    var n := Due(q, e.expiresAt);
    q[..n] + [e] + q[n..]
  }

  function Ids(q: seq<Entry>): (ids: seq<string>)
    ensures |ids| == |q| && forall i :: 0 <= i < |q| ==> ids[i] == q[i].paycardId
  {
    seq(|q|, i requires 0 <= i < |q| => q[i].paycardId)
  }

  lemma {:induction false} AtConcat(a: seq<Entry>, b: seq<Entry>, t: Time)
    ensures At(a + b, t) == At(a, t) + At(b, t)
  {
    if b == [] {
      assert a + b == a;
    } else {
      assert (a + b)[..|a + b| - 1] == a + b[..|b| - 1];
      AtConcat(a, b[..|b| - 1], t);
    }
  }

  lemma {:induction false} AtNothing(q: seq<Entry>, t: Time)
    requires forall i :: 0 <= i < |q| ==> q[i].expiresAt != t
    ensures At(q, t) == []
  {
    if q != [] { AtNothing(q[..|q| - 1], t); }
  }

  /** In a sorted queue everything after the due entries is still to come. */
  lemma DueSplits(q: seq<Entry>, now: Time)
    requires Sorted(q)
    ensures forall i :: 0 <= i < |q| ==> (q[i].expiresAt <= now <==> i < Due(q, now))
  {
    var n := Due(q, now);
    forall i | n <= i < |q| ensures q[i].expiresAt > now {
      assert q[n].expiresAt <= q[i].expiresAt;
    }
  }

  lemma InsertedEntries(q: seq<Entry>, e: Entry)
    ensures var n, r := Due(q, e.expiresAt), Inserted(q, e);
            && |r| == |q| + 1
            && forall i :: 0 <= i < |r| ==> r[i] == if i < n then q[i] else if i == n then e else q[i - 1]
  {
    hide Due;
  }

  lemma InsertedMembers(q: seq<Entry>, e: Entry)
    ensures forall x :: x in Inserted(q, e) <==> x == e || x in q
  {
    var n := Due(q, e.expiresAt);
    assert q == q[..n] + q[n..];
    assert forall x :: x in q <==> x in q[..n] || x in q[n..];
  }

  /** Insertion keeps time order. */
  lemma InsertedInOrder(q: seq<Entry>, e: Entry)
    requires Sorted(q)
    ensures Sorted(Inserted(q, e))
    ensures forall x :: x in Inserted(q, e) <==> x == e || x in q
  {
    InsertedMembers(q, e);
    DueSplits(q, e.expiresAt);
    InsertedEntries(q, e);
    hide Due, Inserted;
    var r := Inserted(q, e);
    assert forall i, j :: 0 <= i < j < |r| ==> r[i].expiresAt <= r[j].expiresAt;
  }

  lemma AtBetween(front: seq<Entry>, e: Entry, back: seq<Entry>, t: Time)
    ensures At(front + [e] + back, t) == At(front, t) + At([e], t) + At(back, t)
  {
    hide At;
    AtConcat(front + [e], back, t);
    AtConcat(front, [e], t);
  }

  /** Insertion puts the entry last among those that expire with it and leaves the others in their order. */
  lemma InsertedAt(q: seq<Entry>, e: Entry, t: Time)
    requires Sorted(q)
    ensures At(Inserted(q, e), t) == At(q, t) + if t == e.expiresAt then [e] else []
  {
    hide At, Due, Sorted;
    DueSplits(q, e.expiresAt);
    AtOne(e, t);
    var n := Due(q, e.expiresAt);
    assert q == q[..n] + q[n..];
    AtBetween(q[..n], e, q[n..], t);
    AtConcat(q[..n], q[n..], t);
    if t == e.expiresAt { AtNothing(q[n..], t); }
  }

  lemma AtOne(e: Entry, t: Time)
    ensures At([e], t) == if t == e.expiresAt then [e] else []
  {
    assert [e][..0] == [];
  }

  /** A sweep takes exactly the instants up to now, and leaves the others as they were. */
  lemma SweptAt(q: seq<Entry>, now: Time, t: Time)
    requires Sorted(q)
    ensures At(q[..Due(q, now)], t) == if t <= now then At(q, t) else []
    ensures At(q[Due(q, now)..], t) == if t <= now then [] else At(q, t)
  {
    DueSplits(q, now);
    hide At, Due;
    var n := Due(q, now);
    assert q == q[..n] + q[n..];
    AtConcat(q[..n], q[n..], t);
    if t <= now { AtNothing(q[n..], t); } else { AtNothing(q[..n], t); }
  }

  lemma SuffixSorted(q: seq<Entry>, n: nat)
    requires Sorted(q) && n <= |q|
    ensures Sorted(q[n..])
  {
  }

  class StreamTerminationQueue {
    var queue: seq<Entry>

    ghost predicate Valid()
      reads this
    {
      Sorted(queue)
    }

    constructor ()
      ensures Valid() && queue == []
    {
      queue := [];
    }

    method Schedule(paycardId: string, expiresAt: Time)
      requires Valid()
      modifies this
      ensures Valid() && queue == Inserted(old(queue), Entry(paycardId, expiresAt))
    {
      var lo, hi := 0, |queue|;
      while lo < hi
        invariant 0 <= lo <= hi <= |queue|
        invariant forall i :: 0 <= i < lo ==> queue[i].expiresAt <= expiresAt
        invariant forall i :: hi <= i < |queue| ==> expiresAt < queue[i].expiresAt
      {
        var mid := (lo + hi) / 2;
        if queue[mid].expiresAt <= expiresAt {
          lo := mid + 1;
        } else {
          hi := mid;
        }
      }
      DueSplits(queue, expiresAt);
      InsertedInOrder(queue, Entry(paycardId, expiresAt));
      assert lo == Due(queue, expiresAt) by {
        assert lo < |queue| ==> queue[lo].expiresAt > expiresAt;
        assert lo > 0 ==> queue[lo - 1].expiresAt <= expiresAt;
      }
      queue := queue[..lo] + [Entry(paycardId, expiresAt)] + queue[lo..];
    }

    method CheckExpired(currentTime: Time) returns (expired: seq<string>)
      requires Valid()
      modifies this
      ensures Valid()
      ensures var n := Due(old(queue), currentTime);
              expired == Ids(old(queue)[..n]) && queue == old(queue)[n..]
    {
      expired := [];
      DueSplits(queue, currentTime);
      ghost var n := Due(queue, currentTime);
      hide Due, Sorted;
      while |queue| > 0 && queue[0].expiresAt <= currentTime
        invariant |expired| <= n && queue == old(queue)[|expired|..] && expired == Ids(old(queue)[..|expired|])
        decreases |queue|
      {
        expired := expired + [queue[0].paycardId];
        queue := queue[1..];
      }
      SuffixSorted(old(queue), n);
    }
  }
}
