// When a Path's exposure and concurrency limits bound what its reserved Pacts add up to, over whole runs.
module KernelExposure {
  import opened Prelude
  import opened CanonicalValues
  import opened KernelTypes
  import opened Policy
  import opened KernelOps
  import opened KernelSafety
  import opened KernelFrames
  import opened KernelHistory

  // ---- Sums over the Pact map --------------------------------------------------------------------

  /** A Pact on the Path that is not settled: reserved already, or still able to become so. */
  predicate IsUnsettled(pacts: map<string, Pact>, pathId: string, id: string) {
    id in pacts && pacts[id].terms.pathId == pathId && pacts[id].status != Settled
  }

  function UnsettledSum(ids: seq<string>, pacts: map<string, Pact>, pathId: string): nat {
    if ids == [] then 0
    else
      UnsettledSum(ids[..|ids| - 1], pacts, pathId)
      + var id := ids[|ids| - 1];
        if IsUnsettled(pacts, pathId, id) then Units(pacts[id].terms.payment.maximumAllocation) else 0
  }

  function UnsettledCount(ids: seq<string>, pacts: map<string, Pact>, pathId: string): nat {
    if ids == [] then 0
    else
      UnsettledCount(ids[..|ids| - 1], pacts, pathId)
      + if IsUnsettled(pacts, pathId, ids[|ids| - 1]) then 1 else 0
  }

  lemma {:induction false} FilterSplit<T(!new)>(a: seq<T>, b: seq<T>, keep: T -> bool)
    ensures Filter(a + b, keep) == Filter(a, keep) + Filter(b, keep)
  {
    if a == [] {
      assert a + b == b;
    } else {
      assert (a + b)[1..] == a[1..] + b;
      FilterSplit(a[1..], b, keep);
    }
  }

  ghost predicate NoneAwaits(s: State, pathId: string) {
    forall id :: id in s.pacts && s.pacts[id].terms.pathId == pathId ==> s.pacts[id].status != AwaitingSignatures
  }

  /** What the evaluator counts is at most what is unsettled, and exactly that while no Pact awaits signatures. */
  lemma {:induction false} ReservedWithinUnsettled(s: State, ids: seq<string>, pathId: string)
    ensures var reserved := Filter(ids, id => IsReserved(s, pathId, id));
            && Sum(reserved, id => Allocation(s, id)) <= UnsettledSum(ids, s.pacts, pathId)
            && |reserved| <= UnsettledCount(ids, s.pacts, pathId)
            && (NoneAwaits(s, pathId) ==>
                  && Sum(reserved, id => Allocation(s, id)) == UnsettledSum(ids, s.pacts, pathId)
                  && |reserved| == UnsettledCount(ids, s.pacts, pathId))
  {
    hide Units, IsReserved, IsUnsettled, Allocation;
    if ids != [] {
      var init, last := ids[..|ids| - 1], ids[|ids| - 1];
      ReservedWithinUnsettled(s, init, pathId);
      assert ids == init + [last];
      FilterSplit(init, [last], id => IsReserved(s, pathId, id));
      SumSplit(Filter(init, id => IsReserved(s, pathId, id)), Filter([last], id => IsReserved(s, pathId, id)),
               id => Allocation(s, id));
      ReservedOne(s, last, pathId);
    }
  }

  lemma ReservedOne(s: State, id: string, pathId: string)
    ensures Filter([id], k => IsReserved(s, pathId, k)) == if IsReserved(s, pathId, id) then [id] else []
    ensures Sum([id], k => Allocation(s, k)) == Allocation(s, id)
    ensures IsReserved(s, pathId, id) ==> IsUnsettled(s.pacts, pathId, id)
    ensures NoneAwaits(s, pathId) ==> (IsReserved(s, pathId, id) <==> IsUnsettled(s.pacts, pathId, id))
    ensures id in s.pacts ==> Allocation(s, id) == Units(s.pacts[id].terms.payment.maximumAllocation)
    ensures IsUnsettled(s.pacts, pathId, id) ==> id in s.pacts
  {
    hide Units;
    assert [id][1..] == [];
  }

  /** The unsettled total cannot grow while terms stay put and settled Pacts stay settled. */
  lemma {:induction false} UnsettledShrinks(ids: seq<string>, before: map<string, Pact>, after: map<string, Pact>,
                                            pathId: string)
    requires forall id :: id in ids && IsUnsettled(after, pathId, id) ==>
               IsUnsettled(before, pathId, id) && after[id].terms == before[id].terms
    ensures UnsettledSum(ids, after, pathId) <= UnsettledSum(ids, before, pathId)
    ensures UnsettledCount(ids, after, pathId) <= UnsettledCount(ids, before, pathId)
  {
    hide Units;
    if ids != [] {
      assert ids[|ids| - 1] in ids;
      UnsettledShrinks(ids[..|ids| - 1], before, after, pathId);
    }
  }

  // ---- The bound as an invariant -----------------------------------------------------------------

  ghost predicate Bounded(s: State) {
    && NoDuplicates(s.pactIds) && (forall id :: id in s.pactIds <==> id in s.pacts)
    && (forall id :: id in s.pacts ==> s.pacts[id].terms.pathId in s.paths)
    && (forall pathId :: pathId in s.paths ==> WithinLimits(s, pathId))
  }

  ghost predicate WithinLimits(s: State, pathId: string)
    requires pathId in s.paths
  {
    var limits := s.paths[pathId].artifact.limits;
    && UnsettledSum(s.pactIds, s.pacts, pathId) <= Units(limits.maxActiveExposure)
    && UnsettledCount(s.pactIds, s.pacts, pathId) <= limits.maxConcurrentPacts
  }

  /**
   * The run condition at one step from s to r: the Path's exposure and concurrency limits are not lowered, a
   * Pact is created only while no other Pact on its Path awaits signatures, and no Pact leaves settled.
   */
  ghost predicate Disciplined(s: State, op: Op, r: State) {
    LimitsKept(s, r) && SettledStays(s, r) && CreatesAlone(s, op)
  }

  ghost predicate CreatesAlone(s: State, op: Op) {
    op.OpCreatePact? && op.request.proposalId in s.proposals ==>
      NoneAwaits(s, s.proposals[op.request.proposalId].pathId)
  }

  ghost predicate LimitsKept(s: State, r: State) {
    forall pathId :: pathId in s.paths && pathId in r.paths ==>
      && Units(s.paths[pathId].artifact.limits.maxActiveExposure)
         <= Units(r.paths[pathId].artifact.limits.maxActiveExposure)
      && s.paths[pathId].artifact.limits.maxConcurrentPacts <= r.paths[pathId].artifact.limits.maxConcurrentPacts
  }

  ghost predicate SettledStays(s: State, r: State) {
    forall id :: id in s.pacts && id in r.pacts && s.pacts[id].status == Settled ==> r.pacts[id].status == Settled
  }

  lemma PactStepBounded(s: State, op: Op, r: State)
    requires Bounded(s) && Disciplined(s, op, r) && SameTerms(s, r)
    ensures Bounded(r)
  {
    hide Units;
    forall pathId | pathId in r.paths
      ensures WithinLimits(r, pathId)
    {
      assert WithinLimits(s, pathId);
      UnsettledShrinks(r.pactIds, s.pacts, r.pacts, pathId);
    }
  }

  /** A Path that was unknown carries no Pact. */
  lemma {:induction false} UnknownPathEmpty(ids: seq<string>, pacts: map<string, Pact>, pathId: string)
    requires forall id :: id in pacts ==> pacts[id].terms.pathId != pathId
    ensures UnsettledSum(ids, pacts, pathId) == 0 && UnsettledCount(ids, pacts, pathId) == 0
  {
    if ids != [] { UnknownPathEmpty(ids[..|ids| - 1], pacts, pathId); }
  }

  lemma RegistryStepBounded(s: State, op: Op, r: State)
    requires Bounded(s) && Disciplined(s, op, r) && SamePacts(s, r)
    requires forall pathId :: pathId in s.paths ==> pathId in r.paths
    requires forall pathId :: pathId in r.paths && pathId !in s.paths ==>
               r.paths[pathId].artifact.limits.maxConcurrentPacts >= 0
    ensures Bounded(r)
  {
    hide Units;
    forall pathId | pathId in r.paths
      ensures WithinLimits(r, pathId)
    {
      if pathId in s.paths {
        assert WithinLimits(s, pathId);
      } else {
        UnknownPathEmpty(r.pactIds, r.pacts, pathId);
      }
    }
  }

  lemma {:induction false} AppendUnsettled(ids: seq<string>, pacts: map<string, Pact>, id: string, pact: Pact,
                                           pathId: string)
    requires id !in ids
    ensures UnsettledSum(ids, pacts[id := pact], pathId) == UnsettledSum(ids, pacts, pathId)
    ensures UnsettledCount(ids, pacts[id := pact], pathId) == UnsettledCount(ids, pacts, pathId)
  {
    hide Units;
    if ids != [] {
      assert ids[|ids| - 1] in ids;
      AppendUnsettled(ids[..|ids| - 1], pacts, id, pact, pathId);
    }
  }

  /** An allowed Proposal leaves room for itself under both limits, as long as nothing else is pending. */
  lemma AllowedLeavesRoom(env: Env, s: State, p: Proposal, identity: Identity, now: int)
    requires Allowed(env, s, p, identity, now) && p.pathId in s.paths
    requires s.paths[p.pathId].artifact.pathId == p.pathId && NoneAwaits(s, p.pathId)
    ensures var limits := s.paths[p.pathId].artifact.limits;
            && UnsettledSum(s.pactIds, s.pacts, p.pathId) + Units(p.allocation) <= Units(limits.maxActiveExposure)
            && UnsettledCount(s.pactIds, s.pacts, p.pathId) + 1 <= limits.maxConcurrentPacts
  {
    ReservedWithinUnsettled(s, s.pactIds, p.pathId);
    RoomForAllocation(env, s, p, identity, now);
  }

  lemma RoomForAllocation(env: Env, s: State, p: Proposal, identity: Identity, now: int)
    requires Allowed(env, s, p, identity, now) && p.pathId in s.paths
    requires s.paths[p.pathId].artifact.pathId == p.pathId
    ensures var limits := s.paths[p.pathId].artifact.limits;
            && ActiveExposure(s, p.pathId) + Units(p.allocation) <= Units(limits.maxActiveExposure)
            && |ActivePacts(s, p.pathId)| + 1 <= limits.maxConcurrentPacts
  {
    hide Units, ActiveExposure, ActivePacts, PeriodSpent, OutsideAuthority, OutsideScope, CounterpartyFails,
         AppliesBeforePath;
    assert !Applies(ActiveExposureExceeded, env, s, p, identity, now);
    assert !Applies(ConcurrencyExceeded, env, s, p, identity, now);
  }

  lemma CreateStepBounded(env: Env, s: State, op: Op, r: State, now: int)
    requires Bounded(s) && op.OpCreatePact? && Disciplined(s, op, r)
    requires AddsPact(env, s, r, op.request, now)
    requires AllowedNow(env, s, op.request.proposalId, op.identity, now)
    requires forall pathId :: pathId in s.paths ==> s.paths[pathId].artifact.pathId == pathId
    ensures Bounded(r)
  {
    hide Units, Allowed, CreatePactError, NewPact, SameRegistry, LimitsKept, SettledStays, NoneAwaits, UnsettledSum,
         UnsettledCount, WithinLimits;
    var p, id := s.proposals[op.request.proposalId], op.request.pactId;
    NewPactBinding(env, s, op.request, now);
    assert r.paths == s.paths by { SameRegistryPaths(s, r); }
    AllowedLeavesRoom(env, s, p, op.identity, now);
    assert r.pactIds == s.pactIds + [id];
    forall pathId | pathId in r.paths
      ensures WithinLimits(r, pathId)
    {
      assert WithinLimits(s, pathId);
      AddedPactWithin(s, r, id, pathId);
    }
  }

  lemma SameRegistryPaths(s: State, r: State)
    requires SameRegistry(s, r)
    ensures r.paths == s.paths
  {
  }

  lemma AddedPactWithin(s: State, r: State, id: string, pathId: string)
    requires pathId in s.paths && r.paths == s.paths && WithinLimits(s, pathId)
    requires id !in s.pactIds && r.pactIds == s.pactIds + [id] && id in r.pacts
    requires r.pacts == s.pacts[id := r.pacts[id]]
    requires r.pacts[id].terms.pathId == pathId ==>
               var limits := s.paths[pathId].artifact.limits;
               && UnsettledSum(s.pactIds, s.pacts, pathId) + Units(r.pacts[id].terms.payment.maximumAllocation)
                  <= Units(limits.maxActiveExposure)
               && UnsettledCount(s.pactIds, s.pacts, pathId) + 1 <= limits.maxConcurrentPacts
    ensures WithinLimits(r, pathId)
  {
    hide Units;
    AppendUnsettled(s.pactIds, s.pacts, id, r.pacts[id], pathId);
    assert r.pactIds[..|r.pactIds| - 1] == s.pactIds;
  }

  // ---- Runs --------------------------------------------------------------------------------------

  /** Every step of the run is disciplined. */
  ghost predicate DisciplinedRun(env: Env, run: seq<Event>) {
    run != [] ==>
      var last, earlier := run[|run| - 1], run[..|run| - 1];
      DisciplinedRun(env, earlier)
      && Disciplined(Run(env, EMPTY_STATE, earlier), last.op, Run(env, EMPTY_STATE, run))
  }

  lemma {:induction false} DisciplinedRunsAreBounded(env: Env, run: seq<Event>)
    requires DisciplinedRun(env, run)
    ensures Bounded(Run(env, EMPTY_STATE, run))
  {
    hide Step, Bounded, Disciplined, Units, CreatePactError, NewPact, AllowedNow, AddsPact;
    if run == [] {
      EmptyBounded();
    } else {
      var last, earlier := run[|run| - 1], run[..|run| - 1];
      var s := Run(env, EMPTY_STATE, earlier);
      DisciplinedRunsAreBounded(env, earlier);
      if ChangesPact(last.op) {
        PactStepFrame(env, s, last.op, last.now);
        PactStepBounded(s, last.op, Run(env, EMPTY_STATE, run));
      } else if last.op.OpCreatePact? {
        CreateStepFrame(env, s, last.op, last.now);
        if Step(env, s, last.op, last.now) != s {
          PathsKeyedById(env, earlier);
          CreateStepBounded(env, s, last.op, Run(env, EMPTY_STATE, run), last.now);
        }
      } else {
        RegistryStepFrame(env, s, last.op, last.now);
        PathsGrow(env, run);
        var r := Run(env, EMPTY_STATE, run);
        forall pathId | pathId in r.paths
          ensures r.paths[pathId].artifact.limits.maxConcurrentPacts >= 0
        {
          StoredLimitPositive(env, run, pathId);
        }
        RegistryStepBounded(s, last.op, Run(env, EMPTY_STATE, run));
      }
    }
  }

  lemma EmptyBounded()
    ensures Bounded(EMPTY_STATE)
  {}

  /** Known Paths stay known. */
  lemma PathsGrow(env: Env, run: seq<Event>)
    requires run != []
    ensures forall pathId :: pathId in Run(env, EMPTY_STATE, run[..|run| - 1]).paths ==>
              pathId in Run(env, EMPTY_STATE, run).paths
  {
    hide Step, Run, Units, IsUnits;
    var earlier := run[..|run| - 1];
    forall pathId | pathId in Run(env, EMPTY_STATE, earlier).paths
      ensures pathId in Run(env, EMPTY_STATE, run).paths
    {
      ActivationsFormChain(env, earlier, pathId);
      ActivationsFormChain(env, run, pathId);
      assert |Activations(env, earlier, pathId)| <= |Activations(env, run, pathId)|;
    }
  }

  /** A stored Path allows at least one concurrent Pact. */
  lemma StoredLimitPositive(env: Env, run: seq<Event>, pathId: string)
    requires pathId in Run(env, EMPTY_STATE, run).paths
    ensures Run(env, EMPTY_STATE, run).paths[pathId].artifact.limits.maxConcurrentPacts > 0
  {
    hide Step, Run, Units, IsUnits;
    ActivationsFormChain(env, run, pathId);
  }

  /**
   * In every disciplined run, the reserved Pacts of a Path never add up to more than its current exposure
   * limit, and there are never more of them than its current concurrency limit.
   */
  lemma ReservedExposureBounded(env: Env, run: seq<Event>, pathId: string)
    requires DisciplinedRun(env, run) && pathId in Run(env, EMPTY_STATE, run).paths
    ensures var s := Run(env, EMPTY_STATE, run);
            var limits := s.paths[pathId].artifact.limits;
            && ActiveExposure(s, pathId) <= Units(limits.maxActiveExposure)
            && |ActivePacts(s, pathId)| <= limits.maxConcurrentPacts
  {
    hide Run, Units, DisciplinedRun;
    var s := Run(env, EMPTY_STATE, run);
    DisciplinedRunsAreBounded(env, run);
    assert WithinLimits(s, pathId);
    ReservedWithinUnsettled(s, s.pactIds, pathId);
  }
}
