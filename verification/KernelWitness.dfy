// Why the exposure bound needs the signature condition: Pacts that await signatures are invisible to the evaluator.
module KernelWitness {
  import opened Prelude
  import opened KernelTypes
  import opened Policy
  import opened KernelOps
  import opened KernelSafety
  import opened KernelFrames
  import opened KernelHistory
  import opened KernelExposure

  /** What the evaluator reads of Pacts with the listed ids is the same in both states. */
  lemma {:induction false} SameReserved(s: State, r: State, ids: seq<string>, pathId: string)
    requires forall id :: id in ids ==>
               (id in r.pacts <==> id in s.pacts) && (id in s.pacts ==> r.pacts[id] == s.pacts[id])
    ensures Filter(ids, id => IsReserved(r, pathId, id)) == Filter(ids, id => IsReserved(s, pathId, id))
    ensures Sum(Filter(ids, id => IsReserved(r, pathId, id)), id => Allocation(r, id))
            == Sum(Filter(ids, id => IsReserved(s, pathId, id)), id => Allocation(s, id))
  {
    hide Units, ReservesExposure;
    if ids != [] {
      SameReserved(s, r, ids[1..], pathId);
      SumSplit(if IsReserved(s, pathId, ids[0]) then [ids[0]] else [],
               Filter(ids[1..], id => IsReserved(s, pathId, id)), id => Allocation(s, id));
      SumSplit(if IsReserved(r, pathId, ids[0]) then [ids[0]] else [],
               Filter(ids[1..], id => IsReserved(r, pathId, id)), id => Allocation(r, id));
      assert ids[0] in ids;
    }
  }

  /** Listing one more Pact adds its allocation when, and only when, the Pact is reserved. */
  lemma ListedPact(s: State, r: State, id: string, pathId: string)
    requires id !in s.pactIds && r.pactIds == s.pactIds + [id] && id in r.pacts
    requires forall k :: k in s.pactIds ==> k in s.pacts && k in r.pacts && r.pacts[k] == s.pacts[k]
    ensures IsReserved(r, pathId, id) ==>
              && ActiveExposure(r, pathId) == ActiveExposure(s, pathId) + Allocation(r, id)
    ensures !IsReserved(r, pathId, id) ==>
              ActivePacts(r, pathId) == ActivePacts(s, pathId) && ActiveExposure(r, pathId) == ActiveExposure(s, pathId)
  {
    hide Units, IsReserved, Allocation;
    SameReserved(s, r, s.pactIds, pathId);
    FilterSplit(s.pactIds, [id], k => IsReserved(r, pathId, k));
    ReservedOne(r, id, pathId);
    SumSplit(Filter(s.pactIds, k => IsReserved(r, pathId, k)), Filter([id], k => IsReserved(r, pathId, k)),
             k => Allocation(r, k));
  }

  /** pactIds lists the stored Pacts, each once, and every event is about one of them. */
  ghost predicate Listed(s: State) {
    && NoDuplicates(s.pactIds) && (forall id :: id in s.pactIds <==> id in s.pacts)
    && (forall i :: 0 <= i < |s.pactEvents| ==> s.pactEvents[i].pactId in s.pacts)
  }

  lemma PactStepListed(s: State, r: State)
    requires Listed(s) && SameTerms(s, r) && LogsOne(s, r)
    ensures Listed(r)
  {
    hide SameRegistry;
    forall i | 0 <= i < |r.pactEvents|
      ensures r.pactEvents[i].pactId in r.pacts
    {
      if i < |s.pactEvents| { assert r.pactEvents[..|s.pactEvents|][i] == s.pactEvents[i] || r == s; }
    }
  }

  lemma CreationListed(env: Env, s: State, request: PactRequest, now: int)
    requires Listed(s) && CreatePactError(env, s, request, true).None?
    ensures Listed(CreatePact(env, s, request, now))
  {
    hide CreatePactError, NewPact;
    NewPactBinding(env, s, request, now);
  }

  lemma StepListed(env: Env, s: State, op: Op, now: int)
    requires Listed(s)
    ensures Listed(Step(env, s, op, now))
  {
    hide Step, Listed, CreatePactError, CreatePact, AllowedNow, LogsOne, SameTerms;
    if ChangesPact(op) {
      PactStepFrame(env, s, op, now);
      PactStepListed(s, Step(env, s, op, now));
    } else if op.OpCreatePact? {
      CreatePactStep(env, s, op, now);
      if CreatePactError(env, s, op.request, true).None? { CreationListed(env, s, op.request, now); }
    } else {
      RegistryStepFrame(env, s, op, now);
      SameListing(s, Step(env, s, op, now));
    }
  }

  lemma SameListing(s: State, r: State)
    requires Listed(s) && SamePacts(s, r)
    ensures Listed(r)
  {
  }

  lemma {:induction false} RunListed(env: Env, run: seq<Event>)
    ensures Listed(Run(env, EMPTY_STATE, run))
  {
    hide Step;
    if run != [] {
      hide Listed;
      var last, earlier := run[|run| - 1], run[..|run| - 1];
      RunListed(env, earlier);
      StepListed(env, Run(env, EMPTY_STATE, earlier), last.op, last.now);
    }
  }

  lemma {:induction false} SameSpending(s: State, r: State, events: seq<PactEvent>, path: Path, now: int)
    requires forall i :: 0 <= i < |events| && events[i].kind == PaymentOpenedCanonical ==>
               && events[i].pactId in s.pacts && events[i].pactId in r.pacts
               && r.pacts[events[i].pactId].terms == s.pacts[events[i].pactId].terms
    ensures Filter(events, e => CountsForPeriod(r, path, now, e))
            == Filter(events, e => CountsForPeriod(s, path, now, e))
  {
    if events != [] {
      SameSpending(s, r, events[1..], path, now);
    }
  }

  /** Creating a Pact in any reachable state leaves every decision of the evaluator exactly as it was. */
  lemma PendingPactIsInvisible(env: Env, run: seq<Event>, r: PactRequest, now: int, p: Proposal, identity: Identity)
    requires CreatePactError(env, Run(env, EMPTY_STATE, run), r, true).None?
    ensures var s := Run(env, EMPTY_STATE, run);
            Allowed(env, CreatePact(env, s, r, now), p, identity, now) <==> Allowed(env, s, p, identity, now)
  {
    hide Run, Allowed, CreatePactError, CreatePact, Listed;
    RunListed(env, run);
    CreatedPact(env, Run(env, EMPTY_STATE, run), r, now);
    PendingInListed(env, Run(env, EMPTY_STATE, run), r, now, p, identity);
  }

  lemma PendingInListed(env: Env, s: State, r: PactRequest, now: int, p: Proposal, identity: Identity)
    requires Listed(s) && CreatePactError(env, s, r, true).None? && r.pactId !in s.pacts
    ensures Allowed(env, CreatePact(env, s, r, now), p, identity, now) <==> Allowed(env, s, p, identity, now)
    ensures Listed(CreatePact(env, s, r, now))
  {
    hide CreatePactError, NewPact, AppliesToPath, LimitExceeded, OutsideScope, OutsideAuthority, CounterpartyFails,
         ActiveExposure, ActivePacts, PeriodSpent, Units;
    var after := CreatePact(env, s, r, now);
    NewPactBinding(env, s, r, now);
    if p.pathId in s.paths {
      var path := s.paths[p.pathId].artifact;
      UsageUnseen(env, s, r, now, path);
      forall reason: Reason
        ensures AppliesToPath(reason, env, after, path, p, identity, now)
                <==> AppliesToPath(reason, env, s, path, p, identity, now)
      {
        SameUsageSameReasons(reason, env, s, after, path, p, identity, now);
      }
    }
    forall reason: Reason
      ensures Applies(reason, env, after, p, identity, now) <==> Applies(reason, env, s, p, identity, now)
    {}
  }

  lemma SameUsageSameReasons(reason: Reason, env: Env, s: State, after: State, path: Path, p: Proposal,
                             identity: Identity, now: int)
    requires CurrentUsage(after, path, now) == CurrentUsage(s, path, now)
    ensures AppliesToPath(reason, env, after, path, p, identity, now)
            <==> AppliesToPath(reason, env, s, path, p, identity, now)
  {
    hide CurrentUsage, OutsideScope, OutsideAuthority, CounterpartyFails, LimitExceeded, Units;
  }

  lemma UsageUnseen(env: Env, s: State, r: PactRequest, now: int, path: Path)
    requires Listed(s) && CreatePactError(env, s, r, true).None? && r.pactId !in s.pacts
    ensures CurrentUsage(CreatePact(env, s, r, now), path, now) == CurrentUsage(s, path, now)
  {
    hide CreatePactError, NewPact, ActiveExposure, ActivePacts, PeriodSpent, IsReserved;
    var after := CreatePact(env, s, r, now);
    NewPactBinding(env, s, r, now);
    assert !IsReserved(after, path.pathId, r.pactId) by { NotReserved(after, path.pathId, r.pactId); }
    ListedPact(s, after, r.pactId, path.pathId);
    SpendingUnseen(s, after, path, now);
  }

  lemma NotReserved(s: State, pathId: string, id: string)
    requires id in s.pacts && s.pacts[id].status == AwaitingSignatures
    ensures !IsReserved(s, pathId, id)
  {}

  lemma SpendingUnseen(s: State, after: State, path: Path, now: int)
    requires Listed(s) && after.pactEvents != [] && after.pactEvents[..|after.pactEvents| - 1] == s.pactEvents
    requires after.pactEvents[|after.pactEvents| - 1].kind != PaymentOpenedCanonical
    requires forall id :: id in s.pacts ==> id in after.pacts && after.pacts[id] == s.pacts[id]
    ensures PeriodSpent(after, path, now) == PeriodSpent(s, path, now)
  {
    var last := after.pactEvents[|after.pactEvents| - 1];
    SameSpending(s, after, s.pactEvents, path, now);
    assert after.pactEvents == s.pactEvents + [last];
    FilterSplit(s.pactEvents, [last], e => CountsForPeriod(after, path, now, e));
    assert [last][1..] == [];
    assert Filter([last], e => CountsForPeriod(after, path, now, e)) == [];
    assert Filter(after.pactEvents, e => CountsForPeriod(after, path, now, e))
           == Filter(s.pactEvents, e => CountsForPeriod(after, path, now, e));
  }

  /** The only signature a Pact without counterparty approval needs is the authority's. */
  lemma AuthoritySigns(env: Env, s: State, id: string, signature: Signature, now: int)
    requires id in s.pacts && s.pacts[id].terms.workspaceId in s.workspaces
    requires s.pacts[id].status == AwaitingSignatures && env.hashTerms(s.pacts[id].terms) == s.pacts[id].termsHash
    requires !s.pacts[id].terms.requiresCounterpartySignature && SignaturesOf(s, id) == []
    requires env.verify(PactMessage(s.pacts[id].terms, s.pacts[id].termsHash), signature,
                        s.workspaces[s.pacts[id].terms.workspaceId].authorityAccount)
    ensures var signer := s.workspaces[s.pacts[id].terms.workspaceId].authorityAccount;
            && SignPactError(env, s, id, signer, signature).None?
            && var r := Step(env, s, OpSignPact(id, signer, signature), now);
            && r.pacts == s.pacts[id := s.pacts[id].(status := Accepted, revision := s.pacts[id].revision + 1)]
            && SameRegistry(s, r) && r.pactIds == s.pactIds
            && (forall k :: k != id ==> SignaturesOf(r, k) == SignaturesOf(s, k))
  {
    hide Step, Lower;
    var signer := s.workspaces[s.pacts[id].terms.workspaceId].authorityAccount;
    var signatures := SignaturesOf(s, id)
                      + [PactSignature(s.pacts[id].terms, s.pacts[id].termsHash, signer, signature)];
    SignPactStep(env, s, OpSignPact(id, signer, signature), now);
    assert SameText(signatures[0].signer, signer);
    assert SignedBy(signatures, signer);
  }


  /** The signature is the authority's own over the terms of the stored Pact. */
  ghost predicate SignsFor(env: Env, s: State, id: string, signature: Signature) {
    && id in s.pacts && s.pacts[id].terms.workspaceId in s.workspaces
    && env.verify(PactMessage(s.pacts[id].terms, s.pacts[id].termsHash), signature,
                  s.workspaces[s.pacts[id].terms.workspaceId].authorityAccount)
  }

  /** The state after two calls that create a Pact each. */
  ghost function BothCreated(env: Env, s: State, r1: PactRequest, r2: PactRequest, id1: Identity, id2: Identity,
                             now: int): State {
    Step(env, Step(env, s, OpCreatePact(r1, id1), now), OpCreatePact(r2, id2), now)
  }

  lemma SecondCreated(env: Env, s: State, r1: PactRequest, r2: PactRequest, id1: Identity, id2: Identity, now: int)
    requires Listed(s) && r1.pactId != r2.pactId
    requires AllowedNow(env, s, r1.proposalId, id1, now) && CreatePactError(env, s, r1, true).None?
    requires AllowedNow(env, s, r2.proposalId, id2, now) && CreatePactError(env, s, r2, true).None?
    ensures var s1 := CreatePact(env, s, r1, now);
            && Listed(s1) && CreatePactError(env, s1, r2, true).None?
            && BothCreated(env, s, r1, r2, id1, id2, now) == CreatePact(env, s1, r2, now)
  {
    hide Step, Allowed, CreatePactError, CreatePact;
    var s1 := CreatePact(env, s, r1, now);
    CreatedPact(env, s, r1, now);
    ProposalKnown(env, s, r2);
    PendingInListed(env, s, r1, now, s.proposals[r2.proposalId], id2);
    StillCreatable(env, s, s1, r2, r1.pactId);
    CreatePactStep(env, s, OpCreatePact(r1, id1), now);
    CreatePactStep(env, s1, OpCreatePact(r2, id2), now);
  }

  /**
   * Whenever two Proposals on one Path are each allowed in a reachable state, both Pacts can be created before either
   * is signed, because the second is judged as if the first were not there; once the authority has signed them the
   * exposure is the sum of all three. So it exceeds the limit whenever the two do not fit together.
   */
  lemma OverlappingPactsAddUp(env: Env, run: seq<Event>, r1: PactRequest, r2: PactRequest, id1: Identity,
                              id2: Identity, sig1: Signature, sig2: Signature, now: int)
    requires var s := Run(env, EMPTY_STATE, run);
             && r1.pactId != r2.pactId && !r1.requiresCounterpartySignature && !r2.requiresCounterpartySignature
             && AllowedNow(env, s, r1.proposalId, id1, now) && CreatePactError(env, s, r1, true).None?
             && AllowedNow(env, s, r2.proposalId, id2, now) && CreatePactError(env, s, r2, true).None?
             && s.proposals[r1.proposalId].pathId == s.proposals[r2.proposalId].pathId
             && SignsFor(env, BothCreated(env, s, r1, r2, id1, id2, now), r1.pactId, sig1)
             && SignsFor(env, BothCreated(env, s, r1, r2, id1, id2, now), r2.pactId, sig2)
    ensures var s := Run(env, EMPTY_STATE, run);
            var s2 := BothCreated(env, s, r1, r2, id1, id2, now);
            var authority := id => if id in s2.pacts && s2.pacts[id].terms.workspaceId in s2.workspaces
                                   then s2.workspaces[s2.pacts[id].terms.workspaceId].authorityAccount else "";
            var s3 := Step(env, s2, OpSignPact(r1.pactId, authority(r1.pactId), sig1), now);
            var s4 := Step(env, s3, OpSignPact(r2.pactId, authority(r2.pactId), sig2), now);
            var pathId := s.proposals[r1.proposalId].pathId;
            ActiveExposure(s4, pathId) == ActiveExposure(s, pathId) + Units(s.proposals[r1.proposalId].allocation)
                                          + Units(s.proposals[r2.proposalId].allocation)
  {
    hide Run, Step, AllowedNow, CreatePactError, BothCreated, SignsFor, ActiveExposure, Units;
    RunListed(env, run);
    OverlapAddsUp(env, Run(env, EMPTY_STATE, run), r1, r2, id1, id2, sig1, sig2, now);
  }

  lemma OverlapAddsUp(env: Env, s: State, r1: PactRequest, r2: PactRequest, id1: Identity, id2: Identity,
                      sig1: Signature, sig2: Signature, now: int)
    requires Listed(s) && r1.pactId != r2.pactId
    requires !r1.requiresCounterpartySignature && !r2.requiresCounterpartySignature
    requires AllowedNow(env, s, r1.proposalId, id1, now) && CreatePactError(env, s, r1, true).None?
    requires AllowedNow(env, s, r2.proposalId, id2, now) && CreatePactError(env, s, r2, true).None?
    requires s.proposals[r1.proposalId].pathId == s.proposals[r2.proposalId].pathId
    requires SignsFor(env, BothCreated(env, s, r1, r2, id1, id2, now), r1.pactId, sig1)
    requires SignsFor(env, BothCreated(env, s, r1, r2, id1, id2, now), r2.pactId, sig2)
    ensures var s2 := BothCreated(env, s, r1, r2, id1, id2, now);
            && r1.pactId in s2.pacts && s2.pacts[r1.pactId].terms.workspaceId in s2.workspaces
            && r2.pactId in s2.pacts && s2.pacts[r2.pactId].terms.workspaceId in s2.workspaces
            && var a1, a2 := s2.workspaces[s2.pacts[r1.pactId].terms.workspaceId].authorityAccount,
                             s2.workspaces[s2.pacts[r2.pactId].terms.workspaceId].authorityAccount;
            var s3 := Step(env, s2, OpSignPact(r1.pactId, a1, sig1), now);
            var s4 := Step(env, s3, OpSignPact(r2.pactId, a2, sig2), now);
            var pathId := s.proposals[r1.proposalId].pathId;
            ActiveExposure(s4, pathId) == ActiveExposure(s, pathId) + Units(s.proposals[r1.proposalId].allocation)
                                          + Units(s.proposals[r2.proposalId].allocation)
  {
    hide Step, AllowedNow, Allocation, ActiveExposure, ReservesExposure, CreatePactError, CreatePact, SameText, Units,
         BothCreated, IsReserved, SignsFor, Listed;
    CreatedPact(env, s, r1, now);
    var pathId := s.proposals[r1.proposalId].pathId;
    SecondCreated(env, s, r1, r2, id1, id2, now);
    var s1 := CreatePact(env, s, r1, now);
    CreatedPact(env, s1, r2, now);
    var s2 := CreatePact(env, s1, r2, now);
    var a1, a2 := s2.workspaces[s2.pacts[r1.pactId].terms.workspaceId].authorityAccount,
                  s2.workspaces[s2.pacts[r2.pactId].terms.workspaceId].authorityAccount;
    PairSigned(env, s2, r1.pactId, r2.pactId, sig1, sig2, now);
    var s3 := Step(env, s2, OpSignPact(r1.pactId, a1, sig1), now);
    AcceptedPair(s, Step(env, s3, OpSignPact(r2.pactId, a2, sig2), now), r1.pactId, r2.pactId, pathId);
  }

  /** A Pact that its authority's signature alone accepts. */
  ghost predicate NeedsAuthority(env: Env, s: State, id: string) {
    && id in s.pacts && s.pacts[id].terms.workspaceId in s.workspaces
    && s.pacts[id].status == AwaitingSignatures && env.hashTerms(s.pacts[id].terms) == s.pacts[id].termsHash
    && !s.pacts[id].terms.requiresCounterpartySignature && SignaturesOf(s, id) == []
  }

  lemma PairSigned(env: Env, s: State, id1: string, id2: string, sig1: Signature, sig2: Signature, now: int)
    requires id1 != id2 && NeedsAuthority(env, s, id1) && NeedsAuthority(env, s, id2)
    requires SignsFor(env, s, id1, sig1) && SignsFor(env, s, id2, sig2)
    ensures var a1, a2 := s.workspaces[s.pacts[id1].terms.workspaceId].authorityAccount,
                          s.workspaces[s.pacts[id2].terms.workspaceId].authorityAccount;
            var r := Step(env, Step(env, s, OpSignPact(id1, a1, sig1), now), OpSignPact(id2, a2, sig2), now);
            && r.pacts == s.pacts[id1 := s.pacts[id1].(status := Accepted, revision := s.pacts[id1].revision + 1)]
                                 [id2 := s.pacts[id2].(status := Accepted, revision := s.pacts[id2].revision + 1)]
            && r.pactIds == s.pactIds
  {
    hide Step, SignPactError;
    AuthoritySigns(env, s, id1, sig1, now);
    var a1 := s.workspaces[s.pacts[id1].terms.workspaceId].authorityAccount;
    AuthoritySigns(env, Step(env, s, OpSignPact(id1, a1, sig1), now), id2, sig2, now);
  }

  lemma CreatedPact(env: Env, s: State, r: PactRequest, now: int)
    requires Listed(s) && CreatePactError(env, s, r, true).None?
    ensures r.pactId !in s.pacts
    ensures var after := CreatePact(env, s, r, now);
            && SameRegistry(s, after) && after.pactIds == s.pactIds + [r.pactId]
            && after.pacts == s.pacts[r.pactId := after.pacts[r.pactId]] && r.pactId in after.pacts
            && SignaturesOf(after, r.pactId) == []
            && (forall k :: k != r.pactId ==> SignaturesOf(after, k) == SignaturesOf(s, k))
            && var pact := after.pacts[r.pactId];
            && pact.status == AwaitingSignatures && pact.termsHash == env.hashTerms(pact.terms)
            && pact.terms.pathId == s.proposals[r.proposalId].pathId
            && pact.terms.requiresCounterpartySignature == r.requiresCounterpartySignature
            && pact.terms.payment.maximumAllocation == s.proposals[r.proposalId].allocation
            && pact.terms.workspaceId in s.workspaces
    ensures r.proposalId in s.proposals
  {
    hide NewPact;
    NewPactBinding(env, s, r, now);
    ProposalKnown(env, s, r);
    hide CreatePactError;
  }

  lemma ProposalKnown(env: Env, s: State, r: PactRequest)
    requires CreatePactError(env, s, r, true).None?
    ensures r.proposalId in s.proposals
  {}

  lemma StillCreatable(env: Env, s: State, s1: State, r: PactRequest, other: string)
    requires CreatePactError(env, s, r, true).None? && r.pactId != other
    requires SameRegistry(s, s1) && other in s1.pacts && s1.pacts == s.pacts[other := s1.pacts[other]]
    ensures CreatePactError(env, s1, r, true).None?
  {
    hide FindPlugin, PositiveUnits, ActiveAgentOf;
    assert r.proposalId in s.proposals;
    var p := s.proposals[r.proposalId];
    assert ActiveAgentOf(s1, p.agentId, p.workspaceId) by { SameAgents(s, s1, p.agentId, p.workspaceId); }
  }

  lemma SameAgents(s: State, s1: State, agentId: string, workspaceId: string)
    requires SameRegistry(s, s1) && ActiveAgentOf(s, agentId, workspaceId)
    ensures ActiveAgentOf(s1, agentId, workspaceId)
  {}

  lemma AcceptedPair(s: State, f: State, id1: string, id2: string, pathId: string)
    requires Listed(s) && id1 !in s.pacts && id2 !in s.pacts && id1 != id2
    requires f.pactIds == s.pactIds + [id1] + [id2] && id1 in f.pacts && id2 in f.pacts
    requires forall k :: k in s.pacts ==> k in f.pacts && f.pacts[k] == s.pacts[k]
    requires f.pacts[id1].status == Accepted && f.pacts[id1].terms.pathId == pathId
    requires f.pacts[id2].status == Accepted && f.pacts[id2].terms.pathId == pathId
    ensures ActiveExposure(f, pathId) == ActiveExposure(s, pathId)
              + Units(f.pacts[id1].terms.payment.maximumAllocation)
              + Units(f.pacts[id2].terms.payment.maximumAllocation)
  {
    hide ActiveExposure, ActivePacts, Units;
    var mid := f.(pactIds := s.pactIds + [id1]);
    ListedPact(s, mid, id1, pathId);
    ListedPact(mid, f, id2, pathId);
  }

  // ---- Exactly when accepting a Pact keeps the limit ---------------------------------------------

  /** Reserving one listed Pact more adds its allocation. */
  lemma {:induction false} ReservedMore(s: State, r: State, ids: seq<string>, id: string, pathId: string)
    requires NoDuplicates(ids) && id in ids
    requires !IsReserved(s, pathId, id) && IsReserved(r, pathId, id) && Allocation(r, id) == Allocation(s, id)
    requires forall k :: k != id ==> (k in r.pacts <==> k in s.pacts) && (k in s.pacts ==> r.pacts[k] == s.pacts[k])
    ensures Sum(Filter(ids, k => IsReserved(r, pathId, k)), k => Allocation(r, k))
            == Sum(Filter(ids, k => IsReserved(s, pathId, k)), k => Allocation(s, k)) + Allocation(s, id)
  {
    hide ReservesExposure, Units;
    var rest := ids[1..];
    if ids[0] == id {
      assert id !in rest;
      SameReserved(s, r, rest, pathId);
    } else {
      ReservedMore(s, r, rest, id, pathId);
      SameAllocation(s, r, ids[0], pathId);
    }
    HeadFirst(ids, k => IsReserved(s, pathId, k), k => Allocation(s, k));
    HeadFirst(ids, k => IsReserved(r, pathId, k), k => Allocation(r, k));
  }

  lemma SameAllocation(s: State, r: State, id: string, pathId: string)
    requires (id in r.pacts <==> id in s.pacts) && (id in s.pacts ==> r.pacts[id] == s.pacts[id])
    ensures IsReserved(r, pathId, id) == IsReserved(s, pathId, id) && Allocation(r, id) == Allocation(s, id)
  {
    hide Units, ReservesExposure;
  }

  lemma HeadFirst(ids: seq<string>, keep: string -> bool, weight: string -> nat)
    requires ids != []
    ensures Sum(Filter(ids, keep), weight)
            == (if keep(ids[0]) then weight(ids[0]) else 0) + Sum(Filter(ids[1..], keep), weight)
  {
    var rest := Filter(ids[1..], keep);
    assert ([ids[0]] + rest)[1..] == rest;
    assert [] + rest == rest;
  }

  /** The call is the signature that the Pact was still waiting for. */
  ghost predicate Accepts(env: Env, s: State, op: Op, now: int, id: string) {
    && op.OpSignPact? && op.pactId == id && id in s.pacts && s.pacts[id].status == AwaitingSignatures
    && id in Step(env, s, op, now).pacts && Step(env, s, op, now).pacts[id].status == Accepted
  }

  lemma AcceptedAlone(env: Env, s: State, op: Op, now: int, id: string)
    requires Accepts(env, s, op, now, id)
    ensures var r := Step(env, s, op, now);
            r.pactIds == s.pactIds && r.pacts == s.pacts[id := s.pacts[id].(status := Accepted,
                                                                           revision := s.pacts[id].revision + 1)]
  {
    hide Step, SignPactError, FindSignature, SignedBy, PaymentBinding;
    SignPactStep(env, s, op, now);
  }

  /**
   * In every reachable state the signature that accepts a Pact adds the Pact's allocation to the exposure of its Path,
   * so it keeps the exposure limit exactly when what is reserved and the Pact fit together before the call.
   */
  lemma AcceptanceKeepsLimit(env: Env, run: seq<Event>, op: Op, now: int, id: string, limit: nat)
    requires Accepts(env, Run(env, EMPTY_STATE, run), op, now, id)
    ensures var s := Run(env, EMPTY_STATE, run);
            var pathId, r := s.pacts[id].terms.pathId, Step(env, s, op, now);
            && ActiveExposure(r, pathId) == ActiveExposure(s, pathId) + Allocation(s, id)
            && (ActiveExposure(r, pathId) <= limit <==> ActiveExposure(s, pathId) + Allocation(s, id) <= limit)
  {
    hide Run, Step, Units;
    var s := Run(env, EMPTY_STATE, run);
    RunListed(env, run);
    AcceptedAlone(env, s, op, now, id);
    ReservedMore(s, Step(env, s, op, now), s.pactIds, id, s.pacts[id].terms.pathId);
  }
}
