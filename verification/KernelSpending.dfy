// What the evaluator counts against a Path, over every run: the openings of the period, by the calls that made them,
// and what is reserved, by the stored Pacts. So what an ALLOW says can be read off a run.
module KernelSpending {
  import opened Prelude
  import opened KernelTypes
  import opened Policy
  import opened KernelOps
  import opened KernelSafety
  import opened KernelFrames
  import opened KernelHistory
  import opened KernelStanding
  import Exposure = KernelExposure
  import Witness = KernelWitness

  // ---- Openings and their events -----------------------------------------------------------------

  ghost predicate Opens(env: Env, s: State, op: Op, now: int) {
    op.OpOpenPayment?
    && OpenPaymentError(env, s, op.pactId, op.metadataHash, op.paycardId, op.txHash, op.opening, now).None?
  }

  /** Nothing is logged, or one event that is not an opening. */
  ghost predicate LogsNoOpening(s: State, r: State) {
    || r.pactEvents == s.pactEvents
    || (&& |r.pactEvents| == |s.pactEvents| + 1 && r.pactEvents[..|s.pactEvents|] == s.pactEvents
        && r.pactEvents[|s.pactEvents|].kind != PaymentOpenedCanonical)
  }

  lemma SameLog(s: State, r: State)
    requires r.pactEvents == s.pactEvents
    ensures LogsNoOpening(s, r)
  {
  }

  lemma OneLogged(s: State, id: string, pact: Pact, kind: PactEventKind, now: int, allocation: Option<string>, r: State)
    requires kind != PaymentOpenedCanonical && r.pactEvents == WithPact(s, id, pact, kind, now, allocation).pactEvents
    ensures LogsNoOpening(s, r)
  {
  }

  lemma SignatureLogged(s: State, id: string, signer: Address, signature: Signature, now: int)
    requires id in s.pacts && s.pacts[id].terms.workspaceId in s.workspaces
    ensures LogsNoOpening(s, SignPact(s, id, signer, signature, now))
  {
    hide FindSignature, Countersigned;
  }

  lemma CaseLogged(env: Env, s: State, op: Op, now: int)
    requires op.OpSubmitCheckpoint? || op.OpVerifyCheckpoint? || op.OpOpenGaiaCase? || op.OpResolveGaiaCase?
    ensures LogsNoOpening(s, Step(env, s, op, now))
  {
    hide Step, SubmitCheckpointError, VerifyCheckpointError, OpenGaiaCaseError, ResolveGaiaCaseError, Checkpointed,
         Verified, Rectified, SameRegistry, SamePacts, NextNonce;
    match op
    case OpSubmitCheckpoint(_, _) => SubmitCheckpointStep(env, s, op, now);
    case OpVerifyCheckpoint(_, _, _) => VerifyCheckpointStep(env, s, op, now);
    case OpOpenGaiaCase(_, _) => OpenGaiaCaseStep(env, s, op, now);
    case OpResolveGaiaCase(_, _, _, _, _) => ResolveGaiaCaseStep(env, s, op, now);
    case _ =>
  }

  lemma PaymentLogged(env: Env, s: State, op: Op, now: int)
    requires op.OpCreatePact? || op.OpPreparePayment? || op.OpRecordSettlement?
             || (op.OpOpenPayment? && !Opens(env, s, op, now))
    ensures LogsNoOpening(s, Step(env, s, op, now))
  {
    hide Step, CreatePactError, NewPact, AllowedNow, PreparePaymentError, OpenPaymentError, RecordSettlementError,
         Prepared, Opened, SettledWith, AppendKey;
    match op
    case OpCreatePact(_, _) => CreatePactStep(env, s, op, now);
    case OpPreparePayment(_, _) => PreparePaymentStep(env, s, op, now);
    case OpOpenPayment(_, _, _, _, _) => OpenPaymentStep(env, s, op, now);
    case OpRecordSettlement(_, _, _, _) => RecordSettlementStep(env, s, op, now);
    case _ =>
  }

  /** Only an accepted opening logs an opening. */
  lemma OthersLogNoOpening(env: Env, s: State, op: Op, now: int)
    requires !Opens(env, s, op, now)
    ensures LogsNoOpening(s, Step(env, s, op, now))
  {
    hide Step, Opens, LogsNoOpening, SignPactError, SignPact;
    if op.OpSignPact? {
      SignPactStep(env, s, op, now);
      SameLog(s, s);
      if SignPactError(env, s, op.pactId, op.signer, op.signature).None? {
        SignatureLogged(s, op.pactId, op.signer, op.signature, now);
      }
    } else if ChangesPact(op) && !op.OpPreparePayment? && !op.OpOpenPayment? && !op.OpRecordSettlement? {
      CaseLogged(env, s, op, now);
    } else if ChangesPact(op) || op.OpCreatePact? {
      PaymentLogged(env, s, op, now);
    } else {
      RegistryStepFrame(env, s, op, now);
      SameLog(s, Step(env, s, op, now));
    }
  }

  /** An opening is logged when it is accepted, with the allocation that was agreed and observed. */
  lemma OpeningLogged(env: Env, s: State, op: Op, now: int)
    requires Opens(env, s, op, now)
    ensures op.pactId in s.pacts
    ensures var t := s.pacts[op.pactId].terms;
            && op.opening.poolAllocation == t.payment.maximumAllocation
            && Step(env, s, op, now).pactEvents
               == s.pactEvents + [PactEvent(op.pactId, t.workspaceId, PaymentOpenedCanonical, now,
                                            Some(t.payment.maximumAllocation))]
  {
    hide Step, OpenPaymentError, Eligible;
    OpenPaymentStep(env, s, op, now);
    AllocationObserved(env, s, op, now);
  }

  lemma AllocationObserved(env: Env, s: State, op: Op, now: int)
    requires Opens(env, s, op, now)
    ensures op.pactId in s.pacts
    ensures op.opening.poolAllocation == s.pacts[op.pactId].terms.payment.maximumAllocation
  {
    hide Eligible, SameText, PositiveUnits;
  }

  // ---- The period --------------------------------------------------------------------------------

  /** The pool allocations observed by the openings that a run accepted on a Path's Pacts from a moment on. */
  ghost function PaidSince(env: Env, run: seq<Event>, pathId: string, since: int): nat {
    if run == [] then 0
    else
      var last, earlier := run[|run| - 1], run[..|run| - 1];
      var s := Run(env, EMPTY_STATE, earlier);
      PaidSince(env, earlier, pathId, since)
      + if && last.op.OpOpenPayment? && CallError(env, s, last.op, last.now).None? && last.now >= since
           && last.op.pactId in s.pacts && s.pacts[last.op.pactId].terms.pathId == pathId
        then Units(last.op.opening.poolAllocation) else 0
  }

  /** Every logged opening is labelled with its Pact's Workspace and allocation. */
  ghost predicate Labelled(s: State) {
    forall i :: 0 <= i < |s.pactEvents| && s.pactEvents[i].kind == PaymentOpenedCanonical ==>
      LabelledAs(s, s.pactEvents[i])
  }

  ghost predicate LabelledAs(s: State, e: PactEvent) {
    && e.pactId in s.pacts && e.workspaceId == s.pacts[e.pactId].terms.workspaceId
    && e.allocation == Some(s.pacts[e.pactId].terms.payment.maximumAllocation)
  }

  /** Stored Pacts stay, with their terms. */
  ghost predicate TermsStay(s: State, r: State) {
    forall id :: id in s.pacts ==> id in r.pacts && r.pacts[id].terms == s.pacts[id].terms
  }

  lemma StepTermsStay(env: Env, s: State, op: Op, now: int)
    ensures TermsStay(s, Step(env, s, op, now))
  {
    hide Step, CreatePactError, NewPact, AllowedNow;
    if ChangesPact(op) {
      PactStepFrame(env, s, op, now);
    } else if op.OpCreatePact? {
      CreateStepFrame(env, s, op, now);
      if Step(env, s, op, now) != s { NewPactBinding(env, s, op.request, now); }
    } else {
      RegistryStepFrame(env, s, op, now);
    }
  }

  lemma StepLabelled(env: Env, s: State, op: Op, now: int)
    requires Labelled(s)
    ensures Labelled(Step(env, s, op, now))
  {
    hide Step, Opens;
    var r := Step(env, s, op, now);
    StepTermsStay(env, s, op, now);
    if Opens(env, s, op, now) { OpeningLogged(env, s, op, now); } else { OthersLogNoOpening(env, s, op, now); }
    forall i | 0 <= i < |r.pactEvents| && r.pactEvents[i].kind == PaymentOpenedCanonical
      ensures LabelledAs(r, r.pactEvents[i])
    {
      if i < |s.pactEvents| {
        assert r.pactEvents[..|s.pactEvents|][i] == s.pactEvents[i];
        assert LabelledAs(s, s.pactEvents[i]);
      }
    }
  }

  lemma {:induction false} RunLabelled(env: Env, run: seq<Event>)
    ensures Labelled(Run(env, EMPTY_STATE, run))
  {
    hide Step;
    if run != [] {
      hide Labelled;
      var last, earlier := run[|run| - 1], run[..|run| - 1];
      RunLabelled(env, earlier);
      StepLabelled(env, Run(env, EMPTY_STATE, earlier), last.op, last.now);
    }
  }

  /** The openings of a Path's Pacts from a moment on, as the log tells them. */
  function OpenedSince(events: seq<PactEvent>, pacts: map<string, Pact>, pathId: string, since: int): nat {
    if events == [] then 0
    else
      var e := events[|events| - 1];
      OpenedSince(events[..|events| - 1], pacts, pathId, since)
      + if && e.kind == PaymentOpenedCanonical && e.at >= since && e.pactId in pacts
           && pacts[e.pactId].terms.pathId == pathId
        then Units(pacts[e.pactId].terms.payment.maximumAllocation) else 0
  }

  lemma {:induction false} OpenedByTerms(events: seq<PactEvent>, s: State, r: State, pathId: string, since: int)
    requires TermsStay(s, r)
    requires forall i :: 0 <= i < |events| && events[i].kind == PaymentOpenedCanonical ==> LabelledAs(s, events[i])
    ensures OpenedSince(events, r.pacts, pathId, since) == OpenedSince(events, s.pacts, pathId, since)
  {
    hide Units;
    if events != [] {
      var init, e := events[..|events| - 1], events[|events| - 1];
      OpenedByTerms(init, s, r, pathId, since);
      assert e.kind == PaymentOpenedCanonical ==> LabelledAs(s, e);
    }
  }

  lemma OpenedMore(events: seq<PactEvent>, e: PactEvent, pacts: map<string, Pact>, pathId: string, since: int)
    ensures OpenedSince(events + [e], pacts, pathId, since)
            == OpenedSince(events, pacts, pathId, since)
               + if && e.kind == PaymentOpenedCanonical && e.at >= since && e.pactId in pacts
                    && pacts[e.pactId].terms.pathId == pathId
                 then Units(pacts[e.pactId].terms.payment.maximumAllocation) else 0
  {
    hide Units;
    assert (events + [e])[..|events|] == events;
  }

  /** A log that grows by no opening tells of the same openings. */
  lemma NoOpeningMore(s: State, r: State, pathId: string, since: int)
    requires Labelled(s) && TermsStay(s, r) && LogsNoOpening(s, r)
    ensures OpenedSince(r.pactEvents, r.pacts, pathId, since) == OpenedSince(s.pactEvents, s.pacts, pathId, since)
  {
    hide OpenedSince, Units;
    OpenedByTerms(s.pactEvents, s, r, pathId, since);
    if r.pactEvents != s.pactEvents {
      assert r.pactEvents == s.pactEvents + [r.pactEvents[|s.pactEvents|]];
      OpenedMore(s.pactEvents, r.pactEvents[|s.pactEvents|], r.pacts, pathId, since);
    }
  }

  lemma OneOpeningMore(s: State, r: State, e: PactEvent, pathId: string, since: int)
    requires Labelled(s) && TermsStay(s, r) && r.pactEvents == s.pactEvents + [e]
    requires e.kind == PaymentOpenedCanonical && e.pactId in s.pacts
    ensures OpenedSince(r.pactEvents, r.pacts, pathId, since)
            == OpenedSince(s.pactEvents, s.pacts, pathId, since)
               + if e.at >= since && s.pacts[e.pactId].terms.pathId == pathId
                 then Units(s.pacts[e.pactId].terms.payment.maximumAllocation) else 0
  {
    hide OpenedSince, Units;
    OpenedByTerms(s.pactEvents, s, r, pathId, since);
    OpenedMore(s.pactEvents, e, r.pacts, pathId, since);
  }

  lemma OpensWhenAccepted(env: Env, s: State, op: Op, now: int)
    ensures Opens(env, s, op, now) <==> op.OpOpenPayment? && CallError(env, s, op, now).None?
  {
    hide OpenPaymentError;
  }

  /** What one call adds to the openings of a Path. */
  lemma StepOpens(env: Env, s: State, op: Op, now: int, pathId: string, since: int)
    requires Labelled(s)
    ensures var r := Step(env, s, op, now);
            OpenedSince(r.pactEvents, r.pacts, pathId, since)
            == OpenedSince(s.pactEvents, s.pacts, pathId, since)
               + if && op.OpOpenPayment? && CallError(env, s, op, now).None? && now >= since && op.pactId in s.pacts
                    && s.pacts[op.pactId].terms.pathId == pathId
                 then Units(op.opening.poolAllocation) else 0
  {
    hide Step, CallError, Opens, OpenedSince, Units, Labelled, TermsStay, LogsNoOpening;
    var r := Step(env, s, op, now);
    OpensWhenAccepted(env, s, op, now);
    StepTermsStay(env, s, op, now);
    if Opens(env, s, op, now) {
      OpeningLogged(env, s, op, now);
      var t := s.pacts[op.pactId].terms;
      OneOpeningMore(s, r, PactEvent(op.pactId, t.workspaceId, PaymentOpenedCanonical, now,
                                     Some(t.payment.maximumAllocation)), pathId, since);
    } else {
      OthersLogNoOpening(env, s, op, now);
      NoOpeningMore(s, r, pathId, since);
    }
  }

  lemma {:induction false} LogTellsPayments(env: Env, run: seq<Event>, pathId: string, since: int)
    ensures var s := Run(env, EMPTY_STATE, run);
            OpenedSince(s.pactEvents, s.pacts, pathId, since) == PaidSince(env, run, pathId, since)
  {
    hide Step, CallError, Units;
    if run != [] {
      var last, earlier := run[|run| - 1], run[..|run| - 1];
      LogTellsPayments(env, earlier, pathId, since);
      RunLabelled(env, earlier);
      hide OpenedSince;
      StepOpens(env, Run(env, EMPTY_STATE, earlier), last.op, last.now, pathId, since);
    }
  }

  lemma OneCounts(s: State, e: PactEvent, path: Path, now: int)
    requires e.kind == PaymentOpenedCanonical ==> LabelledAs(s, e)
    requires forall id :: id in s.pacts && s.pacts[id].terms.pathId == path.pathId ==>
               s.pacts[id].terms.workspaceId == path.workspaceId
    ensures Sum(Filter([e], k => CountsForPeriod(s, path, now, k)), EventAllocation)
            == if && e.kind == PaymentOpenedCanonical && e.at >= now - 1000 * path.limits.periodSeconds
                  && e.pactId in s.pacts && s.pacts[e.pactId].terms.pathId == path.pathId
               then Units(s.pacts[e.pactId].terms.payment.maximumAllocation) else 0
  {
    hide Units;
    assert [e][1..] == [];
  }

  lemma CountsSplit(s: State, events: seq<PactEvent>, e: PactEvent, path: Path, now: int)
    ensures Sum(Filter(events + [e], k => CountsForPeriod(s, path, now, k)), EventAllocation)
            == Sum(Filter(events, k => CountsForPeriod(s, path, now, k)), EventAllocation)
               + Sum(Filter([e], k => CountsForPeriod(s, path, now, k)), EventAllocation)
  {
    hide Sum, Filter, CountsForPeriod;
    Exposure.FilterSplit(events, [e], k => CountsForPeriod(s, path, now, k));
    SumSplit(Filter(events, k => CountsForPeriod(s, path, now, k)), Filter([e], k => CountsForPeriod(s, path, now, k)),
             EventAllocation);
  }

  lemma {:induction false} PeriodOfLog(s: State, events: seq<PactEvent>, path: Path, now: int)
    requires forall i :: 0 <= i < |events| && events[i].kind == PaymentOpenedCanonical ==> LabelledAs(s, events[i])
    requires forall id :: id in s.pacts && s.pacts[id].terms.pathId == path.pathId ==>
               s.pacts[id].terms.workspaceId == path.workspaceId
    ensures Sum(Filter(events, e => CountsForPeriod(s, path, now, e)), EventAllocation)
            == OpenedSince(events, s.pacts, path.pathId, now - 1000 * path.limits.periodSeconds)
  {
    if events != [] {
      hide Sum, Filter, CountsForPeriod, OpenedSince, Units, LabelledAs;
      var init, e := events[..|events| - 1], events[|events| - 1];
      assert events == init + [e];
      PeriodOfLog(s, init, path, now);
      CountsSplit(s, init, e, path, now);
      OneCounts(s, e, path, now);
      OpenedMore(init, e, s.pacts, path.pathId, now - 1000 * path.limits.periodSeconds);
    }
  }

  /**
   * In every run what the evaluator takes as spent in a stored Path's period is what the openings of its Pacts, by the
   * run's accepted calls of the last periodSeconds, were seen to allocate on the chain.
   */
  lemma SpentIsPaid(env: Env, run: seq<Event>, pathId: string, now: int)
    requires pathId in Run(env, EMPTY_STATE, run).paths
    ensures var s := Run(env, EMPTY_STATE, run);
            var path := s.paths[pathId].artifact;
            PeriodSpent(s, path, now) == PaidSince(env, run, pathId, now - 1000 * path.limits.periodSeconds)
  {
    hide Run, Step, PathWellFormed, SameText, OpenedSince, PaidSince, Labelled;
    var s := Run(env, EMPTY_STATE, run);
    var path := s.paths[pathId].artifact;
    ActivationsFormChain(env, run, pathId);
    RunLabelled(env, run);
    LabelsOf(s);
    forall id | id in s.pacts && s.pacts[id].terms.pathId == pathId
      ensures s.pacts[id].terms.workspaceId == path.workspaceId
    {
      PactsRespectTheirPath(env, run, id);
    }
    PeriodOfLog(s, s.pactEvents, path, now);
    LogTellsPayments(env, run, pathId, now - 1000 * path.limits.periodSeconds);
  }

  lemma LabelsOf(s: State)
    requires Labelled(s)
    ensures forall i :: 0 <= i < |s.pactEvents| && s.pactEvents[i].kind == PaymentOpenedCanonical ==>
              LabelledAs(s, s.pactEvents[i])
  {
  }

  // ---- What is reserved --------------------------------------------------------------------------

  /** A stored Pact of the Path that has been signed and is not settled. */
  predicate IsHeld(pacts: map<string, Pact>, pathId: string, id: string) {
    && id in pacts && pacts[id].terms.pathId == pathId
    && pacts[id].status != AwaitingSignatures && pacts[id].status != Settled
  }

  /** What the held Pacts among these allocate. */
  function HeldSum(ids: seq<string>, pacts: map<string, Pact>, pathId: string): nat {
    if ids == [] then 0
    else
      var id := ids[|ids| - 1];
      HeldSum(ids[..|ids| - 1], pacts, pathId)
      + if IsHeld(pacts, pathId, id) then Units(pacts[id].terms.payment.maximumAllocation) else 0
  }

  function Held(pacts: map<string, Pact>, pathId: string): set<string> {
    set id | id in pacts && IsHeld(pacts, pathId, id)
  }

  lemma ReservedIsHeld(s: State, pathId: string, id: string)
    ensures IsReserved(s, pathId, id) <==> IsHeld(s.pacts, pathId, id)
    ensures IsHeld(s.pacts, pathId, id) ==>
              Allocation(s, id) == Units(s.pacts[id].terms.payment.maximumAllocation) && id in s.pacts
  {
    hide Units;
  }

  lemma OneExposed(s: State, id: string, pathId: string)
    ensures Sum(Filter([id], k => IsReserved(s, pathId, k)), k => Allocation(s, k))
            == if IsHeld(s.pacts, pathId, id) then Units(s.pacts[id].terms.payment.maximumAllocation) else 0
  {
    hide Units, IsReserved, IsHeld, Allocation;
    Exposure.ReservedOne(s, id, pathId);
    ReservedIsHeld(s, pathId, id);
  }

  lemma ExposureSplit(s: State, ids: seq<string>, id: string, pathId: string)
    ensures Sum(Filter(ids + [id], k => IsReserved(s, pathId, k)), k => Allocation(s, k))
            == Sum(Filter(ids, k => IsReserved(s, pathId, k)), k => Allocation(s, k))
               + Sum(Filter([id], k => IsReserved(s, pathId, k)), k => Allocation(s, k))
  {
    hide Sum, Filter, IsReserved, Allocation;
    Exposure.FilterSplit(ids, [id], k => IsReserved(s, pathId, k));
    SumSplit(Filter(ids, k => IsReserved(s, pathId, k)), Filter([id], k => IsReserved(s, pathId, k)),
             k => Allocation(s, k));
  }

  lemma HeldMore(ids: seq<string>, id: string, pacts: map<string, Pact>, pathId: string)
    ensures HeldSum(ids + [id], pacts, pathId)
            == HeldSum(ids, pacts, pathId)
               + if IsHeld(pacts, pathId, id) then Units(pacts[id].terms.payment.maximumAllocation) else 0
  {
    hide Units;
    assert (ids + [id])[..|ids|] == ids;
  }

  lemma {:induction false} ExposureIsHeld(s: State, ids: seq<string>, pathId: string)
    ensures Sum(Filter(ids, id => IsReserved(s, pathId, id)), id => Allocation(s, id)) == HeldSum(ids, s.pacts, pathId)
  {
    if ids != [] {
      hide Sum, Filter, HeldSum, Units, IsReserved, IsHeld, Allocation;
      var init, last := ids[..|ids| - 1], ids[|ids| - 1];
      assert ids == init + [last];
      ExposureIsHeld(s, init, pathId);
      ExposureSplit(s, init, last, pathId);
      OneExposed(s, last, pathId);
      HeldMore(init, last, s.pacts, pathId);
    }
  }

  /** A sequence without duplicates is as long as the set of its elements. */
  lemma {:induction false} DistinctLength(ids: seq<string>, all: set<string>)
    requires NoDuplicates(ids) && forall id :: id in ids <==> id in all
    ensures |ids| == |all|
  {
    if ids == [] {
      assert all == {};
    } else {
      var rest := ids[1..];
      assert ids[0] !in rest && ids[0] in ids;
      forall id
        ensures id in rest <==> id in all - {ids[0]}
      {
        assert id in ids <==> id == ids[0] || id in rest;
      }
      DistinctLength(rest, all - {ids[0]});
    }
  }

  lemma CountIsHeld(s: State, pathId: string)
    requires Witness.Listed(s)
    ensures |ActivePacts(s, pathId)| == |Held(s.pacts, pathId)|
  {
    hide IsReserved, IsHeld;
    var active := ActivePacts(s, pathId);
    FilterNoDuplicates(s.pactIds, id => IsReserved(s, pathId, id));
    forall id
      ensures id in active <==> id in Held(s.pacts, pathId)
    {
      ReservedIsHeld(s, pathId, id);
    }
    DistinctLength(active, Held(s.pacts, pathId));
  }

  /** What the evaluator takes a stored Path to carry already, in terms of the run and the stored Pacts. */
  lemma UsageOfRun(env: Env, run: seq<Event>, pathId: string, now: int)
    requires pathId in Run(env, EMPTY_STATE, run).paths
    ensures var s := Run(env, EMPTY_STATE, run);
            var path := s.paths[pathId].artifact;
            && path.pathId == pathId
            && CurrentUsage(s, path, now)
               == Usage(HeldSum(s.pactIds, s.pacts, pathId),
                        PaidSince(env, run, pathId, now - 1000 * path.limits.periodSeconds),
                        |Held(s.pacts, pathId)|)
  {
    hide Run, Step, PaidSince, HeldSum, Held, Witness.Listed, PeriodSpent;
    var s := Run(env, EMPTY_STATE, run);
    PathsKeyedById(env, run);
    Witness.RunListed(env, run);
    SpentIsPaid(env, run, pathId, now);
    CountIsHeld(s, pathId);
    ExposureIsHeld(s, s.pactIds, pathId);
  }

  // ---- What an ALLOW says of a run ---------------------------------------------------------------

  /**
   * In every run the evaluator allows a Proposal exactly when its Workspace and Agent are active, the Agent is assigned
   * to the Path and the action enabled; the stored Path is active now and lists the Agent, the action at its rank, the
   * asset, the evidence plugin and, where it lists any, the counterparty, whose identity meets every requirement; the
   * amounts and the duration are positive and within their limits; and with what the Path's signed, unsettled Pacts
   * allocate, what its openings of the last periodSeconds allocated, and how many Pacts there are, room is left.
   */
  lemma AllowedExactly(env: Env, run: seq<Event>, p: Proposal, identity: Identity, now: int)
    ensures var s := Run(env, EMPTY_STATE, run);
            Allowed(env, s, p, identity, now)
            <==> && p.workspaceId in s.workspaces && s.workspaces[p.workspaceId].active
                 && p.agentId in s.agents && s.agents[p.agentId].status == AgentActive
                 && p.pathId in s.agents[p.agentId].assignedPathIds
                 && p.actionType in env.actions && env.actions[p.actionType].enabled
                 && p.pathId in s.paths
                 && var path := s.paths[p.pathId].artifact;
                 && path.status == PathActive && path.validFrom <= now < path.expiresAt
                 && p.agentId in path.authorizedAgentIds && p.actionType in path.permittedActions
                 && env.actions[p.actionType].minimumRank <= path.authorityRank
                 && (exists i :: 0 <= i < |path.permittedAssets| && Lower(path.permittedAssets[i]) == Lower(p.asset))
                 && (exists i :: 0 <= i < |path.approvedPlugins| && path.approvedPlugins[i].0 == p.evidencePolicyId)
                 && IsUnits(p.allocation) && 0 < Units(p.allocation) <= Units(path.limits.maxPerPact)
                 && IsUnits(p.velocity) && 0 < Units(p.velocity) <= Units(path.limits.maxVelocity)
                 && 0 < p.durationSeconds <= path.limits.maxDurationSeconds
                 && HeldSum(s.pactIds, s.pacts, p.pathId) + Units(p.allocation)
                    <= Units(path.limits.maxActiveExposure)
                 && PaidSince(env, run, p.pathId, now - 1000 * path.limits.periodSeconds) + Units(p.allocation)
                    <= Units(path.limits.maxPerPeriod)
                 && |Held(s.pacts, p.pathId)| < path.limits.maxConcurrentPacts
                 && (path.permittedCounterparties != [] ==>
                       && p.counterparty.Some?
                       && exists i :: 0 <= i < |path.permittedCounterparties|
                                      && Lower(path.permittedCounterparties[i]) == Lower(p.counterparty.value))
                 && (forall i :: 0 <= i < |path.identityRequirements| && path.identityRequirements[i].required ==>
                       && p.counterparty.Some? && identity.Resolved?
                       && (path.identityRequirements[i].dojang ==> identity.verified)
                       && (path.identityRequirements[i].needsName ==> identity.hasName)
                       && (path.identityRequirements[i].needsForwardMatch ==> identity.forwardMatches))
  {
    hide Run, Step, Allowed, AppliesBeforePath, OutsideAuthority, OutsideScope, LimitExceeded, CounterpartyFails,
         CurrentUsage, Units, IsUnits, Lower, HeldSum, PaidSince, Held;
    var s := Run(env, EMPTY_STATE, run);
    AllowedInParts(env, s, p, identity, now);
    StandingMeans(env, s, p);
    if p.pathId in s.paths && p.actionType in env.actions {
      var path := s.paths[p.pathId].artifact;
      UsageOfRun(env, run, p.pathId, now);
      AuthorityMeans(env, path, p, now);
      ScopeMeans(path, p);
      LimitsMean(path.limits, CurrentUsage(s, path, now), Units(p.allocation), Units(p.velocity), p.durationSeconds);
      PartiesMean(path, p, identity);
    }
  }

  // ---- Creating a Pact ---------------------------------------------------------------------------

  /** The first version of the plugin that the Path approves is active, installed for the Workspace, and bound. */
  ghost predicate EvidenceReady(env: Env, s: State, path: Path, pluginId: string, workspaceId: string) {
    exists i :: 0 <= i < |path.approvedPlugins| && path.approvedPlugins[i].0 == pluginId
                && (forall j :: 0 <= j < i ==> path.approvedPlugins[j].0 != pluginId)
                && ReadyPlugin(env, s, path.approvedPlugins[i], workspaceId)
  }

  ghost predicate ReadyPlugin(env: Env, s: State, key: (string, string), workspaceId: string) {
    && key in s.plugins && s.plugins[key].active && workspaceId in s.plugins[key].installedWorkspaceIds
    && key in env.implementations && env.implementations[key] == s.plugins[key].codeDigest
  }

  lemma EvidenceGuard(env: Env, s: State, p: Proposal)
    requires p.pathId in s.paths
    requires PositiveUnits(p.allocation) && PositiveUnits(p.velocity) && p.durationSeconds > 0
    ensures EvidenceError(env, s, p).None?
            <==> EvidenceReady(env, s, s.paths[p.pathId].artifact, p.evidencePolicyId, p.workspaceId)
  {
    hide PositiveUnits, FindPlugin, ReadyPlugin;
    var approved := s.paths[p.pathId].artifact.approvedPlugins;
    PluginFound(approved, p.evidencePolicyId);
    var key := FindPlugin(approved, p.evidencePolicyId);
    if key.Some? { ReadyMeans(env, s, key.value, p.workspaceId); }
    if EvidenceReady(env, s, s.paths[p.pathId].artifact, p.evidencePolicyId, p.workspaceId) {
      var i :| 0 <= i < |approved| && approved[i].0 == p.evidencePolicyId
               && (forall j :: 0 <= j < i ==> approved[j].0 != p.evidencePolicyId)
               && ReadyPlugin(env, s, approved[i], p.workspaceId);
      FirstPlugin(approved, p.evidencePolicyId, i);
    }
  }

  lemma ReadyMeans(env: Env, s: State, key: (string, string), workspaceId: string)
    ensures ReadyPlugin(env, s, key, workspaceId)
            <==> && key in s.plugins && s.plugins[key].active && workspaceId in s.plugins[key].installedWorkspaceIds
                 && key in env.implementations && env.implementations[key] == s.plugins[key].codeDigest
  {
  }

  lemma {:induction false} FirstPlugin(approved: seq<(string, string)>, pluginId: string, i: nat)
    requires i < |approved| && approved[i].0 == pluginId && forall j :: 0 <= j < i ==> approved[j].0 != pluginId
    ensures FindPlugin(approved, pluginId) == Some(approved[i])
  {
    if i > 0 { FirstPlugin(approved[1..], pluginId, i - 1); }
  }

  lemma CreationGuard(env: Env, s: State, r: PactRequest, identity: Identity, now: int)
    ensures CreatePactError(env, s, r, AllowedNow(env, s, r.proposalId, identity, now)).None?
            <==> && r.proposalId in s.proposals && AllowedNow(env, s, r.proposalId, identity, now)
                 && var p := s.proposals[r.proposalId];
                 && p.counterparty.Some? && r.pactId !in s.pacts
                 && p.agentId in s.agents && s.agents[p.agentId].workspaceId == p.workspaceId
                 && p.pathId in s.paths
                 && EvidenceReady(env, s, s.paths[p.pathId].artifact, p.evidencePolicyId, p.workspaceId)
  {
    hide Allowed, EvidenceError, EvidenceReady, PositiveUnits;
    if AllowedNow(env, s, r.proposalId, identity, now) {
      var p := s.proposals[r.proposalId];
      AllowedStanding(env, s, p, identity, now);
      EvidenceGuard(env, s, p);
    }
  }

  lemma AllowedStanding(env: Env, s: State, p: Proposal, identity: Identity, now: int)
    requires Allowed(env, s, p, identity, now)
    ensures p.workspaceId in s.workspaces && s.workspaces[p.workspaceId].active && p.pathId in s.paths
    ensures p.agentId in s.agents && s.agents[p.agentId].status == AgentActive
    ensures PositiveUnits(p.allocation) && PositiveUnits(p.velocity) && p.durationSeconds > 0
  {
    hide Allowed, AppliesBeforePath, OutsideAuthority, OutsideScope, LimitExceeded, CounterpartyFails, CurrentUsage,
         Units, IsUnits, Lower;
    AllowedInParts(env, s, p, identity, now);
    StandingMeans(env, s, p);
    ScopeMeans(s.paths[p.pathId].artifact, p);
  }

  /**
   * In every run a Pact is created exactly from a stored Proposal that is allowed at that moment, with a counterparty
   * and an Agent of its Workspace, under a new identifier, while the first version of its evidence plugin that the
   * Path approves is active, installed for the Workspace and bound to the code it was installed with. It then fits the
   * Path's period together with what the run's accepted openings of that period allocated.
   */
  lemma CreationAcceptedExactly(env: Env, run: seq<Event>, op: Op, now: int)
    requires op.OpCreatePact?
    ensures var s, r := Run(env, EMPTY_STATE, run), op.request;
            CallError(env, s, op, now).None?
            <==> && r.proposalId in s.proposals && r.pactId !in s.pacts
                 && var p := s.proposals[r.proposalId];
                 && Allowed(env, s, p, op.identity, now)
                 && p.counterparty.Some? && p.agentId in s.agents && s.agents[p.agentId].workspaceId == p.workspaceId
                 && p.pathId in s.paths
                 && exists i :: var approved := s.paths[p.pathId].artifact.approvedPlugins;
                                && 0 <= i < |approved| && approved[i].0 == p.evidencePolicyId
                                && (forall j :: 0 <= j < i ==> approved[j].0 != p.evidencePolicyId)
                                && approved[i] in s.plugins && s.plugins[approved[i]].active
                                && p.workspaceId in s.plugins[approved[i]].installedWorkspaceIds
                                && approved[i] in env.implementations
                                && env.implementations[approved[i]] == s.plugins[approved[i]].codeDigest
    ensures var s, r := Run(env, EMPTY_STATE, run), op.request;
            CallError(env, s, op, now).None? ==>
              && r.proposalId in s.proposals
              && var p := s.proposals[r.proposalId];
              && p.pathId in s.paths
              && var limits := s.paths[p.pathId].artifact.limits;
              PaidSince(env, run, p.pathId, now - 1000 * limits.periodSeconds) + Units(p.allocation)
              <= Units(limits.maxPerPeriod)
  {
    hide Run, Step, CreatePactError, Allowed, Units, IsUnits, Lower, PaidSince, HeldSum, Held;
    var s, r := Run(env, EMPTY_STATE, run), op.request;
    CreationGuard(env, s, r, op.identity, now);
    if r.proposalId in s.proposals { AllowedExactly(env, run, s.proposals[r.proposalId], op.identity, now); }
  }
}
