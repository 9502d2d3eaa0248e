// What every run does with checkpoints and Gaia cases, and exactly when they leave a Pact that was never opened
// completed, disputed or up for rectification.
module KernelCases {
  import opened Prelude
  import opened KernelTypes
  import opened Policy
  import opened KernelOps
  import opened KernelSafety
  import opened KernelFrames
  import Lifecycle = KernelLifecycle

  // ---- Who changes checkpoints and cases ---------------------------------------------------------

  lemma SigningKeepsCases(env: Env, s: State, op: Op, now: int)
    requires op.OpSignPact?
    ensures SameCases(s, Step(env, s, op, now))
  {
    hide Step, SignPactError, SignPact, SameTerms, SameBindings, SameNonces;
    SignPactStep(env, s, op, now);
    if op.pactId in s.pacts && s.pacts[op.pactId].terms.workspaceId in s.workspaces {
      SignPactFrame(s, op.pactId, op.signer, op.signature, now);
    }
  }

  lemma CreatingKeepsCases(env: Env, s: State, op: Op, now: int)
    requires op.OpCreatePact?
    ensures SameCases(s, Step(env, s, op, now))
  {
    hide Step, CreatePactError, NewPact, AllowedNow, AppendKey;
    CreatePactStep(env, s, op, now);
  }

  lemma PayingKeepsCases(env: Env, s: State, op: Op, now: int)
    requires op.OpPreparePayment? || op.OpOpenPayment? || op.OpRecordSettlement?
    ensures SameCases(s, Step(env, s, op, now))
  {
    hide Step, PreparePaymentError, OpenPaymentError, RecordSettlementError, Prepared, Opened, SettledWith;
    match op
    case OpPreparePayment(_, _) => PreparePaymentStep(env, s, op, now);
    case OpOpenPayment(_, _, _, _, _) => OpenPaymentStep(env, s, op, now);
    case OpRecordSettlement(_, _, _, _) => RecordSettlementStep(env, s, op, now);
    case _ =>
  }

  /** Only submitting stores a checkpoint, and only opening and resolving write a case. */
  lemma CasesFrame(env: Env, s: State, op: Op, now: int)
    ensures !op.OpSubmitCheckpoint? ==> Step(env, s, op, now).checkpoints == s.checkpoints
    ensures !op.OpOpenGaiaCase? && !op.OpResolveGaiaCase? ==> Step(env, s, op, now).gaiaCases == s.gaiaCases
  {
    hide Step, SubmitCheckpointError, VerifyCheckpointError, OpenGaiaCaseError, ResolveGaiaCaseError, Checkpointed,
         Verified, Rectified, SameRegistry;
    match op
    case OpSubmitCheckpoint(_, _) => SubmitCheckpointStep(env, s, op, now);
    case OpVerifyCheckpoint(_, _, _) => VerifyCheckpointStep(env, s, op, now);
    case OpOpenGaiaCase(_, _) => OpenGaiaCaseStep(env, s, op, now);
    case OpResolveGaiaCase(_, _, _, _, _) => ResolveGaiaCaseStep(env, s, op, now);
    case OpSignPact(_, _, _) => SigningKeepsCases(env, s, op, now);
    case OpCreatePact(_, _) => CreatingKeepsCases(env, s, op, now);
    case OpPreparePayment(_, _) => PayingKeepsCases(env, s, op, now);
    case OpOpenPayment(_, _, _, _, _) => PayingKeepsCases(env, s, op, now);
    case OpRecordSettlement(_, _, _, _) => PayingKeepsCases(env, s, op, now);
    case _ => RegistryStepFrame(env, s, op, now);
  }

  // ---- Checkpoints -------------------------------------------------------------------------------

  /** The checkpoints of a Pact carry the indices 1, 2, ..., n, each once. */
  ghost predicate Numbered(s: State, id: string) {
    && (forall k :: k in CheckpointIds(s, id) ==> 1 <= s.checkpoints[k].index <= |CheckpointIds(s, id)|)
    && DistinctIndices(s, id)
    && (forall i :: 1 <= i <= |CheckpointIds(s, id)| ==> IndexTaken(s, id, i))
  }

  ghost predicate DistinctIndices(s: State, id: string) {
    forall k, l | k in CheckpointIds(s, id) && l in CheckpointIds(s, id) ::
      s.checkpoints[k].index == s.checkpoints[l].index ==> k == l
  }

  ghost predicate IndexTaken(s: State, id: string, i: int) {
    exists k :: k in CheckpointIds(s, id) && s.checkpoints[k].index == i
  }

  lemma OneMoreCheckpoint(s: State, r: State, c: Checkpoint)
    requires Numbered(s, c.pactId) && c.checkpointId !in s.checkpoints
    requires c.index == |CheckpointIds(s, c.pactId)| + 1 && r.checkpoints == s.checkpoints[c.checkpointId := c]
    ensures Numbered(r, c.pactId)
  {
    hide IndexTaken, CheckpointIds, DistinctIndices;
    OneMoreId(s, r, c);
    OneMoreIndex(s, r, c);
    forall k | k in CheckpointIds(r, c.pactId)
      ensures 1 <= r.checkpoints[k].index <= c.index
    {}
    forall i | 1 <= i <= c.index
      ensures IndexTaken(r, c.pactId, i)
    {
      IndexStaysTaken(s, r, c, i);
    }
  }

  lemma OneMoreIndex(s: State, r: State, c: Checkpoint)
    requires Numbered(s, c.pactId) && c.checkpointId !in s.checkpoints
    requires c.index == |CheckpointIds(s, c.pactId)| + 1 && r.checkpoints == s.checkpoints[c.checkpointId := c]
    ensures DistinctIndices(r, c.pactId)
  {
    hide IndexTaken, CheckpointIds;
    OneMoreId(s, r, c);
    forall k, l | k in CheckpointIds(r, c.pactId) && l in CheckpointIds(r, c.pactId)
                  && r.checkpoints[k].index == r.checkpoints[l].index
      ensures k == l
    {}
  }

  lemma OneMoreId(s: State, r: State, c: Checkpoint)
    requires c.checkpointId !in s.checkpoints && r.checkpoints == s.checkpoints[c.checkpointId := c]
    ensures CheckpointIds(r, c.pactId) == CheckpointIds(s, c.pactId) + {c.checkpointId}
    ensures forall k :: k in CheckpointIds(s, c.pactId) ==> k != c.checkpointId && k in s.checkpoints
    ensures |CheckpointIds(r, c.pactId)| == |CheckpointIds(s, c.pactId)| + 1
  {
    var before, after := CheckpointIds(s, c.pactId), CheckpointIds(r, c.pactId);
    forall k
      ensures k in after <==> k in before || k == c.checkpointId
    {
      assert k in r.checkpoints <==> k in s.checkpoints || k == c.checkpointId;
    }
    hide CheckpointIds;
    assert after == before + {c.checkpointId};
  }

  lemma IndexStaysTaken(s: State, r: State, c: Checkpoint, i: int)
    requires c.checkpointId !in s.checkpoints && r.checkpoints == s.checkpoints[c.checkpointId := c]
    requires i == c.index || IndexTaken(s, c.pactId, i)
    ensures IndexTaken(r, c.pactId, i)
  {
    var k := c.checkpointId;
    if i != c.index {
      k :| k in CheckpointIds(s, c.pactId) && s.checkpoints[k].index == i;
    }
    assert k in CheckpointIds(r, c.pactId) && r.checkpoints[k].index == i;
  }

  lemma SameCheckpoints(s: State, r: State, id: string)
    requires Numbered(s, id)
    requires forall k :: k in r.checkpoints && r.checkpoints[k].pactId == id ==>
               k in s.checkpoints && s.checkpoints[k] == r.checkpoints[k]
    requires forall k :: k in s.checkpoints && s.checkpoints[k].pactId == id ==>
               k in r.checkpoints && s.checkpoints[k] == r.checkpoints[k]
    ensures Numbered(r, id)
  {
    assert CheckpointIds(r, id) == CheckpointIds(s, id);
    forall i | 1 <= i <= |CheckpointIds(r, id)|
      ensures IndexTaken(r, id, i)
    {
      assert IndexTaken(s, id, i);
    }
  }

  lemma SubmissionNumbered(env: Env, s: State, op: Op, now: int, id: string)
    requires op.OpSubmitCheckpoint? && Numbered(s, id)
    ensures Numbered(Step(env, s, op, now), id)
  {
    hide Step, Numbered, SubmitCheckpointError, Checkpointed, CheckpointIds;
    SubmitCheckpointStep(env, s, op, now);
    var r := Step(env, s, op, now);
    if SubmitCheckpointError(env, s, op.checkpoint, op.signature, now).None? {
      SubmitCheckpointTarget(env, s, op.checkpoint, op.signature, now);
      if op.checkpoint.pactId == id {
        OneMoreCheckpoint(s, r, op.checkpoint);
      } else {
        SameCheckpoints(s, r, id);
      }
    }
  }

  /** In every run the checkpoints accepted for a Pact are numbered 1, 2, 3, ... without a gap or a repeat. */
  lemma {:induction false} CheckpointsAreNumbered(env: Env, run: seq<Event>, id: string)
    ensures Numbered(Run(env, EMPTY_STATE, run), id)
  {
    hide Step, CheckpointIds;
    if run == [] {
      NoCheckpoints(id);
    } else {
      hide Numbered;
      var last, earlier := run[|run| - 1], run[..|run| - 1];
      var s := Run(env, EMPTY_STATE, earlier);
      CheckpointsAreNumbered(env, earlier, id);
      if last.op.OpSubmitCheckpoint? {
        SubmissionNumbered(env, s, last.op, last.now, id);
      } else {
        CasesFrame(env, s, last.op, last.now);
        SameCheckpoints(s, Run(env, EMPTY_STATE, run), id);
      }
    }
  }

  lemma NoCheckpoints(id: string)
    ensures Numbered(EMPTY_STATE, id)
  {
    assert CheckpointIds(EMPTY_STATE, id) == {};
  }

  // ---- Gaia cases --------------------------------------------------------------------------------

  ghost predicate Rules(env: Env, s: State, op: Op, now: int, caseId: string) {
    && op.OpResolveGaiaCase? && op.caseId == caseId
    && ResolveGaiaCaseError(env, s, caseId, op.resolver, op.decision, op.command, op.signature, now).None?
  }

  /** The decisions that resolvers have taken on a case, by accepted calls of a run. */
  ghost function Rulings(env: Env, run: seq<Event>, caseId: string): seq<GaiaDecision> {
    if run == [] then []
    else
      var last, earlier := run[|run| - 1], run[..|run| - 1];
      Rulings(env, earlier, caseId)
      + if Rules(env, Run(env, EMPTY_STATE, earlier), last.op, last.now, caseId) then [last.op.decision] else []
  }

  /** What each decision leaves a case as. */
  function Ruled(decision: GaiaDecision): GaiaStatus {
    match decision
    case ReplacementPact => GaiaRectification
    case CompensatingPact => GaiaRectification
    case CloseAndReturnResidual => GaiaRectification
    case Dismiss => GaiaDismissed
    case OtherDecision => GaiaResolvedStatus
  }

  ghost predicate StandsAs(s: State, rulings: seq<GaiaDecision>, caseId: string) {
    if caseId in s.gaiaCases then
      s.gaiaCases[caseId].status == if rulings == [] then GaiaOpen else Ruled(rulings[|rulings| - 1])
    else rulings == []
  }

  lemma RulingStands(env: Env, s: State, op: Op, now: int, rulings: seq<GaiaDecision>, caseId: string)
    requires op.OpResolveGaiaCase? && StandsAs(s, rulings, caseId)
    ensures StandsAs(Step(env, s, op, now),
                     rulings + if Rules(env, s, op, now, caseId) then [op.decision] else [], caseId)
  {
    hide Step, ResolveGaiaCaseError, Rectified, SameRegistry;
    ResolveGaiaCaseStep(env, s, op, now);
  }

  lemma ClaimStands(env: Env, s: State, op: Op, now: int, rulings: seq<GaiaDecision>, caseId: string)
    requires op.OpOpenGaiaCase? && StandsAs(s, rulings, caseId)
    ensures StandsAs(Step(env, s, op, now), rulings, caseId)
  {
    hide Step, PactIntact, SameText;
    OpenGaiaCaseStep(env, s, op, now);
  }

  /**
   * In every run a Gaia case is open exactly until a resolver first rules on it, and then stands as the last ruling
   * left it: the kernel does not refuse a second ruling.
   */
  lemma {:induction false} CasesStandAsRuled(env: Env, run: seq<Event>, caseId: string)
    ensures StandsAs(Run(env, EMPTY_STATE, run), Rulings(env, run, caseId), caseId)
  {
    hide Step, ResolveGaiaCaseError, ResolvedStatus;
    if run != [] {
      var last, earlier := run[|run| - 1], run[..|run| - 1];
      var s, rulings := Run(env, EMPTY_STATE, earlier), Rulings(env, earlier, caseId);
      CasesStandAsRuled(env, earlier, caseId);
      assert rulings + [] == rulings;
      if last.op.OpResolveGaiaCase? {
        RulingStands(env, s, last.op, last.now, rulings, caseId);
      } else if last.op.OpOpenGaiaCase? {
        ClaimStands(env, s, last.op, last.now, rulings, caseId);
      } else {
        CasesFrame(env, s, last.op, last.now);
      }
    }
  }

  // ---- Pacts that were never opened --------------------------------------------------------------

  predicate BeforeOpening(status: PactStatus) {
    status in {AwaitingSignatures, Accepted, PaymentPrepared, AwaitingWallet}
  }

  /** Completed, disputed or up for rectification without an opening. */
  ghost predicate Unopened(pact: Pact) {
    pact.status in {Completed, Disputed, RectificationRequired} && !HasOpening(pact)
  }

  /** The call opens a Gaia case on a Pact whose opening is still to come, and is accepted. */
  ghost predicate DisputesEarly(env: Env, s: State, op: Op, now: int, id: string) {
    && op.OpOpenGaiaCase? && op.gaia.pactId == id && id in s.pacts && BeforeOpening(s.pacts[id].status)
    && OpenGaiaCaseError(env, s, op.gaia, op.signature, now).None?
  }

  ghost predicate DisputedEarly(env: Env, run: seq<Event>, id: string) {
    run != [] &&
      var last, earlier := run[|run| - 1], run[..|run| - 1];
      DisputedEarly(env, earlier, id) || DisputesEarly(env, Run(env, EMPTY_STATE, earlier), last.op, last.now, id)
  }

  /** Checkpoints and cases are about Pacts that have left the statuses before the opening. */
  ghost predicate Late(s: State) {
    && (forall k :: k in s.checkpoints ==> LateOn(s, s.checkpoints[k].pactId))
    && (forall k :: k in s.gaiaCases ==> LateOn(s, s.gaiaCases[k].pactId))
  }

  ghost predicate LateOn(s: State, id: string) {
    id in s.pacts && !BeforeOpening(s.pacts[id].status)
  }

  /** No Pact returns to a status before the opening. */
  lemma LateStaysLate(env: Env, s: State, op: Op, now: int, id: string)
    requires LateOn(s, id)
    ensures LateOn(Step(env, s, op, now), id)
  {
    hide Step;
    Lifecycle.StepAdvances(env, s, op, now, id);
  }

  lemma SubmittedLate(env: Env, s: State, op: Op, now: int)
    requires op.OpSubmitCheckpoint? && SubmitCheckpointError(env, s, op.checkpoint, op.signature, now).None?
    ensures LateOn(s, op.checkpoint.pactId)
    ensures Step(env, s, op, now).checkpoints == s.checkpoints[op.checkpoint.checkpointId := op.checkpoint]
  {
    hide Step, SubmitCheckpointError, Checkpointed;
    SubmitCheckpointTarget(env, s, op.checkpoint, op.signature, now);
    SubmitCheckpointStep(env, s, op, now);
  }

  lemma ClaimedLate(env: Env, s: State, op: Op, now: int)
    requires op.OpOpenGaiaCase? && OpenGaiaCaseError(env, s, op.gaia, op.signature, now).None?
    ensures LateOn(Step(env, s, op, now), op.gaia.pactId)
    ensures Step(env, s, op, now).gaiaCases == s.gaiaCases[op.gaia.caseId := op.gaia.(status := GaiaOpen)]
  {
    hide Step, OpenGaiaCaseError;
    OpenGaiaCaseStep(env, s, op, now);
  }

  lemma RuledCases(env: Env, s: State, op: Op, now: int)
    requires op.OpResolveGaiaCase?
    ensures var r := Step(env, s, op, now);
            forall k :: k in r.gaiaCases ==> k in s.gaiaCases && r.gaiaCases[k].pactId == s.gaiaCases[k].pactId
  {
    hide Step, ResolveGaiaCaseError, Rectified, ResolvedStatus, SameRegistry;
    ResolveGaiaCaseStep(env, s, op, now);
  }

  lemma StepLate(env: Env, s: State, op: Op, now: int)
    requires Late(s)
    ensures Late(Step(env, s, op, now))
  {
    hide Step, LateOn, SubmitCheckpointError, OpenGaiaCaseError;
    var r := Step(env, s, op, now);
    CasesFrame(env, s, op, now);
    if op.OpSubmitCheckpoint? {
      SubmitCheckpointStep(env, s, op, now);
      if SubmitCheckpointError(env, s, op.checkpoint, op.signature, now).None? { SubmittedLate(env, s, op, now); }
    } else if op.OpOpenGaiaCase? {
      OpenGaiaCaseStep(env, s, op, now);
      if OpenGaiaCaseError(env, s, op.gaia, op.signature, now).None? { ClaimedLate(env, s, op, now); }
    } else if op.OpResolveGaiaCase? {
      RuledCases(env, s, op, now);
    }
    forall id | LateOn(s, id)
      ensures LateOn(r, id)
    {
      LateStaysLate(env, s, op, now, id);
    }
  }

  /** A Pact has no opening while that is still to come, or when it was left without one. */
  lemma OpeningByStatus(env: Env, s: State, id: string)
    requires Sound(env, s) && id in s.pacts
    ensures !HasOpening(s.pacts[id]) <==> BeforeOpening(s.pacts[id].status) || Unopened(s.pacts[id])
  {
    hide Sound, PactIntact, SignaturesGenuine, FullySigned, PaymentConsistent;
    SoundPact(env, s, id);
    match s.pacts[id].status
    case Active =>
    case Performing =>
    case Settled =>
    case _ =>
  }

  lemma ClaimDisputes(env: Env, s: State, op: Op, now: int)
    requires op.OpOpenGaiaCase?
    ensures var id := op.gaia.pactId;
            if OpenGaiaCaseError(env, s, op.gaia, op.signature, now).Some? then Step(env, s, op, now).pacts == s.pacts
            else && id in s.pacts
                 && Step(env, s, op, now).pacts
                    == s.pacts[id := s.pacts[id].(status := Disputed, revision := s.pacts[id].revision + 1)]
  {
    hide Step, OpenGaiaCaseError;
    OpenGaiaCaseStep(env, s, op, now);
  }

  lemma ClaimUnopens(env: Env, s: State, op: Op, now: int, id: string)
    requires op.OpOpenGaiaCase? && Sound(env, s) && id in s.pacts
    ensures var r := Step(env, s, op, now);
            id in r.pacts
            && (Unopened(r.pacts[id]) <==> Unopened(s.pacts[id]) || DisputesEarly(env, s, op, now, id))
  {
    hide Step, OpenGaiaCaseError, Sound;
    ClaimDisputes(env, s, op, now);
    OpeningByStatus(env, s, id);
  }

  lemma VerdictUnopens(env: Env, s: State, op: Op, now: int, id: string)
    requires op.OpVerifyCheckpoint? && Sound(env, s) && Late(s) && id in s.pacts
    ensures var r := Step(env, s, op, now);
            id in r.pacts && (Unopened(r.pacts[id]) <==> Unopened(s.pacts[id]))
  {
    hide Step, VerifyCheckpointError, Sound, PaymentBinding;
    VerifyCheckpointStep(env, s, op, now);
    OpeningByStatus(env, s, id);
  }

  lemma RulingUnopens(env: Env, s: State, op: Op, now: int, id: string)
    requires op.OpResolveGaiaCase? && Sound(env, s) && Late(s) && id in s.pacts
    ensures var r := Step(env, s, op, now);
            id in r.pacts && (Unopened(r.pacts[id]) <==> Unopened(s.pacts[id]))
  {
    hide Step, ResolveGaiaCaseError, Sound, PaymentBinding, SameRegistry, NextNonce;
    ResolveGaiaCaseStep(env, s, op, now);
    OpeningByStatus(env, s, id);
  }

  lemma SettlementUnopens(env: Env, s: State, op: Op, now: int, id: string)
    requires op.OpRecordSettlement? && id in s.pacts
    ensures var r := Step(env, s, op, now);
            id in r.pacts && (Unopened(r.pacts[id]) <==> Unopened(s.pacts[id]))
  {
    hide Step, RecordSettlementError, PaymentBinding, HasSettlement;
    RecordSettlementStep(env, s, op, now);
    if RecordSettlementError(env, s, op.pactId, op.txHash, op.amount, op.settlement).None? {
      RecordSettlementTarget(env, s, op.pactId, op.txHash, op.amount, op.settlement);
    }
  }

  lemma StepUnopens(env: Env, s: State, op: Op, now: int, id: string)
    requires Sound(env, s) && Late(s) && id in s.pacts
    ensures var r := Step(env, s, op, now);
            id in r.pacts
            && (Unopened(r.pacts[id]) <==> Unopened(s.pacts[id]) || DisputesEarly(env, s, op, now, id))
  {
    hide Step, Sound, Late, HasOpening, OpenGaiaCaseError;
    match op
    case OpOpenGaiaCase(_, _) => ClaimUnopens(env, s, op, now, id);
    case OpVerifyCheckpoint(_, _, _) => VerdictUnopens(env, s, op, now, id);
    case OpResolveGaiaCase(_, _, _, _, _) => RulingUnopens(env, s, op, now, id);
    case OpRecordSettlement(_, _, _, _) => SettlementUnopens(env, s, op, now, id);
    case OpPreparePayment(_, _) => Lifecycle.StepAdvances(env, s, op, now, id);
    case OpOpenPayment(_, _, _, _, _) => Lifecycle.StepAdvances(env, s, op, now, id);
    case _ =>
      Lifecycle.StepAdvances(env, s, op, now, id);
      OpeningByStatus(env, s, id);
      SameOpening(s.pacts[id], Step(env, s, op, now).pacts[id]);
  }

  lemma SameOpening(p: Pact, q: Pact)
    requires q.openRails == p.openRails
    ensures HasOpening(q) <==> HasOpening(p)
  {
  }

  lemma {:induction false} RunLate(env: Env, run: seq<Event>)
    ensures Late(Run(env, EMPTY_STATE, run))
  {
    hide Step, LateOn;
    if run != [] {
      var last, earlier := run[|run| - 1], run[..|run| - 1];
      RunLate(env, earlier);
      StepLate(env, Run(env, EMPTY_STATE, earlier), last.op, last.now);
    }
  }

  /**
   * In every run a Pact is completed, disputed or up for rectification without ever having been opened exactly when a
   * Gaia case was accepted on it while it still awaited signatures, was accepted, or had its payment prepared.
   */
  lemma {:induction false} UnopenedExactlyAfterEarlyCase(env: Env, run: seq<Event>, id: string)
    ensures var pacts := Run(env, EMPTY_STATE, run).pacts;
            DisputedEarly(env, run, id) <==> id in pacts && Unopened(pacts[id])
  {
    hide Step, DisputesEarly, Sound, HasOpening, Late;
    if run != [] {
      var last, earlier := run[|run| - 1], run[..|run| - 1];
      var s := Run(env, EMPTY_STATE, earlier);
      UnopenedExactlyAfterEarlyCase(env, earlier, id);
      RunLate(env, earlier);
      RunSoundFromEmpty(env, earlier);
      if id in s.pacts {
        StepUnopens(env, s, last.op, last.now, id);
      } else {
        EarlyOnStored(env, s, last.op, last.now, id);
        if id in Run(env, EMPTY_STATE, run).pacts { Lifecycle.BornAwaiting(env, s, last.op, last.now, id); }
      }
    }
  }

  lemma EarlyOnStored(env: Env, s: State, op: Op, now: int, id: string)
    ensures DisputesEarly(env, s, op, now, id) ==> id in s.pacts
  {
    hide OpenGaiaCaseError;
  }

  /** An accepted verification completes a Pact that has no opening exactly when a caller can see that it will. */
  lemma CompletesUnopened(env: Env, s: State, op: Op, now: int)
    requires op.OpVerifyCheckpoint? && VerifyCheckpointError(env, s, op.checkpointId, op.key, op.verdict).None?
    ensures op.checkpointId in s.checkpoints && s.checkpoints[op.checkpointId].pactId in s.pacts
    ensures var c, r := s.checkpoints[op.checkpointId], Step(env, s, op, now);
            var p := s.pacts[c.pactId];
            && c.pactId in r.pacts
            && (r.pacts[c.pactId] == p.(status := Completed, revision := p.revision + 1)
                && !HasOpening(r.pacts[c.pactId])
                <==> !HasOpening(p) && op.verdict == Some(Approved) && c.completes)
  {
    hide Step, VerifyCheckpointError, PaymentBinding;
    VerifyCheckpointTarget(env, s, op.checkpointId, op.key, op.verdict);
    VerifyCheckpointStep(env, s, op, now);
  }
}
