// The life of a Pact: which operation moves it between which statuses, and what its revision counts.
module KernelLifecycle {
  import opened Prelude
  import opened KernelTypes
  import opened Policy
  import opened KernelOps
  import opened KernelSafety
  import opened KernelFrames

  /** The status changes that each operation makes, over all its uses. */
  predicate Moves(op: Op, from: PactStatus, to: PactStatus) {
    match op
    case OpSignPact(_, _, _) => from == AwaitingSignatures && to == Accepted
    case OpPreparePayment(_, _) => from in {Accepted, PaymentPrepared, AwaitingWallet} && to == PaymentPrepared
    case OpOpenPayment(_, _, _, _, _) => from in {PaymentPrepared, AwaitingWallet} && to == Active
    case OpSubmitCheckpoint(_, _) =>
      from in {Active, Performing, Disputed} && to == if from == Active then Performing else from
    case OpVerifyCheckpoint(_, _, verdict) =>
      (verdict == Some(Rejected) && to == Disputed) || (verdict == Some(Approved) && to == Completed)
    case OpOpenGaiaCase(_, _) => to == Disputed
    case OpResolveGaiaCase(_, _, decision, _, _) =>
      to == if decision in {ReplacementPact, CompensatingPact, CloseAndReturnResidual} then RectificationRequired
            else from
    case OpRecordSettlement(_, _, _, settlement) => to == if settlement.final then Settled else from
    case _ => false
  }

  /** Operations that write a Pact's payment record. */
  predicate WritesPayment(op: Op) {
    op.OpPreparePayment? || op.OpOpenPayment? || op.OpRecordSettlement?
  }

  /** A Pact is left as it is, or moves along one edge and counts one revision. */
  ghost predicate Advances(op: Op, p: Pact, q: Pact) {
    q == p || (&& q.revision == p.revision + 1 && Moves(op, p.status, q.status)
               && q.terms == p.terms && q.termsHash == p.termsHash
               && (!WritesPayment(op) ==> q.openRails == p.openRails))
  }

  ghost predicate AdvancesAt(op: Op, s: State, r: State, id: string) {
    id in s.pacts ==>
      && id in r.pacts && Advances(op, s.pacts[id], r.pacts[id])
      && (!op.OpSignPact? ==> SignaturesOf(r, id) == SignaturesOf(s, id))
  }

  lemma SignAdvances(env: Env, s: State, op: Op, now: int, id: string)
    requires op.OpSignPact?
    ensures AdvancesAt(op, s, Step(env, s, op, now), id)
  {
    hide Step, SignPactError, FindSignature, SignedBy, SameText, PaymentBinding;
    SignPactStep(env, s, op, now);
    if SignPactError(env, s, op.pactId, op.signer, op.signature).None? {
      SignPactTarget(env, s, op.pactId, op.signer, op.signature);
    }
  }

  lemma PrepareAdvances(env: Env, s: State, op: Op, now: int, id: string)
    requires op.OpPreparePayment?
    ensures AdvancesAt(op, s, Step(env, s, op, now), id)
  {
    hide Step, PreparePaymentError, Eligible;
    PreparePaymentStep(env, s, op, now);
    if PreparePaymentError(env, s, op.pactId, op.preparation, now).None? {
      PreparePaymentTarget(env, s, op.pactId, op.preparation, now);
    }
  }

  lemma OpenAdvances(env: Env, s: State, op: Op, now: int, id: string)
    requires op.OpOpenPayment?
    ensures AdvancesAt(op, s, Step(env, s, op, now), id)
  {
    hide Step, OpenPaymentError, Eligible;
    OpenPaymentStep(env, s, op, now);
    if OpenPaymentError(env, s, op.pactId, op.metadataHash, op.paycardId, op.txHash, op.opening, now).None? {
      OpenPaymentTarget(env, s, op.pactId, op.metadataHash, op.paycardId, op.txHash, op.opening, now);
    }
  }

  lemma SettlementAdvances(env: Env, s: State, op: Op, now: int, id: string)
    requires op.OpRecordSettlement?
    ensures AdvancesAt(op, s, Step(env, s, op, now), id)
  {
    hide Step, RecordSettlementError, PaymentBinding, HasSettlement;
    RecordSettlementStep(env, s, op, now);
    if RecordSettlementError(env, s, op.pactId, op.txHash, op.amount, op.settlement).None? {
      RecordSettlementTarget(env, s, op.pactId, op.txHash, op.amount, op.settlement);
    }
  }

  lemma CheckpointAdvances(env: Env, s: State, op: Op, now: int, id: string)
    requires op.OpSubmitCheckpoint?
    ensures AdvancesAt(op, s, Step(env, s, op, now), id)
  {
    hide Step, SubmitCheckpointError, CheckpointIds, PaymentBinding;
    SubmitCheckpointStep(env, s, op, now);
    if SubmitCheckpointError(env, s, op.checkpoint, op.signature, now).None? {
      SubmitCheckpointTarget(env, s, op.checkpoint, op.signature, now);
    }
  }

  lemma VerdictAdvances(env: Env, s: State, op: Op, now: int, id: string)
    requires op.OpVerifyCheckpoint?
    ensures AdvancesAt(op, s, Step(env, s, op, now), id)
  {
    hide Step, VerifyCheckpointError, PaymentBinding;
    VerifyCheckpointStep(env, s, op, now);
    if VerifyCheckpointError(env, s, op.checkpointId, op.key, op.verdict).None? {
      VerifyCheckpointTarget(env, s, op.checkpointId, op.key, op.verdict);
    }
  }

  lemma CaseAdvances(env: Env, s: State, op: Op, now: int, id: string)
    requires op.OpOpenGaiaCase?
    ensures AdvancesAt(op, s, Step(env, s, op, now), id)
  {
    hide Step, OpenGaiaCaseError;
    OpenGaiaCaseStep(env, s, op, now);
    if OpenGaiaCaseError(env, s, op.gaia, op.signature, now).None? {
      OpenGaiaCaseTarget(env, s, op.gaia, op.signature, now);
    }
  }

  lemma ResolutionAdvances(env: Env, s: State, op: Op, now: int, id: string)
    requires op.OpResolveGaiaCase?
    ensures AdvancesAt(op, s, Step(env, s, op, now), id)
  {
    hide Step, ResolveGaiaCaseError, PaymentBinding, NextNonce, SameRegistry;
    ResolveGaiaCaseStep(env, s, op, now);
    if ResolveGaiaCaseError(env, s, op.caseId, op.resolver, op.decision, op.command, op.signature, now).None? {
      ResolveGaiaCaseTarget(env, s, op.caseId, op.resolver, op.decision, op.command, op.signature, now);
    }
  }

  lemma CreationAdvances(env: Env, s: State, op: Op, now: int, id: string)
    requires op.OpCreatePact?
    ensures AdvancesAt(op, s, Step(env, s, op, now), id)
  {
    hide Step, CreatePactError, NewPact, AllowedNow, AppendKey;
    CreatePactStep(env, s, op, now);
    if Step(env, s, op, now) != s { NewPactBinding(env, s, op.request, now); }
  }

  /** Every step, of whatever operation, leaves a Pact alone or moves it along an edge of its operation. */
  lemma StepAdvances(env: Env, s: State, op: Op, now: int, id: string)
    ensures AdvancesAt(op, s, Step(env, s, op, now), id)
  {
    hide Step, Moves, NewPact, CreatePactError, AllowedNow;
    match op
    case OpSignPact(_, _, _) => SignAdvances(env, s, op, now, id);
    case OpPreparePayment(_, _) => PrepareAdvances(env, s, op, now, id);
    case OpOpenPayment(_, _, _, _, _) => OpenAdvances(env, s, op, now, id);
    case OpRecordSettlement(_, _, _, _) => SettlementAdvances(env, s, op, now, id);
    case OpSubmitCheckpoint(_, _) => CheckpointAdvances(env, s, op, now, id);
    case OpVerifyCheckpoint(_, _, _) => VerdictAdvances(env, s, op, now, id);
    case OpOpenGaiaCase(_, _) => CaseAdvances(env, s, op, now, id);
    case OpResolveGaiaCase(_, _, _, _, _) => ResolutionAdvances(env, s, op, now, id);
    case OpCreatePact(request, _) => CreationAdvances(env, s, op, now, id);
    case _ => RegistryStepFrame(env, s, op, now);
  }

  lemma NewPactBinding(env: Env, s: State, r: PactRequest, now: int)
    requires CreatePactError(env, s, r, true).None?
    ensures r.pactId !in s.pacts && NewPact(env, s, r, now).revision == 1
    ensures NewPact(env, s, r, now).status == AwaitingSignatures
  {
    hide FindPlugin, CurrentUsage;
  }

  // ---- What an accepted call does ----------------------------------------------------------------

  /** The Pact that a call is about. */
  function TargetOf(s: State, op: Op): Option<string> {
    match op
    case OpSignPact(id, _, _) => Some(id)
    case OpPreparePayment(id, _) => Some(id)
    case OpOpenPayment(id, _, _, _, _) => Some(id)
    case OpRecordSettlement(id, _, _, _) => Some(id)
    case OpSubmitCheckpoint(c, _) => Some(c.pactId)
    case OpVerifyCheckpoint(k, _, _) => if k in s.checkpoints then Some(s.checkpoints[k].pactId) else None
    case OpOpenGaiaCase(g, _) => Some(g.pactId)
    case OpResolveGaiaCase(k, _, _, _, _) => if k in s.gaiaCases then Some(s.gaiaCases[k].pactId) else None
    case _ => None
  }

  /** The status that an accepted call leaves its Pact in, and whether that counts as a revision. */
  ghost function After(s: State, r: State, op: Op, pact: Pact): (PactStatus, bool) {
    match op
    case OpSignPact(id, _, _) =>
      if pact.status == AwaitingSignatures && FullySigned(pact, SignaturesOf(r, id)) then (Accepted, true)
      else (pact.status, false)
    case OpPreparePayment(_, _) => (PaymentPrepared, true)
    case OpOpenPayment(_, _, _, _, _) => (Active, true)
    case OpRecordSettlement(_, _, _, o) => (if o.final then Settled else pact.status, true)
    case OpSubmitCheckpoint(_, _) => (if pact.status == Active then Performing else pact.status, true)
    case OpVerifyCheckpoint(k, _, verdict) =>
      if verdict == Some(Rejected) then (Disputed, true)
      else if verdict == Some(Approved) && k in s.checkpoints && s.checkpoints[k].completes then (Completed, true)
      else (pact.status, false)
    case OpOpenGaiaCase(_, _) => (Disputed, true)
    case OpResolveGaiaCase(_, _, decision, _, _) =>
      (if decision in {ReplacementPact, CompensatingPact, CloseAndReturnResidual} then RectificationRequired
       else pact.status, true)
    case _ => (pact.status, false)
  }

  ghost predicate MovesTo(p: Pact, q: Pact, after: (PactStatus, bool)) {
    q.status == after.0 && q.revision == p.revision + if after.1 then 1 else 0
  }

  /** The call, if accepted, moves its Pact as After says; every other Pact is as it was. */
  ghost predicate Effects(s: State, r: State, op: Op, accepted: bool, id: string) {
    id in s.pacts ==>
      && id in r.pacts
      && if accepted && TargetOf(s, op) == Some(id) then MovesTo(s.pacts[id], r.pacts[id], After(s, r, op, s.pacts[id]))
         else r.pacts[id] == s.pacts[id]
  }

  lemma NoEffects(s: State, op: Op, id: string)
    ensures Effects(s, s, op, false, id)
  {
  }

  lemma SigningEffects(env: Env, s: State, op: Op, now: int, id: string)
    requires op.OpSignPact? && Sound(env, s) && SignPactError(env, s, op.pactId, op.signer, op.signature).None?
    requires id in s.pacts && s.pacts[id].status == AwaitingSignatures ==>
               !FullySigned(s.pacts[id], SignaturesOf(s, id))
    requires op.pactId in s.pacts && s.pacts[op.pactId].terms.workspaceId in s.workspaces
    requires FindSignature(SignaturesOf(s, op.pactId), op.signer).None? ==>
               s.pacts[op.pactId].status == AwaitingSignatures
    ensures Effects(s, SignPact(s, op.pactId, op.signer, op.signature, now), op, true, id)
  {
    hide SignPactError, Sound, PactSound, FindSignature, SignedBy;
    SoundPact(env, s, op.pactId);
  }

  lemma PreparationEffects(s: State, op: Op, now: int, id: string)
    requires op.OpPreparePayment? && op.pactId in s.pacts
    ensures Effects(s, PreparePayment(s, op.pactId, op.preparation, now), op, true, id)
  {
  }

  lemma OpeningEffects(s: State, op: Op, now: int, id: string)
    requires op.OpOpenPayment? && op.pactId in s.pacts && s.pacts[op.pactId].openRails.Some?
    ensures Effects(s, OpenPayment(s, op.pactId, op.txHash, op.opening, now), op, true, id)
  {
  }

  lemma SettlementEffects(s: State, op: Op, now: int, id: string)
    requires op.OpRecordSettlement? && op.pactId in s.pacts && s.pacts[op.pactId].openRails.Some?
    ensures Effects(s, RecordSettlement(s, op.pactId, op.settlement, now), op, true, id)
  {
    hide HasSettlement, PaymentBinding;
  }

  lemma SubmissionEffects(s: State, op: Op, now: int, id: string)
    requires op.OpSubmitCheckpoint? && op.checkpoint.pactId in s.pacts
    ensures Effects(s, SubmitCheckpoint(s, op.checkpoint, now), op, true, id)
  {
    hide PaymentBinding;
  }

  lemma VerdictEffects(s: State, op: Op, now: int, id: string)
    requires op.OpVerifyCheckpoint? && op.verdict.Some? && op.checkpointId in s.checkpoints
    requires s.checkpoints[op.checkpointId].pactId in s.pacts
    ensures Effects(s, VerifyCheckpoint(s, op.checkpointId, op.verdict.value, now), op, true, id)
  {
    hide PaymentBinding;
  }

  lemma ClaimEffects(s: State, op: Op, now: int, id: string)
    requires op.OpOpenGaiaCase? && op.gaia.pactId in s.pacts
    ensures Effects(s, OpenGaiaCase(s, op.gaia, now), op, true, id)
  {
  }

  lemma RulingEffects(s: State, op: Op, now: int, id: string)
    requires op.OpResolveGaiaCase? && op.caseId in s.gaiaCases && s.gaiaCases[op.caseId].pactId in s.pacts
    ensures Effects(s, ResolveGaiaCase(s, op.caseId, op.decision, op.command, now), op, true, id)
  {
    hide PaymentBinding, SameRegistry, SamePacts, NextNonce;
  }

  lemma PayingMoves(env: Env, s: State, op: Op, now: int, id: string)
    requires op.OpPreparePayment? || op.OpOpenPayment? || op.OpRecordSettlement?
    ensures Effects(s, Step(env, s, op, now), op, CallError(env, s, op, now).None?, id)
  {
    hide Step, Effects, PreparePaymentError, PreparePayment, OpenPaymentError, OpenPayment, RecordSettlementError,
         RecordSettlement;
    NoEffects(s, op, id);
    match op
    case OpPreparePayment(k, q) =>
      PreparePaymentStep(env, s, op, now);
      if PreparePaymentError(env, s, k, q, now).None? { PreparationEffects(s, op, now, id); }
    case OpOpenPayment(k, m, card, tx, o) =>
      OpenPaymentStep(env, s, op, now);
      if OpenPaymentError(env, s, k, m, card, tx, o, now).None? { OpeningEffects(s, op, now, id); }
    case OpRecordSettlement(k, tx, amount, o) =>
      RecordSettlementStep(env, s, op, now);
      if RecordSettlementError(env, s, k, tx, amount, o).None? { SettlementEffects(s, op, now, id); }
    case _ =>
  }

  lemma CheckpointMoves(env: Env, s: State, op: Op, now: int, id: string)
    requires op.OpSubmitCheckpoint? || op.OpVerifyCheckpoint?
    ensures Effects(s, Step(env, s, op, now), op, CallError(env, s, op, now).None?, id)
  {
    hide Step, Effects, SubmitCheckpointError, SubmitCheckpoint, VerifyCheckpointError, VerifyCheckpoint;
    NoEffects(s, op, id);
    match op
    case OpSubmitCheckpoint(c, sig) =>
      SubmitCheckpointStep(env, s, op, now);
      if SubmitCheckpointError(env, s, c, sig, now).None? { SubmissionEffects(s, op, now, id); }
    case OpVerifyCheckpoint(k, key, v) =>
      VerifyCheckpointStep(env, s, op, now);
      if VerifyCheckpointError(env, s, k, key, v).None? { VerdictEffects(s, op, now, id); }
    case _ =>
  }

  lemma CaseMoves(env: Env, s: State, op: Op, now: int, id: string)
    requires op.OpOpenGaiaCase? || op.OpResolveGaiaCase?
    ensures Effects(s, Step(env, s, op, now), op, CallError(env, s, op, now).None?, id)
  {
    hide Step, Effects, OpenGaiaCaseError, OpenGaiaCase, ResolveGaiaCaseError, ResolveGaiaCase;
    NoEffects(s, op, id);
    match op
    case OpOpenGaiaCase(g, sig) =>
      OpenGaiaCaseStep(env, s, op, now);
      if OpenGaiaCaseError(env, s, g, sig, now).None? { ClaimEffects(s, op, now, id); }
    case OpResolveGaiaCase(k, r, d, c, sig) =>
      ResolveGaiaCaseStep(env, s, op, now);
      if ResolveGaiaCaseError(env, s, k, r, d, c, sig, now).None? { RulingEffects(s, op, now, id); }
    case _ =>
  }

  lemma OthersMoveNothing(env: Env, s: State, op: Op, now: int, id: string)
    requires !ChangesPact(op)
    ensures Effects(s, Step(env, s, op, now), op, CallError(env, s, op, now).None?, id)
  {
    hide Step, CallError, CreatePactError, NewPact, AllowedNow;
    if op.OpCreatePact? {
      CreateStepFrame(env, s, op, now);
      if Step(env, s, op, now) != s { NewPactBinding(env, s, op.request, now); }
    } else {
      RegistryStepFrame(env, s, op, now);
    }
  }

  // ---- Over every run ----------------------------------------------------------------------------

  /** The Pact's status after each step that changed it, from its creation on. */
  ghost function Life(env: Env, run: seq<Event>, id: string): seq<PactStatus> {
    if run == [] then []
    else
      var earlier := run[..|run| - 1];
      var before, after := Run(env, EMPTY_STATE, earlier).pacts, Run(env, EMPTY_STATE, run).pacts;
      Life(env, earlier, id)
      + if id in after && (id !in before || before[id] != after[id]) then [after[id].status] else []
  }

  /** Some operation makes this move. */
  ghost predicate Edge(from: PactStatus, to: PactStatus) {
    exists op :: Moves(op, from, to)
  }

  /**
   * In every run a Pact starts out awaiting signatures, and its revision is the number of states it has been in:
   * every change is counted once and follows an edge of the life cycle.
   */
  lemma {:induction false} RevisionCountsChanges(env: Env, run: seq<Event>, id: string)
    ensures var life, pacts := Life(env, run, id), Run(env, EMPTY_STATE, run).pacts;
            && (id in pacts <==> life != [])
            && (id in pacts ==> pacts[id].revision == |life| && pacts[id].status == life[|life| - 1])
            && (life != [] ==> life[0] == AwaitingSignatures)
            && (forall i :: 0 < i < |life| ==> Edge(life[i - 1], life[i]))
  {
    hide Step, Moves, CreatePactError, NewPact, AllowedNow, Edge;
    if run != [] {
      var earlier, last := run[..|run| - 1], run[|run| - 1];
      var s := Run(env, EMPTY_STATE, earlier);
      RevisionCountsChanges(env, earlier, id);
      StepAdvances(env, s, last.op, last.now, id);
      if id !in s.pacts && id in Run(env, EMPTY_STATE, run).pacts {
        BornAwaiting(env, s, last.op, last.now, id);
      }
      if id in s.pacts {
        EdgeFrom(last.op, s.pacts[id].status, Run(env, EMPTY_STATE, run).pacts[id].status);
      }
    }
  }

  lemma EdgeFrom(op: Op, from: PactStatus, to: PactStatus)
    ensures Moves(op, from, to) ==> Edge(from, to)
  {
  }

  lemma BornAwaiting(env: Env, s: State, op: Op, now: int, id: string)
    requires id in Step(env, s, op, now).pacts && id !in s.pacts
    ensures var pact := Step(env, s, op, now).pacts[id];
            pact.status == AwaitingSignatures && pact.revision == 1
  {
    hide Step, CreatePactError, NewPact, AllowedNow;
    if ChangesPact(op) {
      PactStepFrame(env, s, op, now);
    } else if op.OpCreatePact? {
      CreateStepFrame(env, s, op, now);
      NewPactBinding(env, s, op.request, now);
    } else {
      RegistryStepFrame(env, s, op, now);
    }
  }
}
