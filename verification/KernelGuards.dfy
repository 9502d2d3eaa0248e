// When the kernel accepts a call, in the states that runs reach. Much of what the guards ask is settled there already,
// so what is left is what a caller can still get wrong; and whatever is accepted was signed by who has to sign it.
module KernelGuards {
  import opened Prelude
  import opened KernelTypes
  import opened Policy
  import opened KernelOps
  import opened KernelSafety
  import opened KernelFrames
  import opened KernelHistory
  import opened KernelStanding
  import Lifecycle = KernelLifecycle
  import Payments = KernelPayments
  import Registry = KernelRegistry

  // ---- Paying ------------------------------------------------------------------------------------

  /**
   * In a reachable state a Pact may execute exactly while its Agent is active, its Path has not been revised since the
   * Pact was created and the Path's window is open: the rest of what is asked of it was settled at its creation.
   */
  lemma EligibleExactly(env: Env, run: seq<Event>, id: string, now: int)
    requires id in Run(env, EMPTY_STATE, run).pacts
    ensures var s := Run(env, EMPTY_STATE, run);
            var t := s.pacts[id].terms;
            var h := Activations(env, run, t.pathId);
            && t.agentId in s.agents && |h| > 0
            && (Eligible(env, s, s.pacts[id], now)
                <==> && s.agents[t.agentId].status == AgentActive && t.pathRevision == |h|
                     && h[|h| - 1].validFrom <= now < h[|h| - 1].expiresAt)
  {
    hide Run, Step, PathWellFormed, Lower, PactIntact, Units, IsUnits, SignaturesGenuine, FullySigned,
         PaymentConsistent;
    var s := Run(env, EMPTY_STATE, run);
    RunSoundFromEmpty(env, run);
    SoundPact(env, s, id);
    PactsRespectTheirPath(env, run, id);
    ActivationsFormChain(env, run, s.pacts[id].terms.pathId);
    PactsNameTheirRevision(env, run, id);
  }

  /** What EligibleExactly says, as one condition. */
  ghost predicate InForce(env: Env, run: seq<Event>, t: PactTerms, now: int) {
    var s, h := Run(env, EMPTY_STATE, run), Activations(env, run, t.pathId);
    && t.agentId in s.agents && s.agents[t.agentId].status == AgentActive
    && t.pathRevision == |h| && |h| > 0 && h[|h| - 1].validFrom <= now < h[|h| - 1].expiresAt
  }

  lemma PreparationGuard(env: Env, s: State, id: string, q: Preparation, now: int)
    ensures PreparePaymentError(env, s, id, q, now).None?
            <==> && q.genesisTimestamp >= 0 && q.nonceChannel >= 0 && q.nonceValue >= 0 && id in s.pacts
                 && s.pacts[id].status in {Accepted, PaymentPrepared, AwaitingWallet}
                 && Eligible(env, s, s.pacts[id], now)
  {
    hide Eligible;
  }

  lemma OpeningGuard(env: Env, s: State, id: string, metadataHash: Hex, paycardId: Hex, txHash: Hex,
                     o: OpeningObservation, now: int)
    ensures OpenPaymentError(env, s, id, metadataHash, paycardId, txHash, o, now).None?
            <==> && id in s.pacts && Eligible(env, s, s.pacts[id], now)
                 && s.pacts[id].status in {PaymentPrepared, AwaitingWallet} && s.pacts[id].openRails.Some?
                 && s.pacts[id].openRails.value.metadataHash == metadataHash
                 && s.pacts[id].openRails.value.paycardId == paycardId
                 && OpeningMatches(s.pacts[id].terms, metadataHash, paycardId, txHash, o)
  {
    hide Eligible, OpeningMatches;
  }

  lemma SettlementGuard(env: Env, s: State, id: string, txHash: Hex, amount: string, o: SettlementObservation)
    requires id in s.pacts ==> PactIntact(env, s.pacts[id])
    ensures RecordSettlementError(env, s, id, txHash, amount, o).None?
            <==> && PositiveUnits(amount) && id in s.pacts && HasOpening(s.pacts[id])
                 && SettlementMatches(s.pacts[id].terms, s.pacts[id].openRails.value.paycardId, txHash, amount, o)
  {
    hide PositiveUnits, PactIntact, SettlementMatches;
  }

  lemma StoredIntact(env: Env, run: seq<Event>, id: string)
    ensures var s := Run(env, EMPTY_STATE, run); id in s.pacts ==> PactIntact(env, s.pacts[id])
  {
    hide Run, PactIntact, SignaturesGenuine, FullySigned, PaymentConsistent, Sound;
    RunSoundFromEmpty(env, run);
    if id in Run(env, EMPTY_STATE, run).pacts { SoundPact(env, Run(env, EMPTY_STATE, run), id); }
  }

  /** A payment is prepared, or prepared again, exactly for a signed Pact that is in force and not yet opened. */
  lemma PreparationAcceptedExactly(env: Env, run: seq<Event>, op: Op, now: int)
    requires op.OpPreparePayment?
    ensures var s, q := Run(env, EMPTY_STATE, run), op.preparation;
            CallError(env, s, op, now).None?
            <==> && q.genesisTimestamp >= 0 && q.nonceChannel >= 0 && q.nonceValue >= 0
                 && op.pactId in s.pacts
                 && s.pacts[op.pactId].status in {Accepted, PaymentPrepared, AwaitingWallet}
                 && InForce(env, run, s.pacts[op.pactId].terms, now)
  {
    hide Run, Step, Eligible, PreparePaymentError;
    var s := Run(env, EMPTY_STATE, run);
    PreparationGuard(env, s, op.pactId, op.preparation, now);
    if op.pactId in s.pacts { EligibleExactly(env, run, op.pactId, now); }
  }

  /**
   * A payment is opened exactly when the Pact is in force and prepared under the ids of the call, and what was observed
   * on the chain is the opening that was agreed and prepared: the transaction, chain, vault, Paycard and metadata, the
   * three parties, allocation, velocity and lifespan, not terminated and with something left.
   */
  lemma OpeningAcceptedExactly(env: Env, run: seq<Event>, op: Op, now: int)
    requires op.OpOpenPayment?
    ensures var s, o := Run(env, EMPTY_STATE, run), op.opening;
            CallError(env, s, op, now).None?
            <==> && op.pactId in s.pacts
                 && s.pacts[op.pactId].status in {PaymentPrepared, AwaitingWallet}
                 && s.pacts[op.pactId].openRails.Some?
                 && InForce(env, run, s.pacts[op.pactId].terms, now)
                 && var t, prepared := s.pacts[op.pactId].terms, s.pacts[op.pactId].openRails.value;
                 && prepared.metadataHash == op.metadataHash && prepared.paycardId == op.paycardId
                 && Lower(o.transactionHash) == Lower(op.txHash)
                 && o.chainId == t.payment.chainId && Lower(o.vault) == Lower(t.payment.vault)
                 && o.paycardId == prepared.paycardId && o.metadataHash == prepared.metadataHash
                 && Lower(o.payer) == Lower(t.payment.payer) && Lower(o.recipient) == Lower(t.payment.recipient)
                 && Lower(o.residualRecipient) == Lower(t.payment.residualRecipient)
                 && o.poolAllocation == t.payment.maximumAllocation && o.flowVelocity == t.payment.velocity
                 && o.lifespanSeconds == t.payment.lifespanSeconds
                 && o.operationalStatus == 0 && IsUnits(o.availableBalance) && Units(o.availableBalance) > 0
  {
    hide Run, Step, Eligible, Lower, IsUnits, Units, OpenPaymentError;
    var s := Run(env, EMPTY_STATE, run);
    OpeningGuard(env, s, op.pactId, op.metadataHash, op.paycardId, op.txHash, op.opening, now);
    if op.pactId in s.pacts { EligibleExactly(env, run, op.pactId, now); }
  }

  /**
   * A settlement is recorded exactly for an opened Pact and a positive amount, when what was observed is a payment of
   * that amount by that transaction, from the Pact's Paycard to its recipient, on its chain and vault.
   */
  lemma SettlementAcceptedExactly(env: Env, run: seq<Event>, op: Op, now: int)
    requires op.OpRecordSettlement?
    ensures var s, o := Run(env, EMPTY_STATE, run), op.settlement;
            CallError(env, s, op, now).None?
            <==> && IsUnits(op.amount) && Units(op.amount) > 0 && op.pactId in s.pacts
                 && s.pacts[op.pactId].openRails.Some? && s.pacts[op.pactId].openRails.value.opening.Some?
                 && var t := s.pacts[op.pactId].terms;
                 && Lower(o.transactionHash) == Lower(op.txHash)
                 && o.chainId == t.payment.chainId && Lower(o.vault) == Lower(t.payment.vault)
                 && o.paycardId == s.pacts[op.pactId].openRails.value.paycardId
                 && Lower(o.recipient) == Lower(t.payment.recipient) && o.settledAmount == op.amount
  {
    hide Run, Step, PactIntact, Lower, IsUnits, Units, RecordSettlementError;
    StoredIntact(env, run, op.pactId);
    SettlementGuard(env, Run(env, EMPTY_STATE, run), op.pactId, op.txHash, op.amount, op.settlement);
  }

  // ---- Signing -----------------------------------------------------------------------------------

  lemma TermsHashStands(env: Env, pact: Pact, signatures: seq<PactSignature>)
    requires PactSound(env, pact, signatures)
    ensures env.hashTerms(pact.terms) == pact.termsHash
    ensures forall i :: 0 <= i < |signatures| ==> signatures[i].hash == pact.termsHash
    ensures forall i, j :: 0 <= i < j < |signatures| ==> Lower(signatures[i].signer) != Lower(signatures[j].signer)
  {
    hide FullySigned, PaymentConsistent, Lower, Units, IsUnits;
  }

  lemma {:induction false} FindSignatureFirst(signatures: seq<PactSignature>, a: Address)
    ensures var found := FindSignature(signatures, a);
            if found.None? then forall i :: 0 <= i < |signatures| ==> Lower(signatures[i].signer) != Lower(a)
            else exists i :: 0 <= i < |signatures| && Lower(signatures[i].signer) == Lower(a)
                             && signatures[i] == found.value
  {
    hide Lower;
    if signatures != [] && Lower(signatures[0].signer) != Lower(a) {
      var rest, found := signatures[1..], FindSignature(signatures, a);
      FindSignatureFirst(rest, a);
      if found.None? {
        assert forall i :: 0 < i < |signatures| ==> signatures[i] == rest[i - 1];
      } else {
        var i :| 0 <= i < |rest| && Lower(rest[i].signer) == Lower(a) && rest[i] == found.value;
        assert signatures[i + 1] == found.value;
      }
    } else if signatures != [] {
      assert signatures[0] == FindSignature(signatures, a).value;
    }
  }

  /** The party's recorded signature again, or its first while the Pact awaits signatures, verified. */
  ghost predicate SignatureFits(env: Env, pact: Pact, given: seq<PactSignature>, signer: Address,
                                signature: Signature) {
    if exists i :: 0 <= i < |given| && Lower(given[i].signer) == Lower(signer) then
      exists i :: 0 <= i < |given| && Lower(given[i].signer) == Lower(signer) && given[i].signature == signature
    else
      && pact.status == AwaitingSignatures
      && env.verify(PactMessage(pact.terms, pact.termsHash), signature, signer)
  }

  lemma FittingSignature(env: Env, pact: Pact, given: seq<PactSignature>, signer: Address, signature: Signature)
    requires PactSound(env, pact, given)
    ensures var found := FindSignature(given, signer);
            SignatureFits(env, pact, given, signer, signature)
            <==> if found.Some? then found.value.hash == pact.termsHash && found.value.signature == signature
                 else && pact.status == AwaitingSignatures && env.hashTerms(pact.terms) == pact.termsHash
                      && env.verify(PactMessage(pact.terms, pact.termsHash), signature, signer)
  {
    hide PactSound, Lower, FindSignature;
    TermsHashStands(env, pact, given);
    FindSignatureFirst(given, signer);
  }

  lemma SignatureGuard(env: Env, s: State, id: string, signer: Address, signature: Signature)
    requires id in s.pacts ==>
               && id in s.pactSignatures && PactSound(env, s.pacts[id], s.pactSignatures[id])
               && Authoritative(s, id, s.pacts[id])
    ensures SignPactError(env, s, id, signer, signature).None?
            <==> && id in s.pacts
                 && (Lower(signer) == Lower(s.pacts[id].terms.initiator)
                     || Lower(signer) == Lower(s.pacts[id].terms.counterparty))
                 && SignatureFits(env, s.pacts[id], s.pactSignatures[id], signer, signature)
  {
    hide PactSound, Lower, FindSignature, SignatureFits;
    if id in s.pacts { FittingSignature(env, s.pacts[id], s.pactSignatures[id], signer, signature); }
  }

  /**
   * A signature is accepted exactly from the Workspace's authority, who initiated the Pact, or its counterparty, when
   * it repeats the one that party gave, or is the party's first, while the Pact awaits signatures, and verifies.
   */
  lemma SignatureAcceptedExactly(env: Env, run: seq<Event>, op: Op, now: int)
    requires op.OpSignPact?
    ensures var s := Run(env, EMPTY_STATE, run);
            CallError(env, s, op, now).None?
            <==> && op.pactId in s.pacts && op.pactId in s.pactSignatures
                 && var pact, given := s.pacts[op.pactId], s.pactSignatures[op.pactId];
                 && (Lower(op.signer) == Lower(pact.terms.initiator)
                     || Lower(op.signer) == Lower(pact.terms.counterparty))
                 && if exists i :: 0 <= i < |given| && Lower(given[i].signer) == Lower(op.signer) then
                      exists i :: 0 <= i < |given| && Lower(given[i].signer) == Lower(op.signer)
                                  && given[i].signature == op.signature
                    else
                      && pact.status == AwaitingSignatures
                      && env.verify(PactMessage(pact.terms, pact.termsHash), op.signature, op.signer)
  {
    hide Run, Step, SignPactError, Sound, PactSound, Authoritative, Lower;
    var s := Run(env, EMPTY_STATE, run);
    RunSoundFromEmpty(env, run);
    if op.pactId in s.pacts { SoundPact(env, s, op.pactId); }
    SignatureGuard(env, s, op.pactId, op.signer, op.signature);
  }

  // ---- Checkpoints and claims --------------------------------------------------------------------

  lemma PartiesKnown(s: State, id: string, pact: Pact)
    requires Authoritative(s, id, pact) && Stands(s, pact.terms)
    ensures pact.terms.workspaceId in s.workspaces && pact.terms.agentId in s.agents
    ensures s.workspaces[pact.terms.workspaceId].authorityAccount == pact.terms.initiator
  {
  }

  lemma CheckpointGuard(env: Env, s: State, c: Checkpoint, signature: Signature, now: int)
    requires c.pactId in s.pacts ==>
               && PactIntact(env, s.pacts[c.pactId]) && Authoritative(s, c.pactId, s.pacts[c.pactId])
               && Stands(s, s.pacts[c.pactId].terms)
    ensures SubmitCheckpointError(env, s, c, signature, now).None?
            <==> && now < c.validUntil && c.pactId in s.pacts
                 && var pact, t := s.pacts[c.pactId], s.pacts[c.pactId].terms;
                 && pact.status in {Active, Performing, Disputed}
                 && c.workspaceId == t.workspaceId && c.pathId == t.pathId && c.termsHash == pact.termsHash
                 && SameText(c.counterparty, t.counterparty)
                 && (pact.openRails.Some? ==> c.paycardId == Some(pact.openRails.value.paycardId))
                 && c.checkpointId !in s.checkpoints && c.index == |CheckpointIds(s, c.pactId)| + 1
                 && t.agentId in s.agents
                 && (|| SameText(c.submittedBy, t.initiator) || SameText(c.submittedBy, t.counterparty)
                     || SameText(c.submittedBy, s.agents[t.agentId].operator))
                 && SameText(c.actor, c.submittedBy)
                 && env.verify(CheckpointMessage(c), signature, c.submittedBy)
  {
    hide PactIntact, SameText, CheckpointIds, Authoritative, Stands;
    if c.pactId in s.pacts { PartiesKnown(s, c.pactId, s.pacts[c.pactId]); }
  }

  /** What every stored Pact brings along. */
  lemma StoredPact(env: Env, run: seq<Event>, id: string)
    ensures var s := Run(env, EMPTY_STATE, run);
            id in s.pacts ==>
              PactIntact(env, s.pacts[id]) && Authoritative(s, id, s.pacts[id]) && Stands(s, s.pacts[id].terms)
  {
    hide Run, Sound, PactIntact, Authoritative, Stands, Grants, SignaturesGenuine, FullySigned, PaymentConsistent;
    RunSoundFromEmpty(env, run);
    if id in Run(env, EMPTY_STATE, run).pacts {
      SoundPact(env, Run(env, EMPTY_STATE, run), id);
      PactsRespectTheirPath(env, run, id);
    }
  }

  /**
   * A checkpoint is accepted exactly when it is signed by the acting party, the Pact's initiator or counterparty or
   * its Agent's operator, before it expires, names the Pact's Workspace, Path, terms, counterparty and Paycard, and is
   * the next one of a Pact that is active, performing or disputed.
   */
  lemma CheckpointAcceptedExactly(env: Env, run: seq<Event>, op: Op, now: int)
    requires op.OpSubmitCheckpoint?
    ensures var s, c := Run(env, EMPTY_STATE, run), op.checkpoint;
            CallError(env, s, op, now).None?
            <==> && now < c.validUntil && c.pactId in s.pacts
                 && var pact, t := s.pacts[c.pactId], s.pacts[c.pactId].terms;
                 && pact.status in {Active, Performing, Disputed}
                 && c.workspaceId == t.workspaceId && c.pathId == t.pathId && c.termsHash == pact.termsHash
                 && Lower(c.counterparty) == Lower(t.counterparty)
                 && (pact.openRails.Some? ==> c.paycardId == Some(pact.openRails.value.paycardId))
                 && c.checkpointId !in s.checkpoints
                 && c.index == 1 + |set k | k in s.checkpoints && s.checkpoints[k].pactId == c.pactId|
                 && t.agentId in s.agents
                 && (|| Lower(c.submittedBy) == Lower(t.initiator) || Lower(c.submittedBy) == Lower(t.counterparty)
                     || Lower(c.submittedBy) == Lower(s.agents[t.agentId].operator))
                 && Lower(c.actor) == Lower(c.submittedBy)
                 && env.verify(CheckpointMessage(c), op.signature, c.submittedBy)
  {
    hide Run, Step, SubmitCheckpointError, PactIntact, Authoritative, Lower;
    var s := Run(env, EMPTY_STATE, run);
    StoredPact(env, run, op.checkpoint.pactId);
    CheckpointGuard(env, s, op.checkpoint, op.signature, now);
    assert CheckpointIds(s, op.checkpoint.pactId)
           == set k | k in s.checkpoints && s.checkpoints[k].pactId == op.checkpoint.pactId;
  }

  lemma VerificationGuard(env: Env, s: State, checkpointId: string, key: (string, string), verdict: Option<Verdict>)
    requires checkpointId in s.checkpoints ==>
               && s.checkpoints[checkpointId].pactId in s.pacts
               && Registry.PolicyInstalled(s, s.pacts[s.checkpoints[checkpointId].pactId].terms)
    ensures VerifyCheckpointError(env, s, checkpointId, key, verdict).None?
            <==> && checkpointId in s.checkpoints
                 && var c := s.checkpoints[checkpointId];
                 && var t := s.pacts[c.pactId].terms;
                 && key == (t.evidencePolicyId, t.evidencePolicyVersion)
                 && key in s.plugins && s.plugins[key].active && c.workspaceId in s.plugins[key].installedWorkspaceIds
                 && key in env.implementations && env.implementations[key] == t.evidencePolicyCodeDigest
                 && verdict.Some?
  {
  }

  /**
   * A verdict on a checkpoint is taken exactly from the plugin version that the Pact names, while that is active and
   * installed in the Workspace, and from the code whose digest the Pact names.
   */
  lemma VerificationAcceptedExactly(env: Env, run: seq<Event>, op: Op, now: int)
    requires op.OpVerifyCheckpoint?
    ensures var s := Run(env, EMPTY_STATE, run);
            CallError(env, s, op, now).None?
            <==> && op.checkpointId in s.checkpoints
                 && var c := s.checkpoints[op.checkpointId];
                 && c.pactId in s.pacts
                 && var t := s.pacts[c.pactId].terms;
                 && op.key.0 == t.evidencePolicyId && op.key.1 == t.evidencePolicyVersion
                 && op.key in s.plugins && s.plugins[op.key].active
                 && c.workspaceId in s.plugins[op.key].installedWorkspaceIds
                 && op.key in env.implementations && env.implementations[op.key] == t.evidencePolicyCodeDigest
                 && op.verdict.Some?
  {
    hide Run, Step, VerifyCheckpointError, PactSound, Authoritative;
    var s := Run(env, EMPTY_STATE, run);
    RunSoundFromEmpty(env, run);
    if op.checkpointId in s.checkpoints {
      Registry.EvidencePolicyStays(env, run, s.checkpoints[op.checkpointId].pactId);
    }
    VerificationGuard(env, s, op.checkpointId, op.key, op.verdict);
  }

  lemma ClaimGuard(env: Env, s: State, g: GaiaCase, signature: Signature, now: int)
    requires g.pactId in s.pacts ==>
               PactIntact(env, s.pacts[g.pactId]) && Authoritative(s, g.pactId, s.pacts[g.pactId])
    ensures OpenGaiaCaseError(env, s, g, signature, now).None?
            <==> && now < g.claimValidUntil && g.pactId in s.pacts
                 && var pact, t := s.pacts[g.pactId], s.pacts[g.pactId].terms;
                 && g.workspaceId == t.workspaceId && g.pathId == t.pathId
                 && (pact.openRails.Some? ==> g.paycardId == Some(pact.openRails.value.paycardId))
                 && (|| (Lower(g.claimant) == Lower(t.initiator) && Lower(g.respondent) == Lower(t.counterparty))
                     || (Lower(g.claimant) == Lower(t.counterparty) && Lower(g.respondent) == Lower(t.initiator)))
                 && g.caseId !in s.gaiaCases && env.verify(GaiaMessage(g), signature, g.claimant)
  {
    hide PactIntact, Lower;
  }

  /**
   * A Gaia case is opened exactly on a claim signed by one party of the Pact against the other, before it expires, that
   * names the Pact's Workspace, Path and Paycard under a new identifier, whatever the status of the Pact.
   */
  lemma ClaimAcceptedExactly(env: Env, run: seq<Event>, op: Op, now: int)
    requires op.OpOpenGaiaCase?
    ensures var s, g := Run(env, EMPTY_STATE, run), op.gaia;
            CallError(env, s, op, now).None?
            <==> && now < g.claimValidUntil && g.pactId in s.pacts
                 && var pact, t := s.pacts[g.pactId], s.pacts[g.pactId].terms;
                 && g.workspaceId == t.workspaceId && g.pathId == t.pathId
                 && (pact.openRails.Some? ==> g.paycardId == Some(pact.openRails.value.paycardId))
                 && (|| (Lower(g.claimant) == Lower(t.initiator) && Lower(g.respondent) == Lower(t.counterparty))
                     || (Lower(g.claimant) == Lower(t.counterparty) && Lower(g.respondent) == Lower(t.initiator)))
                 && g.caseId !in s.gaiaCases && env.verify(GaiaMessage(g), op.signature, g.claimant)
  {
    hide Run, Step, OpenGaiaCaseError, PactIntact, Authoritative, Stands, Lower;
    StoredPact(env, run, op.gaia.pactId);
    ClaimGuard(env, Run(env, EMPTY_STATE, run), op.gaia, op.signature, now);
  }

  // ---- What is accepted, moves -------------------------------------------------------------------

  lemma SigningMoves(env: Env, run: seq<Event>, op: Op, now: int, id: string)
    requires op.OpSignPact?
    ensures var s := Run(env, EMPTY_STATE, run);
            Lifecycle.Effects(s, Step(env, s, op, now), op, SignPactError(env, s, op.pactId, op.signer,
                                                                          op.signature).None?, id)
  {
    hide Run, Step, Lifecycle.Effects, SignPactError, SignPact, Sound, FullySigned;
    var s := Run(env, EMPTY_STATE, run);
    Lifecycle.NoEffects(s, op, id);
    SignPactStep(env, s, op, now);
    if SignPactError(env, s, op.pactId, op.signer, op.signature).None? {
      RunSoundFromEmpty(env, run);
      SignPactTarget(env, s, op.pactId, op.signer, op.signature);
      if id in s.pacts { Payments.AwaitsExactlyWhileUnsigned(env, run, id); }
      Lifecycle.SigningEffects(env, s, op, now, id);
    }
  }

  /**
   * In every run a call that is accepted moves the Pact it is about, exactly as its operation says, to its next status
   * with one revision more, or leaves it where nothing changes; it touches no other Pact, and a refused call none.
   */
  lemma CallsMovePacts(env: Env, run: seq<Event>, op: Op, now: int, id: string)
    ensures var s := Run(env, EMPTY_STATE, run);
            Lifecycle.Effects(s, Step(env, s, op, now), op, CallError(env, s, op, now).None?, id)
  {
    hide Run, Step, Lifecycle.Effects, SignPactError;
    var s := Run(env, EMPTY_STATE, run);
    if op.OpSignPact? {
      SigningMoves(env, run, op, now, id);
    } else {
      hide CallError;
      if op.OpPreparePayment? || op.OpOpenPayment? || op.OpRecordSettlement? {
        Lifecycle.PayingMoves(env, s, op, now, id);
      } else if op.OpSubmitCheckpoint? || op.OpVerifyCheckpoint? {
        Lifecycle.CheckpointMoves(env, s, op, now, id);
      } else if ChangesPact(op) {
        Lifecycle.CaseMoves(env, s, op, now, id);
      } else {
        Lifecycle.OthersMoveNothing(env, s, op, now, id);
      }
    }
  }

  // ---- The registry ------------------------------------------------------------------------------

  /** What is asked of a Path by itself. */
  ghost predicate ProperPath(path: Path) {
    && path.revision >= 1 && path.validFrom < path.expiresAt
    && IsUnits(path.limits.maxPerPact) && Units(path.limits.maxPerPact) > 0
    && IsUnits(path.limits.maxActiveExposure) && Units(path.limits.maxActiveExposure) > 0
    && IsUnits(path.limits.maxPerPeriod) && Units(path.limits.maxPerPeriod) > 0
    && IsUnits(path.limits.maxVelocity) && Units(path.limits.maxVelocity) > 0
    && path.limits.periodSeconds > 0 && path.limits.maxDurationSeconds > 0 && path.limits.maxConcurrentPacts > 0
    && |path.authorizedAgentIds| > 0 && |path.permittedActions| > 0 && |path.permittedAssets| > 0
  }

  lemma ActivationGuard(env: Env, s: State, path: Path, signature: Signature)
    ensures ActivatePathError(env, s, path, signature).None?
            <==> && PathWellFormed(path) && env.verify(PathMessage(path), signature, path.authorityAccount)
                 && path.workspaceId in s.workspaces
                 && SameText(s.workspaces[path.workspaceId].authorityAccount, path.authorityAccount)
                 && ActiveOwner(s.workspaces[path.workspaceId], path.owner)
                 && (forall i :: 0 <= i < |path.authorizedAgentIds| ==>
                       ActiveAgentOf(s, path.authorizedAgentIds[i], path.workspaceId))
                 && if path.pathId !in s.paths then path.revision == 1
                    else
                      var existing := s.paths[path.pathId];
                      && path.revision == existing.artifact.revision + 1
                      && path.previousPathHash == Some(existing.hash)
                      && path.workspaceId == existing.artifact.workspaceId
                      && SameText(path.owner, existing.artifact.owner)
                      && SameText(path.authorityAccount, existing.artifact.authorityAccount)
  {
    hide PathWellFormed, SameText, ActiveOwner, ActiveAgentOf;
  }

  /**
   * A Path is activated exactly when it is proper, signed by the authority of its Workspace for an active owner, lists
   * active Agents of the Workspace, and is the first of its identifier, at revision 1, or the next revision after the
   * last one activated, naming its hash, for the same Workspace, owner and authority.
   */
  lemma ActivationAcceptedExactly(env: Env, run: seq<Event>, op: Op, now: int)
    requires op.OpActivatePath?
    ensures var s, path := Run(env, EMPTY_STATE, run), op.path;
            var h := Activations(env, run, path.pathId);
            CallError(env, s, op, now).None?
            <==> && ProperPath(path) && env.verify(PathMessage(path), op.signature, path.authorityAccount)
                 && path.workspaceId in s.workspaces
                 && var workspace := s.workspaces[path.workspaceId];
                 && Lower(workspace.authorityAccount) == Lower(path.authorityAccount)
                 && (exists m :: m in workspace.members && m.active && m.owner && Lower(m.address) == Lower(path.owner))
                 && (forall a :: a in path.authorizedAgentIds ==>
                       && a in s.agents && s.agents[a].workspaceId == path.workspaceId
                       && s.agents[a].status == AgentActive)
                 && path.revision == |h| + 1
                 && (h != [] ==>
                       && path.previousPathHash == Some(env.hashPath(h[|h| - 1]))
                       && path.workspaceId == h[0].workspaceId && Lower(path.owner) == Lower(h[0].owner)
                       && Lower(path.authorityAccount) == Lower(h[0].authorityAccount))
  {
    hide Run, Step, ActivatePathError, Lower, IsUnits, Units, Activations;
    var s, path := Run(env, EMPTY_STATE, run), op.path;
    ActivationGuard(env, s, path, op.signature);
    ActivationsFormChain(env, run, path.pathId);
    if path.workspaceId in s.workspaces { OwnerListed(s.workspaces[path.workspaceId], path.owner); }
    assert (forall i :: 0 <= i < |path.authorizedAgentIds| ==>
              ActiveAgentOf(s, path.authorizedAgentIds[i], path.workspaceId))
           <==> forall a :: a in path.authorizedAgentIds ==> ActiveAgentOf(s, a, path.workspaceId);
  }

  lemma OwnerListed(workspace: Workspace, owner: Address)
    ensures ActiveOwner(workspace, owner)
            <==> exists m :: m in workspace.members && m.active && m.owner && Lower(m.address) == Lower(owner)
  {
    hide Lower;
    if ActiveOwner(workspace, owner) {
      var i :| 0 <= i < |workspace.members| && workspace.members[i].active && workspace.members[i].owner
               && SameText(workspace.members[i].address, owner);
      assert workspace.members[i] in workspace.members;
    }
  }

  /** A Workspace, or an Agent, is registered exactly once, at a positive revision, on its authority's signature. */
  lemma RegistrationAcceptedExactly(env: Env, s: State, op: Op, now: int)
    requires op.OpRegisterWorkspace? || op.OpRegisterAgent?
    ensures CallError(env, s, op, now).None?
            <==> if op.OpRegisterWorkspace? then
                   var w := op.workspace;
                   && w.revision > 0 && w.workspaceId !in s.workspaces
                   && env.verify(WorkspaceMessage(w), op.signature, w.authorityAccount)
                   && exists m :: m in w.members && m.active && m.owner && Lower(m.address) == Lower(w.authorityAccount)
                 else
                   var a := op.agent;
                   && a.revision > 0 && a.agentId !in s.agents && a.workspaceId in s.workspaces
                   && Lower(op.signer) == Lower(s.workspaces[a.workspaceId].authorityAccount)
                   && env.verify(AgentMessage(a), op.signature, op.signer)
  {
    hide Lower, ActiveOwner;
    if op.OpRegisterWorkspace? { OwnerListed(op.workspace, op.workspace.authorityAccount); }
  }
}
