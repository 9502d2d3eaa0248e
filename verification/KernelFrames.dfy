// What each kernel operation leaves alone.
module KernelFrames {
  import opened Prelude
  import opened KernelTypes
  import opened Policy
  import opened KernelOps
  import opened KernelSafety

  ghost predicate SameNonces(s: State, r: State) {
    r.commandNonces == s.commandNonces
  }

  ghost predicate SamePaths(s: State, r: State) {
    r.paths == s.paths
  }

  ghost predicate SameBindings(s: State, r: State) {
    forall k :: k in s.pacts && k in r.pacts ==> PaymentBinding(r.pacts[k]) == PaymentBinding(s.pacts[k])
  }

  ghost predicate SameCases(s: State, r: State) {
    r.checkpoints == s.checkpoints && r.gaiaCases == s.gaiaCases
  }

  /** At most one Pact event more, about a Pact that exists. */
  ghost predicate LogsOne(s: State, r: State) {
    || r.pactEvents == s.pactEvents
    || (&& |r.pactEvents| == |s.pactEvents| + 1 && r.pactEvents[..|s.pactEvents|] == s.pactEvents
        && r.pactEvents[|s.pactEvents|].pactId in s.pacts)
  }

  /** Every other Pact is as it was. */
  ghost predicate OthersKept(s: State, r: State, id: string) {
    forall k :: k in s.pacts && k != id ==> k in r.pacts && r.pacts[k] == s.pacts[k]
  }

  ghost predicate UsesNonceOf(s: State, r: State, c: Command) {
    r.commandNonces == s.commandNonces[c.workspaceId := NextNonce(s, c.workspaceId) + 1]
  }

  /** Operations on one existing Pact. */
  predicate ChangesPact(op: Op) {
    op.OpSignPact? || op.OpPreparePayment? || op.OpOpenPayment? || op.OpSubmitCheckpoint? || op.OpVerifyCheckpoint?
    || op.OpOpenGaiaCase? || op.OpResolveGaiaCase? || op.OpRecordSettlement?
  }

  function CommandOf(op: Op): Option<Command> {
    match op
    case OpSetAgentStatus(_, _, _, c, _) => Some(c)
    case OpInstallPlugin(_, _, c, _) => Some(c)
    case OpResolveGaiaCase(_, _, _, c, _) => Some(c)
    case _ => None
  }

  // ---- What an accepted call is applied to -------------------------------------------------------

  lemma SignPactTarget(env: Env, s: State, id: string, signer: Address, signature: Signature)
    requires SignPactError(env, s, id, signer, signature).None?
    ensures id in s.pacts && s.pacts[id].terms.workspaceId in s.workspaces
    ensures FindSignature(SignaturesOf(s, id), signer).None? ==> s.pacts[id].status == AwaitingSignatures
  {
    hide FindSignature, SameText;
  }

  lemma PreparePaymentTarget(env: Env, s: State, id: string, q: Preparation, now: int)
    requires PreparePaymentError(env, s, id, q, now).None?
    ensures id in s.pacts && Eligible(env, s, s.pacts[id], now)
    ensures s.pacts[id].status in {Accepted, PaymentPrepared, AwaitingWallet}
  {
    hide Eligible;
  }

  lemma OpenPaymentTarget(env: Env, s: State, id: string, metadataHash: Hex, paycardId: Hex, txHash: Hex,
                          o: OpeningObservation, now: int)
    requires OpenPaymentError(env, s, id, metadataHash, paycardId, txHash, o, now).None?
    ensures id in s.pacts && Eligible(env, s, s.pacts[id], now) && s.pacts[id].openRails.Some?
    ensures s.pacts[id].status in {PaymentPrepared, AwaitingWallet}
    ensures var payment := s.pacts[id].openRails.value;
            payment.metadataHash == metadataHash && payment.paycardId == paycardId
  {
    hide Eligible, OpeningMatches;
  }

  lemma SubmitCheckpointTarget(env: Env, s: State, c: Checkpoint, signature: Signature, now: int)
    requires SubmitCheckpointError(env, s, c, signature, now).None?
    ensures c.pactId in s.pacts && s.pacts[c.pactId].status in {Active, Performing, Disputed}
    ensures c.checkpointId !in s.checkpoints && c.index == |CheckpointIds(s, c.pactId)| + 1
  {
    hide PactIntact, SameText, CheckpointIds;
  }

  lemma OpenGaiaCaseTarget(env: Env, s: State, g: GaiaCase, signature: Signature, now: int)
    requires OpenGaiaCaseError(env, s, g, signature, now).None?
    ensures g.pactId in s.pacts
  {
    hide PactIntact, SameText;
  }

  lemma RecordSettlementTarget(env: Env, s: State, id: string, txHash: Hex, amount: string, o: SettlementObservation)
    requires RecordSettlementError(env, s, id, txHash, amount, o).None?
    ensures id in s.pacts && HasOpening(s.pacts[id]) && s.pacts[id].openRails.Some?
  {
    hide PactIntact, SettlementMatches, Units, IsUnits;
  }

  // ---- Step, operation by operation -------------------------------------------------------------

  lemma RegisterWorkspaceStep(env: Env, s: State, op: Op, now: int)
    requires op.OpRegisterWorkspace?
    ensures var refused := RegisterWorkspaceError(env, s, op.workspace, op.signature);
            if refused.Some? then Step(env, s, op, now) == s
            else Step(env, s, op, now) == s.(workspaces := s.workspaces[op.workspace.workspaceId := op.workspace])
  {
    hide CaseCall, PaymentCall, RegisterWorkspaceError;
  }

  lemma RegisterAgentStep(env: Env, s: State, op: Op, now: int)
    requires op.OpRegisterAgent?
    ensures var refused := RegisterAgentError(env, s, op.agent, op.signer, op.signature);
            if refused.Some? then Step(env, s, op, now) == s
            else Step(env, s, op, now) == s.(agents := s.agents[op.agent.agentId := op.agent])
  {
    hide CaseCall, PaymentCall, RegisterAgentError;
  }

  lemma SetAgentStatusStep(env: Env, s: State, op: Op, now: int)
    requires op.OpSetAgentStatus?
    ensures var refused := SetAgentStatusError(env, s, op.workspaceId, op.agentId, op.agentStatus, op.command,
                op.signature, now);
            if refused.Some? then Step(env, s, op, now) == s
            else && op.agentId in s.agents
                 && Step(env, s, op, now) == SetAgentStatus(s, op.agentId, op.agentStatus, op.command)
  {
    hide CaseCall, PaymentCall, SetAgentStatusError, SetAgentStatus;
    if SetAgentStatusError(env, s, op.workspaceId, op.agentId, op.agentStatus, op.command, op.signature, now).None? {
      SetAgentStatusTarget(env, s, op.workspaceId, op.agentId, op.agentStatus, op.command, op.signature, now);
    }
  }

  lemma ActivatePathStep(env: Env, s: State, op: Op, now: int)
    requires op.OpActivatePath?
    ensures var refused := ActivatePathError(env, s, op.path, op.signature);
            if refused.Some? then Step(env, s, op, now) == s
            else Step(env, s, op, now) == ActivatePath(env, s, op.path, op.signature)
  {
    hide CaseCall, PaymentCall, ActivatePathError, ActivatePath;
  }

  lemma InstallPluginStep(env: Env, s: State, op: Op, now: int)
    requires op.OpInstallPlugin?
    ensures var refused := InstallPluginError(env, s, op.key, op.manifest, op.command, op.signature, now);
            if refused.Some? then Step(env, s, op, now) == s
            else Step(env, s, op, now) == UseNonce(s, op.command).(plugins := s.plugins[op.key := op.manifest])
  {
    hide CaseCall, PaymentCall, InstallPluginError, UseNonce;
  }

  lemma SubmitProposalStep(env: Env, s: State, op: Op, now: int)
    requires op.OpSubmitProposal?
    ensures var refused := SubmitProposalError(env, s, op.proposal);
            if refused.Some? then Step(env, s, op, now) == s
            else Step(env, s, op, now) == SubmitProposal(env, s, op.proposal)
  {
    hide CaseCall, PaymentCall, SubmitProposalError, SubmitProposal;
  }

  lemma SignPactStep(env: Env, s: State, op: Op, now: int)
    requires op.OpSignPact?
    ensures var refused := SignPactError(env, s, op.pactId, op.signer, op.signature);
            if refused.Some? then Step(env, s, op, now) == s
            else && op.pactId in s.pacts
                 && s.pacts[op.pactId].terms.workspaceId in s.workspaces
                 && Step(env, s, op, now) == SignPact(s, op.pactId, op.signer, op.signature, now)
  {
    hide CaseCall, RegistryCall, SignPactError, SignPact;
    if SignPactError(env, s, op.pactId, op.signer, op.signature).None? {
      SignPactTarget(env, s, op.pactId, op.signer, op.signature);
    }
  }

  lemma PreparePaymentStep(env: Env, s: State, op: Op, now: int)
    requires op.OpPreparePayment?
    ensures var refused := PreparePaymentError(env, s, op.pactId, op.preparation, now);
            if refused.Some? then Step(env, s, op, now) == s
            else && op.pactId in s.pacts
                 && Step(env, s, op, now) == PreparePayment(s, op.pactId, op.preparation, now)
  {
    hide CaseCall, RegistryCall, PreparePaymentError, PreparePayment;
    if PreparePaymentError(env, s, op.pactId, op.preparation, now).None? {
      PreparePaymentTarget(env, s, op.pactId, op.preparation, now);
    }
  }

  lemma OpenPaymentStep(env: Env, s: State, op: Op, now: int)
    requires op.OpOpenPayment?
    ensures var refused := OpenPaymentError(env, s, op.pactId, op.metadataHash, op.paycardId, op.txHash, op.opening,
                now);
            if refused.Some? then Step(env, s, op, now) == s
            else && op.pactId in s.pacts
                 && s.pacts[op.pactId].openRails.Some?
                 && Step(env, s, op, now) == OpenPayment(s, op.pactId, op.txHash, op.opening, now)
  {
    hide CaseCall, RegistryCall, OpenPaymentError, OpenPayment;
    if OpenPaymentError(env, s, op.pactId, op.metadataHash, op.paycardId, op.txHash, op.opening, now).None? {
      OpenPaymentTarget(env, s, op.pactId, op.metadataHash, op.paycardId, op.txHash, op.opening, now);
    }
  }

  lemma RecordSettlementStep(env: Env, s: State, op: Op, now: int)
    requires op.OpRecordSettlement?
    ensures var refused := RecordSettlementError(env, s, op.pactId, op.txHash, op.amount, op.settlement);
            if refused.Some? then Step(env, s, op, now) == s
            else && op.pactId in s.pacts
                 && s.pacts[op.pactId].openRails.Some?
                 && Step(env, s, op, now) == RecordSettlement(s, op.pactId, op.settlement, now)
  {
    hide CaseCall, RegistryCall, RecordSettlementError, RecordSettlement;
    if RecordSettlementError(env, s, op.pactId, op.txHash, op.amount, op.settlement).None? {
      RecordSettlementTarget(env, s, op.pactId, op.txHash, op.amount, op.settlement);
    }
  }

  lemma SubmitCheckpointStep(env: Env, s: State, op: Op, now: int)
    requires op.OpSubmitCheckpoint?
    ensures var refused := SubmitCheckpointError(env, s, op.checkpoint, op.signature, now);
            if refused.Some? then Step(env, s, op, now) == s
            else && op.checkpoint.pactId in s.pacts
                 && Step(env, s, op, now) == SubmitCheckpoint(s, op.checkpoint, now)
  {
    hide PaymentCall, RegistryCall, SubmitCheckpointError, SubmitCheckpoint;
    if SubmitCheckpointError(env, s, op.checkpoint, op.signature, now).None? {
      SubmitCheckpointTarget(env, s, op.checkpoint, op.signature, now);
    }
  }

  lemma VerifyCheckpointStep(env: Env, s: State, op: Op, now: int)
    requires op.OpVerifyCheckpoint?
    ensures var refused := VerifyCheckpointError(env, s, op.checkpointId, op.key, op.verdict);
            if refused.Some? then Step(env, s, op, now) == s
            else && op.verdict.Some?
                 && op.checkpointId in s.checkpoints
                 && s.checkpoints[op.checkpointId].pactId in s.pacts
                 && Step(env, s, op, now) == VerifyCheckpoint(s, op.checkpointId, op.verdict.value, now)
  {
    hide PaymentCall, RegistryCall, VerifyCheckpointError, VerifyCheckpoint;
    if VerifyCheckpointError(env, s, op.checkpointId, op.key, op.verdict).None? {
      VerifyCheckpointTarget(env, s, op.checkpointId, op.key, op.verdict);
    }
  }

  lemma OpenGaiaCaseStep(env: Env, s: State, op: Op, now: int)
    requires op.OpOpenGaiaCase?
    ensures var refused := OpenGaiaCaseError(env, s, op.gaia, op.signature, now);
            if refused.Some? then Step(env, s, op, now) == s
            else && op.gaia.pactId in s.pacts
                 && Step(env, s, op, now) == OpenGaiaCase(s, op.gaia, now)
  {
    hide PaymentCall, RegistryCall, OpenGaiaCaseError, OpenGaiaCase;
    if OpenGaiaCaseError(env, s, op.gaia, op.signature, now).None? {
      OpenGaiaCaseTarget(env, s, op.gaia, op.signature, now);
    }
  }

  lemma ResolveGaiaCaseStep(env: Env, s: State, op: Op, now: int)
    requires op.OpResolveGaiaCase?
    ensures var refused := ResolveGaiaCaseError(env, s, op.caseId, op.resolver, op.decision, op.command, op.signature,
                now);
            if refused.Some? then Step(env, s, op, now) == s
            else && op.caseId in s.gaiaCases
                 && s.gaiaCases[op.caseId].pactId in s.pacts
                 && Step(env, s, op, now) == ResolveGaiaCase(s, op.caseId, op.decision, op.command, now)
  {
    hide PaymentCall, RegistryCall, ResolveGaiaCaseError, ResolveGaiaCase;
    if ResolveGaiaCaseError(env, s, op.caseId, op.resolver, op.decision, op.command, op.signature, now).None? {
      ResolveGaiaCaseTarget(env, s, op.caseId, op.resolver, op.decision, op.command, op.signature, now);
    }
  }

  lemma RunJobStep(env: Env, s: State, op: Op, now: int)
    requires op.OpRunJob?
    ensures Step(env, s, op, now) ==
              RunJob(s, op.jobId, op.jobId in s.jobs
                                  && AllowedNow(env, s, s.jobs[op.jobId].proposalId, op.identity, now))
  {
    hide CaseCall, PaymentCall, RunJob, AllowedNow;
  }

  lemma CreatePactStep(env: Env, s: State, op: Op, now: int)
    requires op.OpCreatePact?
    ensures var allow := AllowedNow(env, s, op.request.proposalId, op.identity, now);
            if CreatePactError(env, s, op.request, allow).Some? then Step(env, s, op, now) == s
            else && allow && CreatePactError(env, s, op.request, true).None?
                 && Step(env, s, op, now) == CreatePact(env, s, op.request, now)
  {
    hide CaseCall, RegistryCall, CreatePactError, CreatePact, AllowedNow;
    var allow := AllowedNow(env, s, op.request.proposalId, op.identity, now);
    if CreatePactError(env, s, op.request, allow).None? { CreateOnlyIfAllowed(env, s, op.request, allow); }
  }

  // ---- What each operation leaves alone -----------------------------------------------------------

  lemma SignPactFrame(s: State, id: string, signer: Address, signature: Signature, now: int)
    requires id in s.pacts && s.pacts[id].terms.workspaceId in s.workspaces
    ensures SameTerms(s, SignPact(s, id, signer, signature, now))
    ensures SameBindings(s, SignPact(s, id, signer, signature, now))
    ensures SameNonces(s, SignPact(s, id, signer, signature, now))
    ensures SameCases(s, SignPact(s, id, signer, signature, now))
    ensures LogsOne(s, SignPact(s, id, signer, signature, now))
  {
    hide FindSignature, Countersigned, SignedBy, SignaturesOf, SameText;
    if FindSignature(SignaturesOf(s, id), signer).Some? {
      SameReflexive(s);
    } else {
      var after := SignPact(s, id, signer, signature, now);
      assert after.pacts[id].terms == s.pacts[id].terms;
    }
  }

  lemma ResolveGaiaCaseFrame(s: State, caseId: string, d: GaiaDecision, c: Command, now: int)
    requires caseId in s.gaiaCases && s.gaiaCases[caseId].pactId in s.pacts
    ensures SameTerms(s, ResolveGaiaCase(s, caseId, d, c, now))
    ensures SameBindings(s, ResolveGaiaCase(s, caseId, d, c, now))
    ensures UsesNonceOf(s, ResolveGaiaCase(s, caseId, d, c, now), c)
    ensures LogsOne(s, ResolveGaiaCase(s, caseId, d, c, now))
  {
    hide Rectified, ResolvedStatus;
  }

  lemma VerifyCheckpointFrame(s: State, id: string, v: Verdict, now: int)
    requires id in s.checkpoints && s.checkpoints[id].pactId in s.pacts
    ensures SameTerms(s, VerifyCheckpoint(s, id, v, now)) && SameBindings(s, VerifyCheckpoint(s, id, v, now))
    ensures SameNonces(s, VerifyCheckpoint(s, id, v, now))
    ensures LogsOne(s, VerifyCheckpoint(s, id, v, now))
  {
    hide Verified;
  }

  lemma SubmitCheckpointFrame(s: State, c: Checkpoint, now: int)
    requires c.pactId in s.pacts
    ensures SameTerms(s, SubmitCheckpoint(s, c, now)) && SameBindings(s, SubmitCheckpoint(s, c, now))
    ensures SameNonces(s, SubmitCheckpoint(s, c, now))
    ensures LogsOne(s, SubmitCheckpoint(s, c, now))
  {
    hide Checkpointed;
  }

  lemma OpenGaiaCaseFrame(s: State, g: GaiaCase, now: int)
    requires g.pactId in s.pacts
    ensures SameTerms(s, OpenGaiaCase(s, g, now)) && SameBindings(s, OpenGaiaCase(s, g, now))
    ensures SameNonces(s, OpenGaiaCase(s, g, now))
    ensures LogsOne(s, OpenGaiaCase(s, g, now))
  {}

  lemma PreparePaymentFrame(s: State, id: string, q: Preparation, now: int)
    requires id in s.pacts
    ensures SameTerms(s, PreparePayment(s, id, q, now)) && SameNonces(s, PreparePayment(s, id, q, now))
    ensures OthersKept(s, PreparePayment(s, id, q, now), id)
    ensures LogsOne(s, PreparePayment(s, id, q, now))
  {
    hide Prepared;
  }

  lemma OpenPaymentFrame(s: State, id: string, txHash: Hex, o: OpeningObservation, now: int)
    requires id in s.pacts && s.pacts[id].openRails.Some?
    ensures SameTerms(s, OpenPayment(s, id, txHash, o, now)) && SameNonces(s, OpenPayment(s, id, txHash, o, now))
    ensures OthersKept(s, OpenPayment(s, id, txHash, o, now), id)
    ensures LogsOne(s, OpenPayment(s, id, txHash, o, now))
  {
    hide Opened;
  }

  lemma RecordSettlementFrame(s: State, id: string, o: SettlementObservation, now: int)
    requires id in s.pacts && s.pacts[id].openRails.Some?
    ensures SameTerms(s, RecordSettlement(s, id, o, now)) && SameNonces(s, RecordSettlement(s, id, o, now))
    ensures SameBindings(s, RecordSettlement(s, id, o, now)) && OthersKept(s, RecordSettlement(s, id, o, now), id)
    ensures LogsOne(s, RecordSettlement(s, id, o, now))
  {
    hide SettledWith;
  }

  /** A step of a Pact operation changes no registry and no Pact's terms; only a resolution uses a nonce. */
  lemma PactStepFrame(env: Env, s: State, op: Op, now: int)
    requires ChangesPact(op)
    ensures SameTerms(s, Step(env, s, op, now))
    ensures !op.OpResolveGaiaCase? ==> SameNonces(s, Step(env, s, op, now))
    ensures !op.OpPreparePayment? && !op.OpOpenPayment? ==> SameBindings(s, Step(env, s, op, now))
    ensures LogsOne(s, Step(env, s, op, now))
  {
    hide Step, LogsOne, SameTerms, SameNonces, SameBindings, SignPactError, SignPact, PreparePaymentError,
         PreparePayment, OpenPaymentError, OpenPayment, RecordSettlementError, RecordSettlement, SubmitCheckpointError,
         SubmitCheckpoint, VerifyCheckpointError, VerifyCheckpoint, OpenGaiaCaseError, OpenGaiaCase,
         ResolveGaiaCaseError, ResolveGaiaCase;
    SameReflexive(s);
    match op
    case OpSignPact(id, signer, sig) =>
      SignPactStep(env, s, op, now);
      if SignPactError(env, s, id, signer, sig).None? { SignPactFrame(s, id, signer, sig, now); }
    case OpPreparePayment(id, q) =>
      PreparePaymentStep(env, s, op, now);
      if PreparePaymentError(env, s, id, q, now).None? { PreparePaymentFrame(s, id, q, now); }
    case OpOpenPayment(id, m, card, tx, o) =>
      OpenPaymentStep(env, s, op, now);
      if OpenPaymentError(env, s, id, m, card, tx, o, now).None? { OpenPaymentFrame(s, id, tx, o, now); }
    case OpRecordSettlement(id, tx, amount, o) =>
      RecordSettlementStep(env, s, op, now);
      if RecordSettlementError(env, s, id, tx, amount, o).None? { RecordSettlementFrame(s, id, o, now); }
    case OpSubmitCheckpoint(c, sig) =>
      SubmitCheckpointStep(env, s, op, now);
      if SubmitCheckpointError(env, s, c, sig, now).None? { SubmitCheckpointFrame(s, c, now); }
    case OpVerifyCheckpoint(id, key, v) =>
      VerifyCheckpointStep(env, s, op, now);
      if VerifyCheckpointError(env, s, id, key, v).None? { VerifyCheckpointFrame(s, id, v.value, now); }
    case OpOpenGaiaCase(g, sig) =>
      OpenGaiaCaseStep(env, s, op, now);
      if OpenGaiaCaseError(env, s, g, sig, now).None? { OpenGaiaCaseFrame(s, g, now); }
    case OpResolveGaiaCase(id, r, d, c, sig) =>
      ResolveGaiaCaseStep(env, s, op, now);
      if ResolveGaiaCaseError(env, s, id, r, d, c, sig, now).None? { ResolveGaiaCaseFrame(s, id, d, c, now); }
  }

  lemma SameReflexive(s: State)
    ensures SameTerms(s, s) && SameNonces(s, s) && SameBindings(s, s) && SamePaths(s, s)
    ensures SamePacts(s, s) && SameJobs(s, s) && LogsOne(s, s)
  {}

  /** The registry operations leave every Pact alone, and Paths and jobs unless that is what they are for. */
  lemma RegistryStepFrame(env: Env, s: State, op: Op, now: int)
    requires !ChangesPact(op) && !op.OpCreatePact?
    ensures SamePacts(s, Step(env, s, op, now))
    ensures !op.OpActivatePath? ==> SamePaths(s, Step(env, s, op, now))
    ensures !op.OpSubmitProposal? && !op.OpRunJob? ==> SameJobs(s, Step(env, s, op, now))
    ensures CommandOf(op).None? ==> SameNonces(s, Step(env, s, op, now))
  {
    hide Step, SamePacts, SamePaths, SameJobs, SameNonces, RegisterWorkspaceError, RegisterAgentError,
         SetAgentStatusError, SetAgentStatus, ActivatePathError, ActivatePath, InstallPluginError, UseNonce,
         SubmitProposalError, SubmitProposal, RunJob, AllowedNow;
    SameReflexive(s);
    match op
    case OpRegisterWorkspace(w, _) =>
      RegisterWorkspaceStep(env, s, op, now);
      RegisterFrame(s, s.(workspaces := s.workspaces[w.workspaceId := w]));
    case OpRegisterAgent(a, _, _) =>
      RegisterAgentStep(env, s, op, now);
      RegisterFrame(s, s.(agents := s.agents[a.agentId := a]));
    case OpSetAgentStatus(w, a, status, c, sig) =>
      SetAgentStatusStep(env, s, op, now);
      if a in s.agents { SetAgentStatusFrame(s, a, status, c); }
    case OpActivatePath(path, sig) =>
      ActivatePathStep(env, s, op, now);
      ActivatePathFrame(env, s, path, sig);
    case OpInstallPlugin(key, m, c, _) =>
      InstallPluginStep(env, s, op, now);
      InstallPluginFrame(s, key, m, c);
    case OpSubmitProposal(p) =>
      SubmitProposalStep(env, s, op, now);
      SubmitProposalFrame(env, s, p);
    case OpRunJob(id, identity) =>
      RunJobStep(env, s, op, now);
      RunJobFrame(s, id, id in s.jobs && AllowedNow(env, s, s.jobs[id].proposalId, identity, now));
  }

  lemma RegisterFrame(s: State, r: State)
    requires r == s.(workspaces := r.workspaces, agents := r.agents)
    ensures SamePacts(s, r) && SamePaths(s, r) && SameJobs(s, r) && SameNonces(s, r)
  {}

  lemma SetAgentStatusFrame(s: State, agentId: string, status: AgentStatus, c: Command)
    requires agentId in s.agents
    ensures var r := SetAgentStatus(s, agentId, status, c);
            SamePacts(s, r) && SamePaths(s, r) && SameJobs(s, r) && UsesNonceOf(s, r, c)
  {}

  lemma ActivatePathFrame(env: Env, s: State, path: Path, signature: Signature)
    ensures var r := ActivatePath(env, s, path, signature);
            SamePacts(s, r) && SameJobs(s, r) && SameNonces(s, r)
    ensures ActivatePath(env, s, path, signature).paths ==
              s.paths[path.pathId := SignedPath(path, env.hashPath(path), path.authorityAccount, signature)]
  {
    hide Assign;
  }

  lemma InstallPluginFrame(s: State, key: (string, string), m: Manifest, c: Command)
    ensures var r := UseNonce(s, c).(plugins := s.plugins[key := m]);
            SamePacts(s, r) && SamePaths(s, r) && SameJobs(s, r) && UsesNonceOf(s, r, c)
  {}

  lemma SubmitProposalFrame(env: Env, s: State, p: Proposal)
    ensures var r := SubmitProposal(env, s, p); SamePacts(s, r) && SamePaths(s, r) && SameNonces(s, r)
  {
    hide AlreadySubmitted, SubmittedJob, AppendKey, IdempotencyKey, FindJob;
    if AlreadySubmitted(s, p) {
      SameReflexive(s);
    } else {
      var job := SubmittedJob(env, s, p);
      assert SubmitProposal(env, s, p) ==
             s.(proposals := s.proposals[p.proposalId := p], jobs := s.jobs[job.jobId := job],
                jobIds := AppendKey(s.jobIds, job.jobId),
                idempotency := s.idempotency[IdempotencyKey(p) := env.hashProposal(p)]);
    }
  }

  lemma RunJobFrame(s: State, jobId: string, allow: bool)
    ensures var r := RunJob(s, jobId, allow); SamePacts(s, r) && SamePaths(s, r) && SameNonces(s, r)
  {
    hide Evaluated;
  }

  ghost predicate AddsPact(env: Env, s: State, r: State, request: PactRequest, now: int) {
    && CreatePactError(env, s, request, true).None?
    && SameRegistry(s, r) && r.pactIds == AppendKey(s.pactIds, request.pactId)
    && r.pacts == s.pacts[request.pactId := NewPact(env, s, request, now)]
  }

  lemma CreatePactFrame(env: Env, s: State, r: PactRequest, now: int)
    requires CreatePactError(env, s, r, true).None?
    ensures AddsPact(env, s, CreatePact(env, s, r, now), r, now) && SameNonces(s, CreatePact(env, s, r, now))
  {
    hide CreatePactError, NewPact, AppendKey;
  }

  /** Creating a Pact either adds exactly the new one, the Proposal being allowed, or changes nothing. */
  lemma CreateStepFrame(env: Env, s: State, op: Op, now: int)
    requires op.OpCreatePact?
    ensures var r := Step(env, s, op, now);
            || r == s
            || (AddsPact(env, s, r, op.request, now) && AllowedNow(env, s, op.request.proposalId, op.identity, now))
    ensures SameNonces(s, Step(env, s, op, now))
  {
    hide Step, CreatePactError, CreatePact, AddsPact, Allowed, AllowedNow, SameNonces;
    SameReflexive(s);
    CreatePactStep(env, s, op, now);
    if Step(env, s, op, now) != s { CreatePactFrame(env, s, op.request, now); }
  }

  lemma StepPaths(env: Env, s: State, op: Op, now: int)
    requires !op.OpActivatePath?
    ensures Step(env, s, op, now).paths == s.paths
  {
    hide Step, CreatePactError, NewPact, AllowedNow;
    if ChangesPact(op) { PactStepFrame(env, s, op, now); }
    else if op.OpCreatePact? { CreateStepFrame(env, s, op, now); }
    else { RegistryStepFrame(env, s, op, now); }
  }
}
