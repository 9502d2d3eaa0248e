// The operations as they run on a draft: each method looks its records up, throws where the source throws and updates
// the draft in place. A call that throws leaves a draft behind that nobody saves.
module AgentKernel {
  import opened Prelude
  import opened KernelTypes
  import opened Policy
  import opened KernelOps
  import opened KernelSafety
  import opened KernelFrames

  class Draft {
    const env: Env
    var workspaces: map<string, Workspace>
    var agents: map<string, Agent>
    var paths: map<string, SignedPath>
    var pactIds: seq<string>
    var pacts: map<string, Pact>
    var pactSignatures: map<string, seq<PactSignature>>
    var pactEvents: seq<PactEvent>
    var proposals: map<string, Proposal>
    var plugins: map<(string, string), Manifest>
    var checkpoints: map<string, Checkpoint>
    var gaiaCases: map<string, GaiaCase>
    var jobIds: seq<string>
    var jobs: map<string, Job>
    var idempotency: map<string, Hex>
    var commandNonces: map<string, nat>

    /** The draft that clone(await load()) gives a transaction. */
    constructor (env: Env, s: State)
      ensures this.env == env && Snapshot() == s
    {
      this.env := env;
      workspaces, agents, paths := s.workspaces, s.agents, s.paths;
      pactIds, pacts, pactSignatures, pactEvents := s.pactIds, s.pacts, s.pactSignatures, s.pactEvents;
      proposals, plugins, checkpoints, gaiaCases := s.proposals, s.plugins, s.checkpoints, s.gaiaCases;
      jobIds, jobs, idempotency, commandNonces := s.jobIds, s.jobs, s.idempotency, s.commandNonces;
    }

    function Snapshot(): State
      reads this
    {
      State(workspaces, agents, paths, pactIds, pacts, pactSignatures, pactEvents, proposals, plugins, checkpoints,
            gaiaCases, jobIds, jobs, idempotency, commandNonces)
    }

    method RecordPactEvent(pact: Pact, id: string, kind: PactEventKind, now: int, allocation: Option<string>)
      modifies this`pactEvents
      ensures pactEvents == old(pactEvents) + [PactEvent(id, pact.terms.workspaceId, kind, now, allocation)]
    {
      pactEvents := pactEvents + [PactEvent(id, pact.terms.workspaceId, kind, now, allocation)];
    }

    /** authorizeWorkspaceCommand: the command's nonce is used up as soon as the command itself is in order. */
    method AuthorizeCommand(c: Command, signature: Signature, operation: Operation, payload: Payload, now: int)
      returns (error: Error)
      modifies this`commandNonces
      ensures error == CommandError(env, old(Snapshot()), c, signature, operation, payload, now)
      ensures error.None? ==> c.workspaceId in workspaces && Snapshot() == UseNonce(old(Snapshot()), c)
    {
      if c.workspaceId !in workspaces { return Some("Workspace not found"); }
      var workspace := workspaces[c.workspaceId];
      if !workspace.active { return Some("Workspace is not active"); }
      if c.operation != operation { return Some("Workspace command operation mismatch"); }
      if c.payloadHash != env.hashPayload(payload) { return Some("Workspace command payload hash mismatch"); }
      if c.workspaceRevision != workspace.revision { return Some("Workspace command revision is stale"); }
      var expected := if c.workspaceId in commandNonces then commandNonces[c.workspaceId] else 0;
      if c.nonce != expected { return Some("Workspace command nonce mismatch"); }
      if c.issuedAt > now + 30000 { return Some("Workspace command issuedAt is in the future"); }
      if c.expiresAt <= now { return Some("Workspace command expired"); }
      if c.expiresAt - c.issuedAt > 900000 { return Some("Workspace command lifetime exceeds 15 minutes"); }
      var valid := env.verify(CommandMessage(c), signature, workspace.authorityAccount);
      if !valid { return Some("Workspace command signature is invalid"); }
      commandNonces := commandNonces[c.workspaceId := expected + 1];
      return None;
    }

    /** assertPactExecutionEligible: the lookups and checks one after another, each of which throws. */
    method CheckEligible(pact: Pact, now: int) returns (eligible: bool)
      ensures eligible <==> Eligible(env, Snapshot(), pact, now)
    {
      hide PactIntact, Lists;
      var t := pact.terms;
      if !PactIntact(env, pact) { return false; }
      if t.workspaceId !in workspaces || !workspaces[t.workspaceId].active { return false; }
      if t.agentId !in agents { return false; }
      var agent := agents[t.agentId];
      if agent.workspaceId != t.workspaceId || agent.status != AgentActive { return false; }
      if t.pathId !in paths { return false; }
      var signedPath := paths[t.pathId];
      var path := signedPath.artifact;
      if signedPath.hash != t.pathHash || path.revision != t.pathRevision { return false; }
      if path.status != PathActive { return false; }
      if path.validFrom > now || path.expiresAt <= now { return false; }
      if t.agentId !in path.authorizedAgentIds { return false; }
      if t.actionType !in path.permittedActions { return false; }
      if !Lists(path.permittedAssets, t.payment.token) { return false; }
      if path.permittedCounterparties != [] && !Lists(path.permittedCounterparties, t.counterparty) { return false; }
      return true;
    }

    method RegisterWorkspace(w: Workspace, signature: Signature) returns (error: Error)
      modifies this
      ensures error == RegisterWorkspaceError(env, old(Snapshot()), w, signature)
      ensures error.None? ==> Snapshot() == old(Snapshot()).(workspaces := old(workspaces)[w.workspaceId := w])
    {
      hide ActiveOwner;
      if w.revision < 1 { return Some("Workspace revision must be positive"); }
      if !ActiveOwner(w, w.authorityAccount) {
        return Some("Workspace authority must be an active owner member");
      }
      var valid := env.verify(WorkspaceMessage(w), signature, w.authorityAccount);
      if !valid { return Some("Workspace authority signature is invalid"); }
      if w.workspaceId in workspaces { return Some("Workspace already exists"); }
      workspaces := workspaces[w.workspaceId := w];
      return None;
    }

    method RegisterAgent(a: Agent, signer: Address, signature: Signature) returns (error: Error)
      modifies this
      ensures error == RegisterAgentError(env, old(Snapshot()), a, signer, signature)
      ensures error.None? ==> Snapshot() == old(Snapshot()).(agents := old(agents)[a.agentId := a])
    {
      hide SameText;
      if a.revision < 1 { return Some("Agent revision must be positive"); }
      if a.workspaceId !in workspaces { return Some("Workspace not found"); }
      if !SameText(workspaces[a.workspaceId].authorityAccount, signer) { return Some("Workspace authority mismatch"); }
      if a.agentId in agents { return Some("Agent already exists"); }
      var valid := env.verify(AgentMessage(a), signature, signer);
      if !valid { return Some("Agent registration signature is invalid"); }
      agents := agents[a.agentId := a];
      return None;
    }

    method SetAgentStatus(workspaceId: string, agentId: string, status: AgentStatus, c: Command,
                          signature: Signature, now: int) returns (error: Error)
      modifies this
      ensures error == SetAgentStatusError(env, old(Snapshot()), workspaceId, agentId, status, c, signature, now)
      ensures error.None? ==>
                && agentId in old(agents)
                && Snapshot() == KernelOps.SetAgentStatus(old(Snapshot()), agentId, status, c)
    {
      hide CommandError, SamePacts, SameRegistry, NextNonce;
      error := AuthorizeCommand(c, signature, SetAgentStatusOperation,
                                AgentStatusPayload(workspaceId, agentId, status), now);
      if error.Some? { return; }
      if c.workspaceId != workspaceId { return Some("Workspace command target mismatch"); }
      if agentId !in agents { return Some("Agent not found"); }
      var agent := agents[agentId];
      if agent.workspaceId != workspaceId { return Some("Agent Workspace mismatch"); }
      agent := agent.(status := status);
      agent := agent.(revision := agent.revision + 1);
      agents := agents[agentId := agent];
    }

    method ActivatePath(path: Path, signature: Signature) returns (error: Error)
      modifies this
      ensures error == ActivatePathError(env, old(Snapshot()), path, signature)
      ensures error.None? ==> Snapshot() == KernelOps.ActivatePath(env, old(Snapshot()), path, signature)
    {
      hide KernelOps.ActivatePath;
      error := CheckPath(path, signature);
      if error.Some? { return; }
      StorePath(path, signature);
    }

    method CheckPath(path: Path, signature: Signature) returns (error: Error)
      ensures error == ActivatePathError(env, Snapshot(), path, signature)
    {
      hide PathWellFormed, ActiveOwner, SameText;
      if !PathWellFormed(path) { return Some("Path is malformed"); }
      var valid := env.verify(PathMessage(path), signature, path.authorityAccount);
      if !valid { return Some("Path authority signature is invalid"); }
      if path.workspaceId !in workspaces { return Some("Workspace not found"); }
      var workspace := workspaces[path.workspaceId];
      if !SameText(workspace.authorityAccount, path.authorityAccount) { return Some("Workspace authority mismatch"); }
      if !ActiveOwner(workspace, path.owner) { return Some("Path owner must be an active Workspace owner"); }
      for i := 0 to |path.authorizedAgentIds|
        invariant forall k :: 0 <= k < i ==> ActiveAgentOf(Snapshot(), path.authorizedAgentIds[k], path.workspaceId)
      {
        var agentId := path.authorizedAgentIds[i];
        if agentId !in agents || agents[agentId].workspaceId != path.workspaceId
           || agents[agentId].status != AgentActive {
          assert !ActiveAgentOf(Snapshot(), path.authorizedAgentIds[i], path.workspaceId);
          return Some("Agent is not active in this Workspace");
        }
      }
      if path.pathId !in paths {
        if path.revision != 1 { return Some("New Path revision must be 1"); }
        return None;
      }
      var existing := paths[path.pathId];
      if path.revision != existing.artifact.revision + 1 { return Some("Path revision conflict"); }
      if path.previousPathHash != Some(existing.hash) { return Some("Path previous hash mismatch"); }
      if path.workspaceId != existing.artifact.workspaceId {
        return Some("Path Workspace cannot change across revisions");
      }
      if !SameText(path.owner, existing.artifact.owner) { return Some("Path owner cannot change across revisions"); }
      if !SameText(path.authorityAccount, existing.artifact.authorityAccount) {
        return Some("Path authority cannot change across revisions");
      }
      return None;
    }

    method StorePath(path: Path, signature: Signature)
      modifies this
      ensures Snapshot() == KernelOps.ActivatePath(env, old(Snapshot()), path, signature)
    {
      paths := paths[path.pathId := SignedPath(path, env.hashPath(path), path.authorityAccount, signature)];
      AssignAgents(path.authorizedAgentIds, path.pathId);
    }

    /** Each authorised Agent that is known gets the Path once, however often it is listed. */
    method AssignAgents(agentIds: seq<string>, pathId: string)
      modifies this`agents
      ensures agents == map id | id in old(agents) ::
                if id in agentIds then Assign(old(agents)[id], pathId) else old(agents)[id]
    {
      for i := 0 to |agentIds|
        invariant agents.Keys == old(agents).Keys
        invariant forall id :: id in agents ==>
                    agents[id] == if id in agentIds[..i] then Assign(old(agents)[id], pathId) else old(agents)[id]
      {
        var id := agentIds[i];
        if id in agents && pathId !in agents[id].assignedPathIds {
          agents := agents[id := agents[id].(assignedPathIds := agents[id].assignedPathIds + [pathId])];
        }
        assert agentIds[..i + 1] == agentIds[..i] + [id];
      }
      assert agentIds[..|agentIds|] == agentIds;
    }

    method InstallPlugin(key: (string, string), manifest: Manifest, c: Command, signature: Signature, now: int)
      returns (error: Error)
      modifies this
      ensures error == InstallPluginError(env, old(Snapshot()), key, manifest, c, signature, now)
      ensures error.None? ==> Snapshot() == UseNonce(old(Snapshot()), c).(plugins := old(plugins)[key := manifest])
    {
      hide CommandError, SamePacts, SameRegistry, NextNonce;
      if |manifest.installedWorkspaceIds| != 1 {
        return Some("V1 plugin installation must target exactly one Workspace");
      }
      var valid := env.verify(PluginMessage(key.0, key.1, manifest.codeDigest, manifest.publisher),
                              manifest.publisherSignature, manifest.publisher);
      if !valid { return Some("plugin publisher signature is invalid"); }
      var workspaceId := manifest.installedWorkspaceIds[0];
      error := AuthorizeCommand(c, signature, InstallPluginOperation,
                                PluginPayload(workspaceId, key.0, key.1, manifest.codeDigest), now);
      if error.Some? { return; }
      if c.workspaceId != workspaceId { return Some("Workspace command target mismatch"); }
      if key in plugins && plugins[key].codeDigest != manifest.codeDigest {
        return Some("plugin version digest conflict");
      }
      plugins := plugins[key := manifest];
    }

    /** Object.values(state.jobs).find((entry) => entry.proposalId === proposalId). */
    method FindJobOf(proposalId: string) returns (job: Option<Job>)
      ensures job == FindJob(jobIds, jobs, proposalId)
    {
      for i := 0 to |jobIds|
        invariant FindJob(jobIds, jobs, proposalId) == FindJob(jobIds[i..], jobs, proposalId)
      {
        if jobIds[i] in jobs && jobs[jobIds[i]].proposalId == proposalId {
          return Some(jobs[jobIds[i]]);
        }
        assert jobIds[i..][1..] == jobIds[i + 1..];
      }
      return None;
    }

    method SubmitProposal(p: Proposal) returns (error: Error, job: Job)
      modifies this
      ensures error == SubmitProposalError(env, old(Snapshot()), p)
      ensures error.None? ==>
                && job == SubmittedJob(env, old(Snapshot()), p)
                && Snapshot() == KernelOps.SubmitProposal(env, old(Snapshot()), p)
    {
      hide IdempotencyKey, FindJob, PositiveUnits;
      job := Job(env.jobId(p.proposalId), p.proposalId, Queued, 0);
      if !(PositiveUnits(p.allocation) && PositiveUnits(p.velocity) && p.durationSeconds > 0) {
        return Some("Proposal is malformed"), job;
      }
      var fingerprint, key := env.hashProposal(p), IdempotencyKey(p);
      if key in idempotency {
        if idempotency[key] != fingerprint { return Some("idempotency conflict"), job; }
        var previousJob := FindJobOf(p.proposalId);
        if p.proposalId !in proposals || previousJob.None? {
          return Some("idempotency record is inconsistent"), job;
        }
        return None, previousJob.value;
      }
      if p.proposalId in proposals { return Some("Proposal ID already exists"), job; }
      StoreProposal(p, job);
      return None, job;
    }

    method StoreProposal(p: Proposal, job: Job)
      requires IdempotencyKey(p) !in idempotency && job == SubmittedJob(env, Snapshot(), p)
      modifies this
      ensures Snapshot() == KernelOps.SubmitProposal(env, old(Snapshot()), p)
    {
      hide AppendKey, IdempotencyKey, SubmittedJob;
      proposals := proposals[p.proposalId := p];
      jobs := jobs[job.jobId := job];
      jobIds := AppendKey(jobIds, job.jobId);
      idempotency := idempotency[IdempotencyKey(p) := env.hashProposal(p)];
    }

    method Decide(proposalId: string, identity: Identity, now: int) returns (allow: bool)
      requires proposalId in proposals
      ensures allow == AllowedNow(env, Snapshot(), proposalId, identity, now)
    {
      hide Allowed;
      var reasons;
      reasons, allow := EvaluateProposal(env, Snapshot(), proposals[proposalId], identity, now);
    }

    /** One worker's transaction; the candidate was chosen from an earlier state. */
    method RunJob(jobId: string, identity: Identity, now: int)
      modifies this
      ensures Snapshot() == KernelOps.RunJob(old(Snapshot()), jobId,
                jobId in old(jobs) && AllowedNow(env, old(Snapshot()), old(jobs)[jobId].proposalId, identity, now))
    {
      hide Allowed;
      if jobId !in jobs || jobs[jobId].state != Queued {
        return;
      }
      var job := jobs[jobId];
      var next := job.(state := JobFailed, attempts := job.attempts + 1);
      if job.proposalId in proposals {
        var allow := Decide(job.proposalId, identity, now);
        next := next.(state := if allow then JobCompleted else JobBlocked);
      }
      jobs := jobs[jobId := next];
    }

    method CreatePact(r: PactRequest, identity: Identity, now: int) returns (error: Error)
      modifies this
      ensures error == CreatePactError(env, old(Snapshot()), r,
                                       AllowedNow(env, old(Snapshot()), r.proposalId, identity, now))
      ensures error.None? ==>
                && CreatePactError(env, old(Snapshot()), r, true).None?
                && Snapshot() == KernelOps.CreatePact(env, old(Snapshot()), r, now)
    {
      hide AllowedNow, CreatePactError, KernelOps.CreatePact;
      error := CheckPact(r, identity, now);
      if error.Some? { return; }
      CreateOnlyIfAllowed(env, Snapshot(), r, AllowedNow(env, Snapshot(), r.proposalId, identity, now));
      StorePact(r, now);
    }

    method CheckPact(r: PactRequest, identity: Identity, now: int) returns (error: Error)
      ensures error == CreatePactError(env, Snapshot(), r, AllowedNow(env, Snapshot(), r.proposalId, identity, now))
    {
      hide AllowedNow, EvidenceError;
      if r.proposalId !in proposals { return Some("Proposal not found"); }
      var p := proposals[r.proposalId];
      if p.counterparty.None? {
        return Some("Payable Pact requires the approved proposal counterparty");
      }
      if r.pactId in pacts { return Some("Pact already exists"); }
      if p.workspaceId !in workspaces || !workspaces[p.workspaceId].active {
        return Some("Workspace is not active");
      }
      if p.agentId !in agents || agents[p.agentId].workspaceId != p.workspaceId
         || agents[p.agentId].status != AgentActive {
        return Some("Agent is not active in the Workspace");
      }
      var allowed := Decide(r.proposalId, identity, now);
      if !allowed { return Some("Proposal is not currently allowed by Baphomet"); }
      if p.pathId !in paths { return Some("Path not found"); }
      error := CheckEvidence(p);
    }

    method CheckEvidence(p: Proposal) returns (error: Error)
      requires p.pathId in paths
      ensures error == EvidenceError(env, Snapshot(), p)
    {
      hide FindPlugin, PositiveUnits;
      var key := FindApproved(paths[p.pathId].artifact.approvedPlugins, p.evidencePolicyId);
      if key.None? { return Some("Proposal evidence policy is not approved by the active Path"); }
      if key.value !in plugins || !plugins[key.value].active {
        return Some("Pact evidence plugin is not active");
      }
      var manifest := plugins[key.value];
      if p.workspaceId !in manifest.installedWorkspaceIds {
        return Some("Pact evidence plugin is not installed in the Workspace");
      }
      if key.value !in env.implementations || env.implementations[key.value] != manifest.codeDigest {
        return Some("Pact evidence plugin implementation does not match its installed manifest");
      }
      if !(PositiveUnits(p.allocation) && PositiveUnits(p.velocity) && p.durationSeconds > 0) {
        return Some("Pact terms are malformed");
      }
      return None;
    }

    /** approvedVerificationPlugins.find((entry) => entry.pluginId === pluginId). */
    static method FindApproved(approved: seq<(string, string)>, pluginId: string)
      returns (key: Option<(string, string)>)
      ensures key == FindPlugin(approved, pluginId)
    {
      for i := 0 to |approved|
        invariant FindPlugin(approved, pluginId) == FindPlugin(approved[i..], pluginId)
      {
        if approved[i].0 == pluginId { return Some(approved[i]); }
        assert approved[i..][1..] == approved[i + 1..];
      }
      return None;
    }

    method StorePact(r: PactRequest, now: int)
      requires CreatePactError(env, Snapshot(), r, true).None?
      modifies this
      ensures Snapshot() == KernelOps.CreatePact(env, old(Snapshot()), r, now)
    {
      hide CreatePactError, NewPact, AppendKey;
      var pact := NewPact(env, Snapshot(), r, now);
      pacts := pacts[r.pactId := pact];
      pactIds := AppendKey(pactIds, r.pactId);
      pactSignatures := pactSignatures[r.pactId := []];
      RecordPactEvent(pact, r.pactId, PactCreated, now, None);
    }

    /** signatures.find((entry) => same signer). */
    static method FindRecorded(signatures: seq<PactSignature>, signer: Address) returns (found: Option<PactSignature>)
      ensures found == FindSignature(signatures, signer)
    {
      hide SameText;
      for i := 0 to |signatures|
        invariant FindSignature(signatures, signer) == FindSignature(signatures[i..], signer)
      {
        if SameText(signatures[i].signer, signer) { return Some(signatures[i]); }
        assert signatures[i..][1..] == signatures[i + 1..];
      }
      return None;
    }

    method SignPact(pactId: string, signer: Address, signature: Signature, now: int) returns (error: Error)
      modifies this
      ensures error == SignPactError(env, old(Snapshot()), pactId, signer, signature)
      ensures error.None? ==>
                && pactId in old(pacts) && old(pacts)[pactId].terms.workspaceId in old(workspaces)
                && Snapshot() == KernelOps.SignPact(old(Snapshot()), pactId, signer, signature, now)
    {
      hide KernelOps.SignPact, FindSignature, SameText;
      if pactId !in pacts { return Some("Pact not found"); }
      var pact := pacts[pactId];
      if pact.terms.workspaceId !in workspaces { return Some("Workspace not found"); }
      var workspace := workspaces[pact.terms.workspaceId];
      if !(SameText(signer, workspace.authorityAccount) || SameText(signer, pact.terms.counterparty)) {
        return Some("Pact signer is neither Workspace authority nor counterparty");
      }
      var signatures := if pactId in pactSignatures then pactSignatures[pactId] else [];
      var existing := FindRecorded(signatures, signer);
      if existing.Some? {
        if existing.value.hash != pact.termsHash || existing.value.signature != signature {
          return Some("Pact signer already recorded a different signature");
        }
        RepeatedSignature(Snapshot(), pactId, signer, signature, now);
        return None;
      }
      if pact.status != AwaitingSignatures { return Some("Pact is no longer accepting signatures"); }
      if env.hashTerms(pact.terms) != pact.termsHash { return Some("Pact immutable terms hash mismatch"); }
      var valid := env.verify(PactMessage(pact.terms, pact.termsHash), signature, signer);
      if !valid { return Some("Pact signature is invalid"); }
      StoreSignature(pactId, signer, signature, now);
      return None;
    }

    method StoreSignature(pactId: string, signer: Address, signature: Signature, now: int)
      requires pactId in pacts && pacts[pactId].terms.workspaceId in workspaces
      requires FindSignature(SignaturesOf(Snapshot(), pactId), signer).None?
      modifies this
      ensures Snapshot() == KernelOps.SignPact(old(Snapshot()), pactId, signer, signature, now)
    {
      hide FindSignature, Countersigned, PaymentBinding, HasOpening;
      var pact := pacts[pactId];
      var signatures := if pactId in pactSignatures then pactSignatures[pactId] else [];
      signatures := signatures + [PactSignature(pact.terms, pact.termsHash, signer, signature)];
      var next := AdvanceOnSignature(pact, workspaces[pact.terms.workspaceId].authorityAccount, signatures);
      StoreSigned(pactId, next, signatures, now);
    }

    method StoreSigned(pactId: string, pact: Pact, signatures: seq<PactSignature>, now: int)
      modifies this
      ensures Snapshot() == WithPact(old(Snapshot()), pactId, pact,
                                     if pact.status == Accepted then PactAccepted else PactSignatureAdded, now, None)
                            .(pactSignatures := old(pactSignatures)[pactId := signatures])
    {
      pactSignatures := pactSignatures[pactId := signatures];
      pacts := pacts[pactId := pact];
      RecordPactEvent(pact, pactId, if pact.status == Accepted then PactAccepted else PactSignatureAdded, now, None);
    }

    method PreparePayment(pactId: string, q: Preparation, now: int) returns (error: Error)
      modifies this
      ensures error == PreparePaymentError(env, old(Snapshot()), pactId, q, now)
      ensures error.None? ==>
                pactId in old(pacts) && Snapshot() == KernelOps.PreparePayment(old(Snapshot()), pactId, q, now)
    {
      hide Eligible;
      if q.genesisTimestamp < 0 { return Some("genesisTimestamp is required for payment preparation"); }
      if q.nonceChannel < 0 { return Some("nonceChannel is required for payment preparation"); }
      if q.nonceValue < 0 { return Some("nonceValue is required for payment preparation"); }
      if pactId !in pacts { return Some("Pact not found"); }
      var pact := pacts[pactId];
      var eligible := CheckEligible(pact, now);
      if !eligible { return Some("Pact is not eligible for execution"); }
      if !(pact.status in {Accepted, PaymentPrepared, AwaitingWallet}) {
        return Some("Pact is not ready for OpenRails preparation");
      }
      pact := pact.(openRails := Some(OpenRails(q.metadataHash, q.paycardId, q.genesisTimestamp, q.nonceChannel,
                                                q.nonceValue, None, None, [])));
      pact := pact.(status := PaymentPrepared);
      pact := pact.(revision := pact.revision + 1);
      pacts := pacts[pactId := pact];
      RecordPactEvent(pact, pactId, PaymentPreparedEvent, now, Some(pact.terms.payment.maximumAllocation));
      return None;
    }

    method OpenPayment(pactId: string, metadataHash: Hex, paycardId: Hex, txHash: Hex, o: OpeningObservation, now: int)
      returns (error: Error)
      modifies this
      ensures error == OpenPaymentError(env, old(Snapshot()), pactId, metadataHash, paycardId, txHash, o, now)
      ensures error.None? ==>
                && pactId in old(pacts) && old(pacts)[pactId].openRails.Some?
                && Snapshot() == KernelOps.OpenPayment(old(Snapshot()), pactId, txHash, o, now)
    {
      hide Eligible, OpeningMatches;
      if pactId !in pacts { return Some("Pact not found"); }
      var pact := pacts[pactId];
      var eligible := CheckEligible(pact, now);
      if !eligible { return Some("Pact is not eligible for execution"); }
      if pact.openRails.None? { return Some("Payment preparation disappeared before opening verification"); }
      if !(pact.status in {PaymentPrepared, AwaitingWallet}) {
        return Some("Pact is not awaiting canonical OpenRails opening");
      }
      var payment := pact.openRails.value;
      if payment.metadataHash != metadataHash || payment.paycardId != paycardId {
        return Some("Prepared payment changed during opening verification");
      }
      if !OpeningMatches(pact.terms, metadataHash, paycardId, txHash, o) {
        return Some("Opening observation mismatch");
      }
      payment := payment.(openingTxHash := Some(txHash));
      payment := payment.(opening := Some(o));
      pact := pact.(openRails := Some(payment), status := Active, revision := pact.revision + 1);
      pacts := pacts[pactId := pact];
      RecordPactEvent(pact, pactId, PaymentOpenedCanonical, now, Some(pact.terms.payment.maximumAllocation));
      return None;
    }

    /** pact.status, pact.revision and the payment as the update statements of each operation leave them. */
    static method AdvanceOnSignature(pact: Pact, authority: Address, signatures: seq<PactSignature>)
      returns (next: Pact)
      ensures next == Countersigned(pact, authority, signatures)
    {
      next := pact;
      var authoritySigned := SignedBy(signatures, authority);
      var counterpartySigned := SignedBy(signatures, pact.terms.counterparty);
      if authoritySigned && (!pact.terms.requiresCounterpartySignature || counterpartySigned) {
        next := next.(status := Accepted);
        next := next.(revision := next.revision + 1);
      }
    }

    static method AdvanceOnCheckpoint(pact: Pact) returns (next: Pact)
      ensures next == Checkpointed(pact)
    {
      next := pact;
      if next.status == Active {
        next := next.(status := Performing);
      }
      next := next.(revision := next.revision + 1);
    }

    static method AdvanceOnVerdict(pact: Pact, c: Checkpoint, verdict: Verdict) returns (next: Pact)
      ensures next == Verified(pact, c, verdict)
    {
      next := pact;
      if verdict == Rejected {
        next := next.(status := Disputed);
        next := next.(revision := next.revision + 1);
      } else if verdict == Approved && c.completes {
        next := next.(status := Completed);
        next := next.(revision := next.revision + 1);
      }
    }

    static method AdvanceOnResolution(gaia: GaiaCase, pact: Pact, decision: GaiaDecision)
      returns (nextCase: GaiaCase, next: Pact)
      ensures nextCase == gaia.(status := ResolvedStatus(decision)) && next == Rectified(pact, decision)
    {
      nextCase, next := gaia, pact;
      if Rectifies(decision) {
        nextCase := nextCase.(status := GaiaRectification);
        next := next.(status := RectificationRequired);
      } else {
        nextCase := nextCase.(status := if decision == Dismiss then GaiaDismissed else GaiaResolvedStatus);
      }
      next := next.(revision := next.revision + 1);
    }

    static method AdvanceOnSettlement(pact: Pact, o: SettlementObservation) returns (next: Pact)
      requires pact.openRails.Some?
      ensures next == SettledWith(pact, o)
    {
      var payment := pact.openRails.value;
      if !HasSettlement(payment.settlements, o.transactionHash) {
        payment := payment.(settlements := payment.settlements + [o]);
      }
      next := pact.(openRails := Some(payment));
      if o.final {
        next := next.(status := Settled);
      }
      next := next.(revision := next.revision + 1);
    }

    method SubmitCheckpoint(c: Checkpoint, signature: Signature, now: int) returns (error: Error)
      modifies this
      ensures error == SubmitCheckpointError(env, old(Snapshot()), c, signature, now)
      ensures error.None? ==>
                c.pactId in old(pacts) && Snapshot() == KernelOps.SubmitCheckpoint(old(Snapshot()), c, now)
    {
      hide SubmitCheckpointError, Checkpointed, PaymentBinding;
      error := CheckCheckpoint(c, signature, now);
      if error.Some? { return; }
      SubmitCheckpointTarget(env, Snapshot(), c, signature, now);
      checkpoints := checkpoints[c.checkpointId := c];
      var pact := AdvanceOnCheckpoint(pacts[c.pactId]);
      pacts := pacts[c.pactId := pact];
      RecordPactEvent(pact, c.pactId, CheckpointSubmitted, now, None);
    }

    method CheckCheckpoint(c: Checkpoint, signature: Signature, now: int) returns (error: Error)
      ensures error == SubmitCheckpointError(env, Snapshot(), c, signature, now)
    {
      hide PactIntact, SameText, CheckpointIds;
      if c.validUntil <= now { return Some("checkpoint signature expired"); }
      if c.pactId !in pacts { return Some("Pact not found"); }
      var pact := pacts[c.pactId];
      if !PactIntact(env, pact) { return Some("Pact is malformed"); }
      if pact.terms.workspaceId !in workspaces { return Some("Workspace not found"); }
      var workspace := workspaces[pact.terms.workspaceId];
      if pact.terms.agentId !in agents { return Some("Agent not found"); }
      var agent := agents[pact.terms.agentId];
      if pact.terms.workspaceId != c.workspaceId || pact.terms.pathId != c.pathId {
        return Some("checkpoint Pact binding mismatch");
      }
      if c.termsHash != pact.termsHash { return Some("checkpoint Pact terms hash mismatch"); }
      if !SameText(c.counterparty, pact.terms.counterparty) { return Some("checkpoint counterparty mismatch"); }
      if pact.openRails.Some? && c.paycardId != Some(pact.openRails.value.paycardId) {
        return Some("checkpoint Paycard binding mismatch");
      }
      if !(pact.status in {Active, Performing, Disputed}) { return Some("Pact is not accepting checkpoints"); }
      if c.checkpointId in checkpoints { return Some("checkpoint already exists"); }
      var expectedIndex := |CheckpointIds(Snapshot(), c.pactId)| + 1;
      if c.index != expectedIndex { return Some("checkpoint index mismatch"); }
      if !(SameText(c.submittedBy, workspace.authorityAccount) || SameText(c.submittedBy, pact.terms.counterparty)
           || SameText(c.submittedBy, agent.operator)) {
        return Some("checkpoint submitter is not a Pact participant or Agent operator");
      }
      if !SameText(c.actor, c.submittedBy) { return Some("checkpoint actor must match the signing submitter in V1"); }
      var valid := env.verify(CheckpointMessage(c), signature, c.submittedBy);
      if !valid { return Some("checkpoint signature is invalid"); }
      return None;
    }

    method VerifyCheckpoint(checkpointId: string, key: (string, string), verdict: Option<Verdict>, now: int)
      returns (error: Error)
      modifies this
      ensures error == VerifyCheckpointError(env, old(Snapshot()), checkpointId, key, verdict)
      ensures error.None? ==>
                && verdict.Some? && checkpointId in old(checkpoints)
                && old(checkpoints)[checkpointId].pactId in old(pacts)
                && Snapshot() == KernelOps.VerifyCheckpoint(old(Snapshot()), checkpointId, verdict.value, now)
    {
      hide VerifyCheckpointError, Verified, PaymentBinding;
      error := CheckVerdict(checkpointId, key, verdict);
      if error.Some? { return; }
      VerifyCheckpointTarget(env, Snapshot(), checkpointId, key, verdict);
      var c := checkpoints[checkpointId];
      var pact := AdvanceOnVerdict(pacts[c.pactId], c, verdict.value);
      pacts := pacts[c.pactId := pact];
      RecordPactEvent(pact, c.pactId, CheckpointVerified, now, None);
    }

    /** What is checked before, and by, asking the plugin for its verdict. */
    method CheckVerdict(checkpointId: string, key: (string, string), verdict: Option<Verdict>) returns (error: Error)
      ensures error == VerifyCheckpointError(env, Snapshot(), checkpointId, key, verdict)
    {
      if checkpointId !in checkpoints { return Some("checkpoint not found"); }
      var c := checkpoints[checkpointId];
      if c.pactId !in pacts { return Some("Pact not found"); }
      var pact := pacts[c.pactId];
      if key != (pact.terms.evidencePolicyId, pact.terms.evidencePolicyVersion) {
        return Some("verification plugin does not match the immutable Pact evidence policy");
      }
      if key !in plugins || !plugins[key].active { return Some("Pact verification plugin is not active"); }
      var manifest := plugins[key];
      if manifest.codeDigest != pact.terms.evidencePolicyCodeDigest {
        return Some("Pact verification plugin digest changed");
      }
      if key !in env.implementations || env.implementations[key] != pact.terms.evidencePolicyCodeDigest {
        return Some("Pact verification implementation digest mismatch");
      }
      if c.workspaceId !in manifest.installedWorkspaceIds {
        return Some("verification plugin is not installed in the Workspace");
      }
      if verdict.None? { return Some("verification plugin failed"); }
      return None;
    }

    method OpenGaiaCase(g: GaiaCase, signature: Signature, now: int) returns (error: Error)
      modifies this
      ensures error == OpenGaiaCaseError(env, old(Snapshot()), g, signature, now)
      ensures error.None? ==>
                g.pactId in old(pacts) && Snapshot() == KernelOps.OpenGaiaCase(old(Snapshot()), g, now)
    {
      hide OpenGaiaCaseError;
      error := CheckClaim(g, signature, now);
      if error.Some? { return; }
      OpenGaiaCaseTarget(env, Snapshot(), g, signature, now);
      var pact := pacts[g.pactId];
      gaiaCases := gaiaCases[g.caseId := g.(status := GaiaOpen)];
      pact := pact.(status := Disputed);
      pact := pact.(revision := pact.revision + 1);
      pacts := pacts[g.pactId := pact];
      RecordPactEvent(pact, g.pactId, GaiaCaseOpened, now, None);
    }

    method CheckClaim(g: GaiaCase, signature: Signature, now: int) returns (error: Error)
      ensures error == OpenGaiaCaseError(env, Snapshot(), g, signature, now)
    {
      hide PactIntact, SameText;
      if g.claimValidUntil <= now { return Some("Gaia claim signature expired"); }
      if g.pactId !in pacts { return Some("Pact not found"); }
      var pact := pacts[g.pactId];
      if !PactIntact(env, pact) { return Some("Pact is malformed"); }
      if pact.terms.workspaceId !in workspaces { return Some("Workspace not found"); }
      var authority, counterparty := workspaces[pact.terms.workspaceId].authorityAccount, pact.terms.counterparty;
      if pact.terms.workspaceId != g.workspaceId || pact.terms.pathId != g.pathId {
        return Some("Gaia Pact binding mismatch");
      }
      if pact.openRails.Some? && g.paycardId != Some(pact.openRails.value.paycardId) {
        return Some("Gaia Paycard binding mismatch");
      }
      var byAuthority := SameText(g.claimant, authority);
      if !byAuthority && !SameText(g.claimant, counterparty) { return Some("Gaia claimant is not a Pact party"); }
      var expectedRespondent := if byAuthority then counterparty else authority;
      if !SameText(g.respondent, expectedRespondent) {
        return Some("Gaia respondent is not the opposing Pact party");
      }
      if g.caseId in gaiaCases { return Some("Gaia case already exists"); }
      var valid := env.verify(GaiaMessage(g), signature, g.claimant);
      if !valid { return Some("Gaia claim signature is invalid"); }
      return None;
    }

    method ResolveGaiaCase(caseId: string, resolver: Address, decision: GaiaDecision, c: Command,
                           signature: Signature, now: int) returns (error: Error)
      modifies this
      ensures error == ResolveGaiaCaseError(env, old(Snapshot()), caseId, resolver, decision, c, signature, now)
      ensures error.None? ==>
                && caseId in old(gaiaCases) && old(gaiaCases)[caseId].pactId in old(pacts)
                && Snapshot() == KernelOps.ResolveGaiaCase(old(Snapshot()), caseId, decision, c, now)
    {
      hide CommandError, MayResolve, UseNonce, NextNonce;
      if caseId !in gaiaCases { return Some("Gaia case not found"); }
      var gaia := gaiaCases[caseId];
      error := AuthorizeCommand(c, signature, ResolveGaiaOperation, GaiaPayload(caseId, resolver, decision), now);
      if error.Some? { return; }
      if c.workspaceId != gaia.workspaceId { return Some("Workspace command target mismatch"); }
      if !MayResolve(workspaces[c.workspaceId], resolver) { return Some("resolver lacks Gaia authority"); }
      if gaia.pactId !in pacts { return Some("Pact not found"); }
      SettleCase(caseId, decision, now);
    }

    method SettleCase(caseId: string, decision: GaiaDecision, now: int)
      requires caseId in gaiaCases && gaiaCases[caseId].pactId in pacts
      modifies this
      ensures var s, gaia := old(Snapshot()), old(gaiaCases)[caseId];
              Snapshot() == WithPact(s, gaia.pactId, Rectified(s.pacts[gaia.pactId], decision), GaiaResolved, now, None)
                            .(gaiaCases := s.gaiaCases[caseId := gaia.(status := ResolvedStatus(decision))])
    {
      hide Rectified, ResolvedStatus, PaymentBinding;
      var gaia := gaiaCases[caseId];
      var pact;
      gaia, pact := AdvanceOnResolution(gaia, pacts[gaia.pactId], decision);
      gaiaCases := gaiaCases[caseId := gaia];
      pacts := pacts[gaia.pactId := pact];
      RecordPactEvent(pact, gaia.pactId, GaiaResolved, now, None);
    }

    method RecordSettlement(pactId: string, txHash: Hex, amount: string, o: SettlementObservation, now: int)
      returns (error: Error)
      modifies this
      ensures error == RecordSettlementError(env, old(Snapshot()), pactId, txHash, amount, o)
      ensures error.None? ==>
                && pactId in old(pacts) && old(pacts)[pactId].openRails.Some?
                && Snapshot() == KernelOps.RecordSettlement(old(Snapshot()), pactId, o, now)
    {
      hide SettledWith, PaymentBinding, PactIntact, SettlementMatches, Units, IsUnits;
      if !PositiveUnits(amount) { return Some("settled amount must be greater than zero"); }
      if pactId !in pacts { return Some("Pact not found"); }
      var pact := pacts[pactId];
      if !PactIntact(env, pact) { return Some("Pact is malformed"); }
      if !HasOpening(pact) {
        return Some("Canonical opening observation disappeared before settlement recording");
      }
      if !SettlementMatches(pact.terms, pact.openRails.value.paycardId, txHash, amount, o) {
        return Some("Settlement observation mismatch");
      }
      pact := AdvanceOnSettlement(pact, o);
      pacts := pacts[pactId := pact];
      RecordPactEvent(pact, pactId, if o.final then PactSettled else SettlementConfirmed, now, None);
      return None;
    }

    /** A call that signs, prepares, opens or settles a Pact. */
    method PerformPayment(op: Op, now: int) returns (error: Error)
      requires op.OpSignPact? || op.OpPreparePayment? || op.OpOpenPayment? || op.OpRecordSettlement?
      modifies this
      ensures error == CallError(env, old(Snapshot()), op, now)
      ensures error.None? ==> Snapshot() == Step(env, old(Snapshot()), op, now)
    {
      hide Step, AllowedNow, UseNonce, SubmittedJob, RegisterWorkspaceError, RegisterAgentError,
           SetAgentStatusError, ActivatePathError, InstallPluginError, SubmitProposalError, CreatePactError,
           SignPactError, PreparePaymentError, OpenPaymentError, SubmitCheckpointError, VerifyCheckpointError,
           OpenGaiaCaseError, ResolveGaiaCaseError, RecordSettlementError, KernelOps.SetAgentStatus,
           KernelOps.ActivatePath, KernelOps.SubmitProposal, KernelOps.RunJob, KernelOps.CreatePact,
           KernelOps.SignPact, KernelOps.PreparePayment, KernelOps.OpenPayment, KernelOps.SubmitCheckpoint,
           KernelOps.VerifyCheckpoint, KernelOps.OpenGaiaCase, KernelOps.ResolveGaiaCase,
           KernelOps.RecordSettlement;
      ghost var s := Snapshot();
      match op
      case OpSignPact(id, signer, sig) => error := SignPact(id, signer, sig, now); SignPactStep(env, s, op, now);
      case OpPreparePayment(id, q) => error := PreparePayment(id, q, now); PreparePaymentStep(env, s, op, now);
      case OpOpenPayment(id, m, card, tx, o) =>
        error := OpenPayment(id, m, card, tx, o, now);
        OpenPaymentStep(env, s, op, now);
      case OpRecordSettlement(id, tx, amount, o) =>
        error := RecordSettlement(id, tx, amount, o, now);
        RecordSettlementStep(env, s, op, now);
    }

    /** A call on a checkpoint or a Gaia case. */
    method PerformCase(op: Op, now: int) returns (error: Error)
      requires op.OpSubmitCheckpoint? || op.OpVerifyCheckpoint? || op.OpOpenGaiaCase? || op.OpResolveGaiaCase?
      modifies this
      ensures error == CallError(env, old(Snapshot()), op, now)
      ensures error.None? ==> Snapshot() == Step(env, old(Snapshot()), op, now)
    {
      hide Step, AllowedNow, UseNonce, SubmittedJob, RegisterWorkspaceError, RegisterAgentError,
           SetAgentStatusError, ActivatePathError, InstallPluginError, SubmitProposalError, CreatePactError,
           SignPactError, PreparePaymentError, OpenPaymentError, SubmitCheckpointError, VerifyCheckpointError,
           OpenGaiaCaseError, ResolveGaiaCaseError, RecordSettlementError, KernelOps.SetAgentStatus,
           KernelOps.ActivatePath, KernelOps.SubmitProposal, KernelOps.RunJob, KernelOps.CreatePact,
           KernelOps.SignPact, KernelOps.PreparePayment, KernelOps.OpenPayment, KernelOps.SubmitCheckpoint,
           KernelOps.VerifyCheckpoint, KernelOps.OpenGaiaCase, KernelOps.ResolveGaiaCase,
           KernelOps.RecordSettlement;
      ghost var s := Snapshot();
      match op
      case OpSubmitCheckpoint(c, sig) => error := SubmitCheckpoint(c, sig, now); SubmitCheckpointStep(env, s, op, now);
      case OpVerifyCheckpoint(id, key, v) =>
        error := VerifyCheckpoint(id, key, v, now);
        VerifyCheckpointStep(env, s, op, now);
      case OpOpenGaiaCase(g, sig) => error := OpenGaiaCase(g, sig, now); OpenGaiaCaseStep(env, s, op, now);
      case OpResolveGaiaCase(id, r, d, c, sig) =>
        error := ResolveGaiaCase(id, r, d, c, sig, now);
        ResolveGaiaCaseStep(env, s, op, now);
    }

    /** The operation as a call of it runs on the draft: one transition of the kernel, or an error. */
    method Perform(op: Op, now: int) returns (error: Error)
      modifies this
      ensures error == CallError(env, old(Snapshot()), op, now)
      ensures error.None? ==> Snapshot() == Step(env, old(Snapshot()), op, now)
    {
      hide Step, AllowedNow, UseNonce, SubmittedJob, RegisterWorkspaceError, RegisterAgentError,
           SetAgentStatusError, ActivatePathError, InstallPluginError, SubmitProposalError, CreatePactError,
           SignPactError, PreparePaymentError, OpenPaymentError, SubmitCheckpointError, VerifyCheckpointError,
           OpenGaiaCaseError, ResolveGaiaCaseError, RecordSettlementError, KernelOps.SetAgentStatus,
           KernelOps.ActivatePath, KernelOps.SubmitProposal, KernelOps.RunJob, KernelOps.CreatePact,
           KernelOps.SignPact, KernelOps.PreparePayment, KernelOps.OpenPayment, KernelOps.SubmitCheckpoint,
           KernelOps.VerifyCheckpoint, KernelOps.OpenGaiaCase, KernelOps.ResolveGaiaCase,
           KernelOps.RecordSettlement;
      ghost var s := Snapshot();
      match op
      case OpRegisterWorkspace(w, sig) => error := RegisterWorkspace(w, sig); RegisterWorkspaceStep(env, s, op, now);
      case OpRegisterAgent(a, signer, sig) =>
        error := RegisterAgent(a, signer, sig);
        RegisterAgentStep(env, s, op, now);
      case OpSetAgentStatus(w, a, status, c, sig) =>
        error := SetAgentStatus(w, a, status, c, sig, now);
        SetAgentStatusStep(env, s, op, now);
      case OpActivatePath(path, sig) => error := ActivatePath(path, sig); ActivatePathStep(env, s, op, now);
      case OpInstallPlugin(key, m, c, sig) =>
        error := InstallPlugin(key, m, c, sig, now);
        InstallPluginStep(env, s, op, now);
      case OpSubmitProposal(p) =>
        var job;
        error, job := SubmitProposal(p);
        SubmitProposalStep(env, s, op, now);
      case OpRunJob(id, identity) => error := None; RunJob(id, identity, now); RunJobStep(env, s, op, now);
      case OpCreatePact(r, identity) => error := CreatePact(r, identity, now); CreatePactStep(env, s, op, now);
      case OpSignPact(_, _, _) => error := PerformPayment(op, now);
      case OpPreparePayment(_, _) => error := PerformPayment(op, now);
      case OpOpenPayment(_, _, _, _, _) => error := PerformPayment(op, now);
      case OpRecordSettlement(_, _, _, _) => error := PerformPayment(op, now);
      case OpSubmitCheckpoint(_, _) => error := PerformCase(op, now);
      case OpVerifyCheckpoint(_, _, _) => error := PerformCase(op, now);
      case OpOpenGaiaCase(_, _) => error := PerformCase(op, now);
      case OpResolveGaiaCase(_, _, _, _, _) => error := PerformCase(op, now);
    }
  }
}
