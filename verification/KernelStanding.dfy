// Where a stored Pact comes from and what it may do: every one was agreed in a stored Proposal, lies within the
// signed Path revision it names, and may execute exactly while that revision, its window and its Agent stand.
module KernelStanding {
  import opened Prelude
  import opened KernelTypes
  import opened Policy
  import opened KernelOps
  import opened KernelSafety
  import opened KernelFrames
  import opened KernelHistory

  // ---- What no call takes back -------------------------------------------------------------------

  /** Workspaces and Proposals stay as they are; Agents stay in their Workspace and under their operator. */
  ghost predicate RegistryKept(s: State, r: State) {
    && (forall w :: w in s.workspaces ==> w in r.workspaces && r.workspaces[w] == s.workspaces[w])
    && (forall a :: a in s.agents ==>
          a in r.agents && r.agents[a].workspaceId == s.agents[a].workspaceId
          && r.agents[a].operator == s.agents[a].operator)
    && (forall p :: p in s.proposals ==> p in r.proposals && r.proposals[p] == s.proposals[p])
    && (forall p :: p in r.proposals && p !in s.proposals ==> r.proposals[p].proposalId == p)
  }

  lemma KeptReflexive(s: State)
    ensures RegistryKept(s, s)
  {
  }

  lemma SameRegistryKept(s: State, r: State)
    requires SameRegistry(s, r)
    ensures RegistryKept(s, r)
  {
  }

  lemma WorkspaceKept(env: Env, s: State, w: Workspace, signature: Signature)
    requires RegisterWorkspaceError(env, s, w, signature).None?
    ensures RegistryKept(s, s.(workspaces := s.workspaces[w.workspaceId := w]))
  {
    hide ActiveOwner;
  }

  lemma AgentKept(env: Env, s: State, a: Agent, signer: Address, signature: Signature)
    requires RegisterAgentError(env, s, a, signer, signature).None?
    ensures RegistryKept(s, s.(agents := s.agents[a.agentId := a]))
  {
    hide SameText;
  }

  lemma StatusKept(s: State, agentId: string, status: AgentStatus, c: Command)
    requires agentId in s.agents
    ensures RegistryKept(s, SetAgentStatus(s, agentId, status, c))
  {
    hide NextNonce;
  }

  lemma AssignmentsKept(env: Env, s: State, path: Path, signature: Signature)
    ensures RegistryKept(s, ActivatePath(env, s, path, signature))
  {
  }

  lemma FreshProposal(env: Env, s: State, p: Proposal)
    requires SubmitProposalError(env, s, p).None? && !AlreadySubmitted(s, p)
    ensures p.proposalId !in s.proposals
  {
    hide PositiveUnits, FindJob, AlreadySubmitted, IdempotencyKey;
  }

  lemma SubmissionKept(env: Env, s: State, p: Proposal)
    requires SubmitProposalError(env, s, p).None?
    ensures RegistryKept(s, SubmitProposal(env, s, p))
  {
    hide SubmitProposalError, AlreadySubmitted, SubmittedJob, AppendKey, IdempotencyKey;
    if !AlreadySubmitted(s, p) {
      FreshProposal(env, s, p);
      assert SubmitProposal(env, s, p).proposals == s.proposals[p.proposalId := p];
    }
  }

  lemma InstallationKept(s: State, key: (string, string), m: Manifest, c: Command)
    ensures RegistryKept(s, UseNonce(s, c).(plugins := s.plugins[key := m]))
  {
    hide NextNonce;
  }

  lemma EvaluationKept(s: State, jobId: string, allow: bool)
    ensures RegistryKept(s, RunJob(s, jobId, allow))
  {
    hide Evaluated;
  }

  lemma RegistryStepKept(env: Env, s: State, op: Op, now: int)
    requires !ChangesPact(op) && !op.OpCreatePact?
    ensures RegistryKept(s, Step(env, s, op, now))
  {
    hide Step, RegistryKept, RegisterWorkspaceError, RegisterAgentError, SetAgentStatusError, SetAgentStatus,
         ActivatePathError, ActivatePath, InstallPluginError, UseNonce, SubmitProposalError, SubmitProposal, RunJob,
         AllowedNow;
    KeptReflexive(s);
    match op
    case OpRegisterWorkspace(w, sig) =>
      RegisterWorkspaceStep(env, s, op, now);
      if RegisterWorkspaceError(env, s, w, sig).None? { WorkspaceKept(env, s, w, sig); }
    case OpRegisterAgent(a, signer, sig) =>
      RegisterAgentStep(env, s, op, now);
      if RegisterAgentError(env, s, a, signer, sig).None? { AgentKept(env, s, a, signer, sig); }
    case OpSetAgentStatus(_, a, status, c, _) =>
      SetAgentStatusStep(env, s, op, now);
      if a in s.agents { StatusKept(s, a, status, c); }
    case OpActivatePath(path, sig) =>
      ActivatePathStep(env, s, op, now);
      AssignmentsKept(env, s, path, sig);
    case OpInstallPlugin(key, m, c, _) =>
      InstallPluginStep(env, s, op, now);
      InstallationKept(s, key, m, c);
    case OpSubmitProposal(p) =>
      SubmitProposalStep(env, s, op, now);
      if SubmitProposalError(env, s, p).None? { SubmissionKept(env, s, p); }
    case OpRunJob(id, identity) =>
      RunJobStep(env, s, op, now);
      EvaluationKept(s, id, id in s.jobs && AllowedNow(env, s, s.jobs[id].proposalId, identity, now));
  }

  lemma StepKeepsRegistry(env: Env, s: State, op: Op, now: int)
    ensures RegistryKept(s, Step(env, s, op, now))
  {
    hide Step, RegistryKept, SameRegistry, CreatePactError, NewPact, AllowedNow;
    if ChangesPact(op) {
      PactStepFrame(env, s, op, now);
      SameRegistryKept(s, Step(env, s, op, now));
    } else if op.OpCreatePact? {
      CreateStepFrame(env, s, op, now);
      KeptReflexive(s);
      if Step(env, s, op, now) != s { SameRegistryKept(s, Step(env, s, op, now)); }
    } else {
      RegistryStepKept(env, s, op, now);
    }
  }

  /** Proposals are stored under their own identifiers. */
  lemma {:induction false} ProposalsKeyedById(env: Env, run: seq<Event>, pid: string)
    requires pid in Run(env, EMPTY_STATE, run).proposals
    ensures Run(env, EMPTY_STATE, run).proposals[pid].proposalId == pid
  {
    hide Step;
    var last, earlier := run[|run| - 1], run[..|run| - 1];
    StepKeepsRegistry(env, Run(env, EMPTY_STATE, earlier), last.op, last.now);
    if pid in Run(env, EMPTY_STATE, earlier).proposals { ProposalsKeyedById(env, earlier, pid); }
  }

  // ---- What a Pact was agreed as -----------------------------------------------------------------

  /** The terms say what the Proposal says, between the Workspace's authority and the Proposal's counterparty. */
  ghost predicate AgreedAs(env: Env, s: State, t: PactTerms) {
    && t.proposalId in s.proposals && t.workspaceId in s.workspaces
    && var p, authority := s.proposals[t.proposalId], s.workspaces[t.workspaceId].authorityAccount;
    && t.workspaceId == p.workspaceId && t.pathId == p.pathId && t.agentId == p.agentId
    && t.actionType == p.actionType && t.specification == p.specification
    && p.counterparty == Some(t.counterparty) && t.initiator == authority
    && t.proposalHash == env.hashProposal(p) && t.evidencePolicyId == p.evidencePolicyId
    && t.payment == PaymentTerms(env.chainId, env.vault, p.asset, authority, t.counterparty, p.allocation, p.velocity,
                                 p.durationSeconds, authority)
  }

  /** The call asks for the Pact: its request's terms and policies are the Pact's, and so is its decision's hash. */
  ghost predicate RequestedBy(env: Env, before: State, e: Event, t: PactTerms) {
    && e.op.OpCreatePact? && e.op.request.pactId == t.pactId && e.op.request.proposalId == t.proposalId
    && t.commercialTerms == e.op.request.commercialTerms
    && t.completionPolicyId == e.op.request.completionPolicyId && t.disputePolicyId == e.op.request.disputePolicyId
    && t.requiresCounterpartySignature == e.op.request.requiresCounterpartySignature
    && t.pathId in before.paths
    && t.decisionHash == env.hashDecision(DecisionCore(t.proposalHash, t.pathHash, ActiveExposure(before, t.pathId),
                                                       PeriodSpent(before, before.paths[t.pathId].artifact, e.now),
                                                       |ActivePacts(before, t.pathId)|, e.now))
    && t.decisionId == env.decisionId(t.decisionHash)
  }

  lemma NewPactAgreed(env: Env, s: State, r: PactRequest, now: int)
    requires CreatePactError(env, s, r, true).None?
    requires r.proposalId in s.proposals && s.proposals[r.proposalId].proposalId == r.proposalId
    ensures AgreedAs(env, s, NewPact(env, s, r, now).terms)
  {
    hide CurrentUsage, PositiveUnits, ActiveAgentOf, FindPlugin;
    PluginFound(s.paths[s.proposals[r.proposalId].pathId].artifact.approvedPlugins,
                s.proposals[r.proposalId].evidencePolicyId);
  }

  /** The first approved version of the plugin. */
  lemma {:induction false} PluginFound(approved: seq<(string, string)>, pluginId: string)
    ensures var key := FindPlugin(approved, pluginId);
            if key.None? then forall i :: 0 <= i < |approved| ==> approved[i].0 != pluginId
            else && key.value.0 == pluginId
                 && exists i :: 0 <= i < |approved| && approved[i] == key.value
                                && forall j :: 0 <= j < i ==> approved[j].0 != pluginId
  {
    if approved != [] && approved[0].0 != pluginId {
      PluginFound(approved[1..], pluginId);
      var rest, key := approved[1..], FindPlugin(approved, pluginId);
      if key.None? {
        assert forall i :: 0 < i < |approved| ==> approved[i] == rest[i - 1];
      } else {
        var i :| 0 <= i < |rest| && rest[i] == key.value && forall j :: 0 <= j < i ==> rest[j].0 != pluginId;
        assert approved[i + 1] == key.value;
        assert forall j :: 0 < j < i + 1 ==> approved[j] == rest[j - 1];
      }
    } else if approved != [] {
      assert approved[0] == FindPlugin(approved, pluginId).value;
    }
  }

  lemma NewPactRequested(env: Env, s: State, e: Event)
    requires e.op.OpCreatePact? && CreatePactError(env, s, e.op.request, true).None?
    requires var pid := e.op.request.proposalId; pid in s.proposals && s.proposals[pid].proposalId == pid
    requires forall pathId :: pathId in s.paths ==> s.paths[pathId].artifact.pathId == pathId
    ensures RequestedBy(env, s, e, NewPact(env, s, e.op.request, e.now).terms)
  {
    hide ActiveExposure, ActivePacts, PeriodSpent, PositiveUnits, ActiveAgentOf, FindPlugin;
  }

  lemma StillAgreed(env: Env, s: State, r: State, t: PactTerms)
    requires AgreedAs(env, s, t) && RegistryKept(s, r)
    ensures AgreedAs(env, r, t)
  {
  }

  /** A Pact of the next state has its old terms, or the call that asked for it, allowed at that moment, made it. */
  lemma MadeByCall(env: Env, s: State, e: Event, id: string)
    requires id in Step(env, s, e.op, e.now).pacts
    ensures var t := Step(env, s, e.op, e.now).pacts[id].terms;
            if id in s.pacts then t == s.pacts[id].terms
            else && e.op.OpCreatePact? && e.op.request.pactId == id
                 && CreatePactError(env, s, e.op.request, true).None?
                 && AllowedNow(env, s, e.op.request.proposalId, e.op.identity, e.now)
                 && t == NewPact(env, s, e.op.request, e.now).terms
  {
    hide Step, AllowedNow, CreatePactError, NewPact;
    if ChangesPact(e.op) {
      PactStepFrame(env, s, e.op, e.now);
    } else if e.op.OpCreatePact? {
      CreateStepFrame(env, s, e.op, e.now);
      if Step(env, s, e.op, e.now) != s { NewPactBinding(env, s, e.op.request, e.now); }
    } else {
      RegistryStepFrame(env, s, e.op, e.now);
    }
  }

  lemma RequestKnown(env: Env, s: State, r: PactRequest)
    requires CreatePactError(env, s, r, true).None?
    ensures r.proposalId in s.proposals
  {
  }

  /**
   * In every run each stored Pact says what its stored Proposal says: who pays whom, in what, how much, how fast and
   * for how long, on the chain and vault of the environment. What else it says was asked for by one call of the run,
   * and its decision is the evaluator's at that call.
   */
  lemma {:induction false} PactsSayWhatWasAgreed(env: Env, run: seq<Event>, id: string) returns (k: nat)
    requires id in Run(env, EMPTY_STATE, run).pacts
    ensures k < |run|
    ensures var s := Run(env, EMPTY_STATE, run);
            && s.pacts[id].terms.pactId == id && AgreedAs(env, s, s.pacts[id].terms)
            && RequestedBy(env, Run(env, EMPTY_STATE, run[..k]), run[k], s.pacts[id].terms)
  {
    hide Step, AgreedAs, RequestedBy, RegistryKept, CreatePactError, NewPact, AllowedNow;
    var last, earlier := run[|run| - 1], run[..|run| - 1];
    var s := Run(env, EMPTY_STATE, earlier);
    StepKeepsRegistry(env, s, last.op, last.now);
    MadeByCall(env, s, last, id);
    if id in s.pacts {
      k := PactsSayWhatWasAgreed(env, earlier, id);
      assert earlier[..k] == run[..k];
    } else {
      k := |earlier|;
      RequestKnown(env, s, last.op.request);
      ProposalsKeyedById(env, earlier, last.op.request.proposalId);
      NewPactAgreed(env, s, last.op.request, last.now);
      PathsKeyedById(env, earlier);
      NewPactRequested(env, s, last);
      NewPactBinding(env, s, last.op.request, last.now);
    }
    StillAgreed(env, s, Run(env, EMPTY_STATE, run), Run(env, EMPTY_STATE, run).pacts[id].terms);
  }

  // ---- What the named revision grants ------------------------------------------------------------

  /** Every Agent that a stored Path authorises belongs to the Path's Workspace. */
  ghost predicate Staffed(s: State) {
    forall pathId, i :: pathId in s.paths && 0 <= i < |s.paths[pathId].artifact.authorizedAgentIds| ==>
      AgentOf(s, s.paths[pathId].artifact.authorizedAgentIds[i], s.paths[pathId].artifact.workspaceId)
  }

  ghost predicate AgentOf(s: State, agentId: string, workspaceId: string) {
    agentId in s.agents && s.agents[agentId].workspaceId == workspaceId
  }

  lemma ActivationStaffed(env: Env, s: State, path: Path, signature: Signature)
    requires ActivatePathError(env, s, path, signature).None?
    ensures forall i :: 0 <= i < |path.authorizedAgentIds| ==> AgentOf(s, path.authorizedAgentIds[i], path.workspaceId)
  {
    hide PathWellFormed, SameText, ActiveOwner;
  }

  lemma StaysAgent(s: State, r: State, agentId: string, workspaceId: string)
    requires AgentOf(s, agentId, workspaceId) && RegistryKept(s, r)
    ensures AgentOf(r, agentId, workspaceId)
  {
  }

  lemma StepStaffed(env: Env, s: State, op: Op, now: int)
    requires Staffed(s)
    ensures Staffed(Step(env, s, op, now))
  {
    hide Step, AgentOf, RegistryKept, ActivatePathError, ActivatePath;
    var r := Step(env, s, op, now);
    StepKeepsRegistry(env, s, op, now);
    if op.OpActivatePath? {
      ActivatePathStep(env, s, op, now);
      ActivatePathFrame(env, s, op.path, op.signature);
      if ActivatePathError(env, s, op.path, op.signature).None? { ActivationStaffed(env, s, op.path, op.signature); }
    } else {
      StepPaths(env, s, op, now);
    }
    forall pathId, i | pathId in r.paths && 0 <= i < |r.paths[pathId].artifact.authorizedAgentIds|
      ensures AgentOf(r, r.paths[pathId].artifact.authorizedAgentIds[i], r.paths[pathId].artifact.workspaceId)
    {
      StaysAgent(s, r, r.paths[pathId].artifact.authorizedAgentIds[i], r.paths[pathId].artifact.workspaceId);
    }
  }

  lemma {:induction false} RunStaffed(env: Env, run: seq<Event>)
    ensures Staffed(Run(env, EMPTY_STATE, run))
  {
    hide Step;
    if run != [] {
      hide Staffed;
      var last, earlier := run[|run| - 1], run[..|run| - 1];
      RunStaffed(env, earlier);
      StepStaffed(env, Run(env, EMPTY_STATE, earlier), last.op, last.now);
    }
  }

  /** The Path grants what the terms say: to whom, for what, in what, how much, how fast and how long. */
  ghost predicate Grants(env: Env, path: Path, t: PactTerms) {
    && path.status == PathActive && path.workspaceId == t.workspaceId
    && t.agentId in path.authorizedAgentIds && t.actionType in path.permittedActions
    && t.actionType in env.actions && env.actions[t.actionType].enabled
    && env.actions[t.actionType].minimumRank <= path.authorityRank
    && (exists i :: 0 <= i < |path.permittedAssets| && Lower(path.permittedAssets[i]) == Lower(t.payment.token))
    && (path.permittedCounterparties != [] ==>
          exists i :: 0 <= i < |path.permittedCounterparties|
                      && Lower(path.permittedCounterparties[i]) == Lower(t.counterparty))
    && (t.evidencePolicyId, t.evidencePolicyVersion) in path.approvedPlugins
    && 0 < Units(t.payment.maximumAllocation) <= Units(path.limits.maxPerPact)
    && 0 < Units(t.payment.velocity) <= Units(path.limits.maxVelocity)
    && 0 < t.payment.lifespanSeconds <= path.limits.maxDurationSeconds
  }

  /** The Workspace is active and the Agent belongs to it. */
  ghost predicate Stands(s: State, t: PactTerms) {
    t.workspaceId in s.workspaces && s.workspaces[t.workspaceId].active && AgentOf(s, t.agentId, t.workspaceId)
  }

  lemma StillStands(s: State, r: State, t: PactTerms)
    requires Stands(s, t) && RegistryKept(s, r)
    ensures Stands(r, t)
  {
  }

  lemma NewPactStands(env: Env, s: State, r: PactRequest, now: int)
    requires CreatePactError(env, s, r, true).None?
    ensures Stands(s, NewPact(env, s, r, now).terms)
  {
    hide CurrentUsage, PositiveUnits, FindPlugin;
  }

  /** What a new Pact's terms take over from its Proposal and from the Path. */
  lemma NewPactCopies(env: Env, s: State, r: PactRequest, now: int)
    requires CreatePactError(env, s, r, true).None?
    ensures r.proposalId in s.proposals && s.proposals[r.proposalId].pathId in s.paths
    ensures var p, t := s.proposals[r.proposalId], NewPact(env, s, r, now).terms;
            var path := s.paths[p.pathId].artifact;
            && t.workspaceId == p.workspaceId && t.pathId == p.pathId && t.agentId == p.agentId
            && t.actionType == p.actionType && p.counterparty == Some(t.counterparty)
            && t.payment.token == p.asset && t.payment.maximumAllocation == p.allocation
            && t.payment.velocity == p.velocity && t.payment.lifespanSeconds == p.durationSeconds
            && t.pathRevision == path.revision && t.pathHash == s.paths[p.pathId].hash
            && (t.evidencePolicyId, t.evidencePolicyVersion) in path.approvedPlugins
  {
    hide CurrentUsage, PositiveUnits, ActiveAgentOf, FindPlugin;
    var p := s.proposals[r.proposalId];
    PluginFound(s.paths[p.pathId].artifact.approvedPlugins, p.evidencePolicyId);
  }

  lemma AllowedGrants(env: Env, s: State, p: Proposal, identity: Identity, now: int, t: PactTerms)
    requires Allowed(env, s, p, identity, now) && p.pathId in s.paths
    requires t.workspaceId == p.workspaceId && t.pathId == p.pathId && t.agentId == p.agentId
    requires t.actionType == p.actionType && p.counterparty == Some(t.counterparty)
    requires t.payment.token == p.asset && t.payment.maximumAllocation == p.allocation
    requires t.payment.velocity == p.velocity && t.payment.lifespanSeconds == p.durationSeconds
    requires (t.evidencePolicyId, t.evidencePolicyVersion) in s.paths[p.pathId].artifact.approvedPlugins
    requires s.paths[p.pathId].artifact.workspaceId == t.workspaceId
    ensures Grants(env, s.paths[p.pathId].artifact, t)
  {
    hide Allowed, AppliesBeforePath, OutsideAuthority, OutsideScope, LimitExceeded, CounterpartyFails, CurrentUsage,
         Units, IsUnits, Lower;
    var path := s.paths[p.pathId].artifact;
    AllowedInParts(env, s, p, identity, now);
    StandingMeans(env, s, p);
    AuthorityMeans(env, path, p, now);
    ScopeMeans(path, p);
    LimitsMean(path.limits, CurrentUsage(s, path, now), Units(p.allocation), Units(p.velocity), p.durationSeconds);
    PartiesMean(path, p, identity);
  }

  lemma NewPactGranted(env: Env, s: State, r: PactRequest, identity: Identity, now: int)
    requires CreatePactError(env, s, r, true).None? && AllowedNow(env, s, r.proposalId, identity, now) && Staffed(s)
    ensures var t := NewPact(env, s, r, now).terms;
            t.pathId in s.paths && Grants(env, s.paths[t.pathId].artifact, t)
  {
    hide CreatePactError, NewPact, Allowed, Grants;
    var t := NewPact(env, s, r, now).terms;
    var p := s.proposals[r.proposalId];
    NewPactCopies(env, s, r, now);
    NewPactStands(env, s, r, now);
    AllowedInParts(env, s, p, identity, now);
    AuthorityStaffed(env, s, p, now);
    AllowedGrants(env, s, p, identity, now, t);
  }

  lemma AuthorityStaffed(env: Env, s: State, p: Proposal, now: int)
    requires Staffed(s) && p.pathId in s.paths && p.agentId in s.agents
    requires !OutsideAuthority(AgentNotAssigned, env, s.paths[p.pathId].artifact, p, now)
    ensures s.paths[p.pathId].artifact.workspaceId == s.agents[p.agentId].workspaceId
  {
    var ids := s.paths[p.pathId].artifact.authorizedAgentIds;
    var i :| 0 <= i < |ids| && ids[i] == p.agentId;
    assert AgentOf(s, ids[i], s.paths[p.pathId].artifact.workspaceId);
  }

  /**
   * In every run each stored Pact lies within the activation of its Path that it names: that one was active and of the
   * Pact's Workspace, and grants its Agent, action, asset, counterparty, evidence plugin, allocation, velocity and
   * duration. Its Workspace is active and its Agent still belongs to it.
   */
  lemma {:induction false} PactsRespectTheirPath(env: Env, run: seq<Event>, id: string)
    requires id in Run(env, EMPTY_STATE, run).pacts
    ensures var s := Run(env, EMPTY_STATE, run);
            var t := s.pacts[id].terms;
            var h := Activations(env, run, t.pathId);
            && 1 <= t.pathRevision <= |h| && Grants(env, h[t.pathRevision - 1], t)
            && Stands(s, t)
  {
    hide Step, Grants, Stands, RegistryKept, CreatePactError, NewPact, AllowedNow, PathWellFormed, SameText;
    var last, earlier := run[|run| - 1], run[..|run| - 1];
    var s := Run(env, EMPTY_STATE, earlier);
    PactsNameTheirRevision(env, run, id);
    StepKeepsRegistry(env, s, last.op, last.now);
    MadeByCall(env, s, last, id);
    if id in s.pacts {
      PactsRespectTheirPath(env, earlier, id);
    } else {
      var t := NewPact(env, s, last.op.request, last.now).terms;
      RunStaffed(env, earlier);
      NewPactGranted(env, s, last.op.request, last.op.identity, last.now);
      NewPactStands(env, s, last.op.request, last.now);
      NewPactCopies(env, s, last.op.request, last.now);
      ActivationsFormChain(env, earlier, t.pathId);
    }
    StillStands(s, Run(env, EMPTY_STATE, run), Run(env, EMPTY_STATE, run).pacts[id].terms);
  }
}
