// The kernel's operations (agent-kernel/src/runtime.ts) as guards and draft updates. A guard names the error
// the operation throws, or None when the draft is updated and committed.
module KernelOps {
  import opened Prelude
  import opened CanonicalValues
  import opened KernelTypes
  import opened Policy

  type Error = Option<string>

  // ---- Guards shared by several operations -------------------------------------------------------

  /** assertPact: payable amounts and an intact terms hash. */
  predicate PactIntact(env: Env, pact: Pact) {
    && PositiveUnits(pact.terms.payment.maximumAllocation)
    && PositiveUnits(pact.terms.payment.velocity)
    && pact.terms.payment.lifespanSeconds > 0
    && env.hashTerms(pact.terms) == pact.termsHash
  }

  /** assertPactExecutionEligible. */
  predicate Eligible(env: Env, s: State, pact: Pact, now: int) {
    var t := pact.terms;
    && PactIntact(env, pact)
    && t.workspaceId in s.workspaces && s.workspaces[t.workspaceId].active
    && t.agentId in s.agents && s.agents[t.agentId].workspaceId == t.workspaceId
    && s.agents[t.agentId].status == AgentActive
    && t.pathId in s.paths
    && s.paths[t.pathId].hash == t.pathHash
    && var path := s.paths[t.pathId].artifact;
    && path.revision == t.pathRevision
    && path.status == PathActive && path.validFrom <= now < path.expiresAt
    && t.agentId in path.authorizedAgentIds && t.actionType in path.permittedActions
    && Lists(path.permittedAssets, t.payment.token)
    && (path.permittedCounterparties == [] || Lists(path.permittedCounterparties, t.counterparty))
  }

  /** assertOpeningObservationMatchesPact. */
  predicate OpeningMatches(t: PactTerms, metadataHash: Hex, paycardId: Hex, txHash: Hex, o: OpeningObservation) {
    && SameText(o.transactionHash, txHash) && o.chainId == t.payment.chainId && SameText(o.vault, t.payment.vault)
    && o.paycardId == paycardId && o.metadataHash == metadataHash
    && SameText(o.payer, t.payment.payer) && SameText(o.recipient, t.payment.recipient)
    && SameText(o.residualRecipient, t.payment.residualRecipient)
    && o.poolAllocation == t.payment.maximumAllocation && o.flowVelocity == t.payment.velocity
    && o.lifespanSeconds == t.payment.lifespanSeconds
    && o.operationalStatus == 0 && PositiveUnits(o.availableBalance)
  }

  /** assertSettlementObservationMatchesPact, for a Pact whose payment is prepared. */
  predicate SettlementMatches(t: PactTerms, paycardId: Hex, txHash: Hex, amount: string, o: SettlementObservation) {
    && SameText(o.transactionHash, txHash) && o.chainId == t.payment.chainId && SameText(o.vault, t.payment.vault)
    && o.paycardId == paycardId && SameText(o.recipient, t.payment.recipient) && o.settledAmount == amount
  }

  predicate HasOpening(pact: Pact) {
    pact.openRails.Some? && pact.openRails.value.opening.Some?
  }

  /** A Pact's prepared or opened payment, without the settlements recorded against it. */
  function PaymentBinding(pact: Pact): Option<OpenRails> {
    if pact.openRails.None? then None else Some(pact.openRails.value.(settlements := []))
  }

  function NextNonce(s: State, workspaceId: string): nat {
    if workspaceId in s.commandNonces then s.commandNonces[workspaceId] else 0
  }

  /** authorizeWorkspaceCommand. */
  function CommandError(env: Env, s: State, c: Command, signature: Signature, operation: Operation,
                        payload: Payload, now: int): Error {
    if c.workspaceId !in s.workspaces then Some("Workspace not found")
    else
      var workspace := s.workspaces[c.workspaceId];
      if !workspace.active then Some("Workspace is not active")
    else if c.operation != operation then Some("Workspace command operation mismatch")
    else if c.payloadHash != env.hashPayload(payload) then Some("Workspace command payload hash mismatch")
    else if c.workspaceRevision != workspace.revision then Some("Workspace command revision is stale")
    else if c.nonce != NextNonce(s, c.workspaceId) then Some("Workspace command nonce mismatch")
    else if c.issuedAt > now + 30000 then Some("Workspace command issuedAt is in the future")
    else if c.expiresAt <= now then Some("Workspace command expired")
    else if c.expiresAt - c.issuedAt > 900000 then Some("Workspace command lifetime exceeds 15 minutes")
    else if !env.verify(CommandMessage(c), signature, workspace.authorityAccount)
    then Some("Workspace command signature is invalid")
    else None
  }

  /** Paths, Workspaces, Agents, plugins, Proposals and jobs are as they were. */
  ghost predicate SameRegistry(s: State, r: State) {
    && r.paths == s.paths && r.workspaces == s.workspaces && r.agents == s.agents && r.plugins == s.plugins
    && SameJobs(s, r)
  }

  ghost predicate SameJobs(s: State, r: State) {
    r.proposals == s.proposals && r.jobs == s.jobs && r.jobIds == s.jobIds && r.idempotency == s.idempotency
  }

  ghost predicate SamePacts(s: State, r: State) {
    && r.pacts == s.pacts && r.pactIds == s.pactIds && r.pactSignatures == s.pactSignatures
    && r.checkpoints == s.checkpoints && r.gaiaCases == s.gaiaCases && r.pactEvents == s.pactEvents
  }

  /** The registry, the set of Pacts and every Pact's terms are as they were. */
  ghost predicate SameTerms(s: State, r: State) {
    && SameRegistry(s, r) && r.pactIds == s.pactIds
    && r.pacts.Keys == s.pacts.Keys
    && (forall k :: k in s.pacts ==> r.pacts[k].terms == s.pacts[k].terms)
  }

  function UseNonce(s: State, c: Command): (r: State)
    ensures SamePacts(s, r) && SameRegistry(s, r)
    ensures r.commandNonces == s.commandNonces[c.workspaceId := NextNonce(s, c.workspaceId) + 1]
  {
    s.(commandNonces := s.commandNonces[c.workspaceId := NextNonce(s, c.workspaceId) + 1])
  }

  function WithPact(s: State, id: string, pact: Pact, kind: PactEventKind, now: int,
                    allocation: Option<string>): State
  {
    s.(pacts := s.pacts[id := pact],
       pactEvents := s.pactEvents + [PactEvent(id, pact.terms.workspaceId, kind, now, allocation)])
  }

  // ---- Workspaces, Agents, Paths, plugins --------------------------------------------------------

  predicate ActiveOwner(workspace: Workspace, a: Address) {
    exists i :: 0 <= i < |workspace.members| && workspace.members[i].active && workspace.members[i].owner
                && SameText(workspace.members[i].address, a)
  }

  predicate MayResolve(workspace: Workspace, a: Address) {
    exists i :: 0 <= i < |workspace.members| && workspace.members[i].active
                && (workspace.members[i].owner || workspace.members[i].gaiaResolver)
                && SameText(workspace.members[i].address, a)
  }

  function RegisterWorkspaceError(env: Env, s: State, w: Workspace, signature: Signature): Error {
    if w.revision < 1 then Some("Workspace revision must be positive")
    else if !ActiveOwner(w, w.authorityAccount) then Some("Workspace authority must be an active owner member")
    else if !env.verify(WorkspaceMessage(w), signature, w.authorityAccount)
    then Some("Workspace authority signature is invalid")
    else if w.workspaceId in s.workspaces then Some("Workspace already exists")
    else None
  }

  function RegisterAgentError(env: Env, s: State, a: Agent, signer: Address, signature: Signature): Error {
    if a.revision < 1 then Some("Agent revision must be positive")
    else if a.workspaceId !in s.workspaces then Some("Workspace not found") else
    if !SameText(s.workspaces[a.workspaceId].authorityAccount, signer) then Some("Workspace authority mismatch")
    else if a.agentId in s.agents then Some("Agent already exists")
    else if !env.verify(AgentMessage(a), signature, signer) then Some("Agent registration signature is invalid")
    else None
  }

  function SetAgentStatusError(env: Env, s: State, workspaceId: string, agentId: string, status: AgentStatus,
                               c: Command, signature: Signature, now: int): Error {
    var refused := CommandError(env, s, c, signature, SetAgentStatusOperation,
                                AgentStatusPayload(workspaceId, agentId, status), now);
    if refused.Some? then refused else
    if c.workspaceId != workspaceId then Some("Workspace command target mismatch")
    else if agentId !in s.agents then Some("Agent not found") else
    if s.agents[agentId].workspaceId != workspaceId then Some("Agent Workspace mismatch")
    else None
  }

  function SetAgentStatus(s: State, agentId: string, status: AgentStatus, c: Command): State
    requires agentId in s.agents
  {
    var agent := s.agents[agentId];
    UseNonce(s, c).(agents := s.agents[agentId := agent.(status := status, revision := agent.revision + 1)])
  }

  /** assertPath, apart from identifier and address formats. */
  predicate PathWellFormed(path: Path) {
    && path.revision >= 1 && path.validFrom < path.expiresAt
    && PositiveUnits(path.limits.maxPerPact) && PositiveUnits(path.limits.maxActiveExposure)
    && PositiveUnits(path.limits.maxPerPeriod) && PositiveUnits(path.limits.maxVelocity)
    && path.limits.periodSeconds > 0 && path.limits.maxDurationSeconds > 0 && path.limits.maxConcurrentPacts > 0
    && path.authorizedAgentIds != [] && path.permittedActions != [] && path.permittedAssets != []
  }

  predicate ActiveAgentOf(s: State, agentId: string, workspaceId: string) {
    agentId in s.agents && s.agents[agentId].workspaceId == workspaceId && s.agents[agentId].status == AgentActive
  }

  function ActivatePathError(env: Env, s: State, path: Path, signature: Signature): Error {
    if !PathWellFormed(path) then Some("Path is malformed")
    else if !env.verify(PathMessage(path), signature, path.authorityAccount)
    then Some("Path authority signature is invalid")
    else if path.workspaceId !in s.workspaces then Some("Workspace not found") else
    var workspace := s.workspaces[path.workspaceId];
    if !SameText(workspace.authorityAccount, path.authorityAccount) then Some("Workspace authority mismatch")
    else if !ActiveOwner(workspace, path.owner) then Some("Path owner must be an active Workspace owner")
    else if !(forall i :: 0 <= i < |path.authorizedAgentIds| ==>
                ActiveAgentOf(s, path.authorizedAgentIds[i], path.workspaceId))
    then Some("Agent is not active in this Workspace")
    else if path.pathId !in s.paths then if path.revision != 1 then Some("New Path revision must be 1")
    else None else
    var existing := s.paths[path.pathId];
    if path.revision != existing.artifact.revision + 1 then Some("Path revision conflict")
    else if path.previousPathHash != Some(existing.hash) then Some("Path previous hash mismatch")
    else if path.workspaceId != existing.artifact.workspaceId
    then Some("Path Workspace cannot change across revisions")
    else if !SameText(path.owner, existing.artifact.owner) then Some("Path owner cannot change across revisions")
    else if !SameText(path.authorityAccount, existing.artifact.authorityAccount)
    then Some("Path authority cannot change across revisions")
    else None
  }

  function Assign(agent: Agent, pathId: string): Agent {
    if pathId in agent.assignedPathIds then agent
    else agent.(assignedPathIds := agent.assignedPathIds + [pathId])
  }

  function ActivatePath(env: Env, s: State, path: Path, signature: Signature): State
  {
    s.(paths := s.paths[path.pathId := SignedPath(path, env.hashPath(path), path.authorityAccount, signature)],
       agents := map id | id in s.agents ::
         if id in path.authorizedAgentIds then Assign(s.agents[id], path.pathId) else s.agents[id])
  }

  function InstallPluginError(env: Env, s: State, key: (string, string), manifest: Manifest, c: Command,
                              signature: Signature, now: int): Error {
    if |manifest.installedWorkspaceIds| != 1 then Some("V1 plugin installation must target exactly one Workspace")
    else if !env.verify(PluginMessage(key.0, key.1, manifest.codeDigest, manifest.publisher),
                        manifest.publisherSignature, manifest.publisher)
    then Some("plugin publisher signature is invalid")
    else var workspaceId := manifest.installedWorkspaceIds[0];
    var refused := CommandError(env, s, c, signature, InstallPluginOperation,
                                PluginPayload(workspaceId, key.0, key.1, manifest.codeDigest), now);
    if refused.Some? then refused else
    if c.workspaceId != workspaceId then Some("Workspace command target mismatch")
    else if key in s.plugins && s.plugins[key].codeDigest != manifest.codeDigest
    then Some("plugin version digest conflict")
    else None
  }

  // ---- Proposals and jobs ------------------------------------------------------------------------

  function IdempotencyKey(p: Proposal): string {
    p.workspaceId + ":proposal:" + p.idempotencyKey
  }

  /** Object.values(state.jobs).find(job => job.proposalId === proposalId). */
  function FindJob(jobIds: seq<string>, jobs: map<string, Job>, proposalId: string): Option<Job> {
    if jobIds == [] then None
    else if jobIds[0] in jobs && jobs[jobIds[0]].proposalId == proposalId then Some(jobs[jobIds[0]])
    else FindJob(jobIds[1..], jobs, proposalId)
  }

  predicate AlreadySubmitted(s: State, p: Proposal) {
    IdempotencyKey(p) in s.idempotency
  }

  function SubmitProposalError(env: Env, s: State, p: Proposal): Error {
    if !(PositiveUnits(p.allocation) && PositiveUnits(p.velocity) && p.durationSeconds > 0)
    then Some("Proposal is malformed")
    else if AlreadySubmitted(s, p) then
      if s.idempotency[IdempotencyKey(p)] != env.hashProposal(p) then Some("idempotency conflict")
    else if !(p.proposalId in s.proposals && FindJob(s.jobIds, s.jobs, p.proposalId).Some?)
    then Some("idempotency record is inconsistent")
    else None
    else if p.proposalId in s.proposals then Some("Proposal ID already exists")
    else None
  }

  /** The job a submission answers with: the one already recorded, or a new queued one. */
  function SubmittedJob(env: Env, s: State, p: Proposal): Job {
    if AlreadySubmitted(s, p) && FindJob(s.jobIds, s.jobs, p.proposalId).Some? then
      FindJob(s.jobIds, s.jobs, p.proposalId).value
    else Job(env.jobId(p.proposalId), p.proposalId, Queued, 0)
  }

  /** Adding a key to an object appends it to the enumeration order unless it is already there. */
  function AppendKey(keys: seq<string>, key: string): seq<string> {
    if key in keys then keys else keys + [key]
  }

  function SubmitProposal(env: Env, s: State, p: Proposal): State
  {
    if AlreadySubmitted(s, p) then s
    else
      var job := SubmittedJob(env, s, p);
      s.(proposals := s.proposals[p.proposalId := p], jobs := s.jobs[job.jobId := job],
         jobIds := AppendKey(s.jobIds, job.jobId),
         idempotency := s.idempotency[IdempotencyKey(p) := env.hashProposal(p)])
  }

  function Evaluated(job: Job, proposalFound: bool, allow: bool): Job {
    job.(state := if !proposalFound then JobFailed else if allow then JobCompleted else JobBlocked,
         attempts := job.attempts + 1)
  }

  /** A worker whose candidate is gone or no longer queued leaves the state alone. */
  function RunJob(s: State, jobId: string, allow: bool): State
  {
    if jobId !in s.jobs || s.jobs[jobId].state != Queued then s
    else
      s.(jobs := s.jobs[jobId := Evaluated(s.jobs[jobId], s.jobs[jobId].proposalId in s.proposals, allow)])
  }

  // ---- Pacts -------------------------------------------------------------------------------------

  datatype PactRequest = PactRequest(proposalId: string, pactId: string, commercialTerms: Value,
                                     completionPolicyId: string, disputePolicyId: string,
                                     requiresCounterpartySignature: bool)

  function FindPlugin(approved: seq<(string, string)>, pluginId: string): Option<(string, string)> {
    if approved == [] then None
    else if approved[0].0 == pluginId then Some(approved[0])
    else FindPlugin(approved[1..], pluginId)
  }

  /** What an allowed Proposal still needs: an approved, installed and bound evidence plugin, and payable terms. */
  function EvidenceError(env: Env, s: State, p: Proposal): Error
    requires p.pathId in s.paths
  {
    var key := FindPlugin(s.paths[p.pathId].artifact.approvedPlugins, p.evidencePolicyId);
    if key.None? then Some("Proposal evidence policy is not approved by the active Path")
    else if !(key.value in s.plugins && s.plugins[key.value].active) then Some("Pact evidence plugin is not active")
    else if p.workspaceId !in s.plugins[key.value].installedWorkspaceIds
    then Some("Pact evidence plugin is not installed in the Workspace")
    else if !(key.value in env.implementations && env.implementations[key.value] == s.plugins[key.value].codeDigest)
    then Some("Pact evidence plugin implementation does not match its installed manifest")
    else if !(PositiveUnits(p.allocation) && PositiveUnits(p.velocity) && p.durationSeconds > 0)
    then Some("Pact terms are malformed")
    else None
  }

  function CreatePactError(env: Env, s: State, r: PactRequest, allow: bool): Error {
    if r.proposalId !in s.proposals then Some("Proposal not found") else
    var p := s.proposals[r.proposalId];
    if p.counterparty.None? then Some("Payable Pact requires the approved proposal counterparty")
    else if r.pactId in s.pacts then Some("Pact already exists")
    else if !(p.workspaceId in s.workspaces && s.workspaces[p.workspaceId].active)
    then Some("Workspace is not active")
    else if !ActiveAgentOf(s, p.agentId, p.workspaceId) then Some("Agent is not active in the Workspace")
    else if !allow then Some("Proposal is not currently allowed by Baphomet")
    else if p.pathId !in s.paths then Some("Path not found")
    else EvidenceError(env, s, p)
  }

  /** The Pact assembled from an allowed Proposal; its terms hash is taken before it is stored. */
  function NewPact(env: Env, s: State, r: PactRequest, now: int): Pact
    requires CreatePactError(env, s, r, true).None?
  {
    var p := s.proposals[r.proposalId];
    var workspace, signedPath := s.workspaces[p.workspaceId], s.paths[p.pathId];
    var key := FindPlugin(signedPath.artifact.approvedPlugins, p.evidencePolicyId).value;
    var usage := CurrentUsage(s, signedPath.artifact, now);
    var decisionHash := env.hashDecision(DecisionCore(env.hashProposal(p), signedPath.hash, usage.exposure,
                                                      usage.spent, usage.activePacts, now));
    var payment := PaymentTerms(env.chainId, env.vault, p.asset, workspace.authorityAccount, p.counterparty.value,
                                p.allocation, p.velocity, p.durationSeconds, workspace.authorityAccount);
    var terms := PactTerms(r.pactId, p.workspaceId, p.pathId, signedPath.artifact.revision, signedPath.hash,
                           p.proposalId, env.hashProposal(p), env.decisionId(decisionHash), decisionHash,
                           workspace.authorityAccount, p.agentId, p.counterparty.value, p.actionType,
                           p.specification, r.commercialTerms, payment, key.0, key.1,
                           s.plugins[key].codeDigest, r.completionPolicyId, r.disputePolicyId,
                           r.requiresCounterpartySignature);
    Pact(terms, env.hashTerms(terms), AwaitingSignatures, 1, None)
  }

  function CreatePact(env: Env, s: State, r: PactRequest, now: int): State
    requires CreatePactError(env, s, r, true).None?
  {
    WithPact(s, r.pactId, NewPact(env, s, r, now), PactCreated, now, None)
    .(pactIds := AppendKey(s.pactIds, r.pactId), pactSignatures := s.pactSignatures[r.pactId := []])
  }

  function SignaturesOf(s: State, pactId: string): seq<PactSignature> {
    if pactId in s.pactSignatures then s.pactSignatures[pactId] else []
  }

  predicate SignedBy(signatures: seq<PactSignature>, a: Address) {
    exists i :: 0 <= i < |signatures| && SameText(signatures[i].signer, a)
  }

  function FindSignature(signatures: seq<PactSignature>, a: Address): Option<PactSignature> {
    if signatures == [] then None
    else if SameText(signatures[0].signer, a) then Some(signatures[0])
    else FindSignature(signatures[1..], a)
  }

  function SignPactError(env: Env, s: State, pactId: string, signer: Address, signature: Signature): Error {
    if pactId !in s.pacts then Some("Pact not found") else
    var pact := s.pacts[pactId];
    if pact.terms.workspaceId !in s.workspaces then Some("Workspace not found") else
    var workspace := s.workspaces[pact.terms.workspaceId];
    if !(SameText(signer, workspace.authorityAccount) || SameText(signer, pact.terms.counterparty))
    then Some("Pact signer is neither Workspace authority nor counterparty")
    else var existing := FindSignature(SignaturesOf(s, pactId), signer);
    if existing.Some? then
      if !(existing.value.hash == pact.termsHash && existing.value.signature == signature)
      then Some("Pact signer already recorded a different signature")
    else None
    else
      if pact.status != AwaitingSignatures then Some("Pact is no longer accepting signatures")
    else if env.hashTerms(pact.terms) != pact.termsHash then Some("Pact immutable terms hash mismatch")
    else if !env.verify(PactMessage(pact.terms, pact.termsHash), signature, signer)
    then Some("Pact signature is invalid")
    else None
  }

  /** The Pact is accepted once the authority and, where required, the counterparty have signed. */
  function Countersigned(pact: Pact, authority: Address, signatures: seq<PactSignature>): (next: Pact)
    ensures next.terms == pact.terms && PaymentBinding(next) == PaymentBinding(pact)
  {
    if SignedBy(signatures, authority)
       && (!pact.terms.requiresCounterpartySignature || SignedBy(signatures, pact.terms.counterparty))
    then pact.(status := Accepted, revision := pact.revision + 1) else pact
  }

  /** A first signature is recorded and may accept the Pact; repeating one changes nothing. */
  function SignPact(s: State, pactId: string, signer: Address, signature: Signature, now: int): State
    requires pactId in s.pacts && s.pacts[pactId].terms.workspaceId in s.workspaces
  {
    var pact := s.pacts[pactId];
    if FindSignature(SignaturesOf(s, pactId), signer).Some? then s
    else
      var signatures := SignaturesOf(s, pactId) + [PactSignature(pact.terms, pact.termsHash, signer, signature)];
      var next := Countersigned(pact, s.workspaces[pact.terms.workspaceId].authorityAccount, signatures);
      WithPact(s, pactId, next, if next.status == Accepted then PactAccepted else PactSignatureAdded, now, None)
      .(pactSignatures := s.pactSignatures[pactId := signatures])
  }

  datatype Preparation = Preparation(metadataHash: Hex, paycardId: Hex, genesisTimestamp: int,
                                     nonceChannel: int, nonceValue: int)

  function PreparePaymentError(env: Env, s: State, pactId: string, q: Preparation, now: int): Error {
    if q.genesisTimestamp < 0 then Some("genesisTimestamp is required for payment preparation")
    else if q.nonceChannel < 0 then Some("nonceChannel is required for payment preparation")
    else if q.nonceValue < 0 then Some("nonceValue is required for payment preparation")
    else if pactId !in s.pacts then Some("Pact not found") else
    if !Eligible(env, s, s.pacts[pactId], now) then Some("Pact is not eligible for execution")
    else if !(s.pacts[pactId].status in {Accepted, PaymentPrepared, AwaitingWallet})
    then Some("Pact is not ready for OpenRails preparation")
    else None
  }

  function Prepared(pact: Pact, q: Preparation): (next: Pact)
    ensures next.terms == pact.terms
  {
    var payment := OpenRails(q.metadataHash, q.paycardId, q.genesisTimestamp, q.nonceChannel, q.nonceValue,
                             None, None, []);
    pact.(openRails := Some(payment), status := PaymentPrepared, revision := pact.revision + 1)
  }

  function PreparePayment(s: State, pactId: string, q: Preparation, now: int): State
    requires pactId in s.pacts
  {
    var next := Prepared(s.pacts[pactId], q);
    WithPact(s, pactId, next, PaymentPreparedEvent, now, Some(next.terms.payment.maximumAllocation))
  }

  /** The transaction that follows the chain verifier's answer; everything is checked again on the draft. */
  function OpenPaymentError(env: Env, s: State, pactId: string, metadataHash: Hex, paycardId: Hex, txHash: Hex,
                            o: OpeningObservation, now: int): Error {
    if pactId !in s.pacts then Some("Pact not found") else
    var pact := s.pacts[pactId];
    if !Eligible(env, s, pact, now) then Some("Pact is not eligible for execution")
    else if pact.openRails.None? then Some("Payment preparation disappeared before opening verification")
    else if !(pact.status in {PaymentPrepared, AwaitingWallet})
    then Some("Pact is not awaiting canonical OpenRails opening")
    else if !(pact.openRails.value.metadataHash == metadataHash && pact.openRails.value.paycardId == paycardId)
    then Some("Prepared payment changed during opening verification")
    else if !OpeningMatches(pact.terms, metadataHash, paycardId, txHash, o) then Some("Opening observation mismatch")
    else None
  }

  function Opened(pact: Pact, txHash: Hex, o: OpeningObservation): (next: Pact)
    requires pact.openRails.Some?
    ensures next.terms == pact.terms
  {
    var payment := pact.openRails.value.(openingTxHash := Some(txHash), opening := Some(o));
    pact.(openRails := Some(payment), status := Active, revision := pact.revision + 1)
  }

  function OpenPayment(s: State, pactId: string, txHash: Hex, o: OpeningObservation, now: int): State
    requires pactId in s.pacts && s.pacts[pactId].openRails.Some?
  {
    var next := Opened(s.pacts[pactId], txHash, o);
    WithPact(s, pactId, next, PaymentOpenedCanonical, now, Some(next.terms.payment.maximumAllocation))
  }

  // ---- Checkpoints, Gaia cases, settlement -------------------------------------------------------

  function CheckpointIds(s: State, pactId: string): set<string> {
    set id | id in s.checkpoints && s.checkpoints[id].pactId == pactId
  }

  function SubmitCheckpointError(env: Env, s: State, c: Checkpoint, signature: Signature, now: int): Error {
    if c.validUntil <= now then Some("checkpoint signature expired")
    else if c.pactId !in s.pacts then Some("Pact not found") else
    var pact := s.pacts[c.pactId];
    if !PactIntact(env, pact) then Some("Pact is malformed")
    else if pact.terms.workspaceId !in s.workspaces then Some("Workspace not found") else
    if pact.terms.agentId !in s.agents then Some("Agent not found") else
    if !(pact.terms.workspaceId == c.workspaceId && pact.terms.pathId == c.pathId)
    then Some("checkpoint Pact binding mismatch")
    else if c.termsHash != pact.termsHash then Some("checkpoint Pact terms hash mismatch")
    else if !SameText(c.counterparty, pact.terms.counterparty) then Some("checkpoint counterparty mismatch")
    else if pact.openRails.Some? && c.paycardId != Some(pact.openRails.value.paycardId)
    then Some("checkpoint Paycard binding mismatch")
    else if !(pact.status in {Active, Performing, Disputed}) then Some("Pact is not accepting checkpoints")
    else if c.checkpointId in s.checkpoints then Some("checkpoint already exists")
    else if c.index != |CheckpointIds(s, c.pactId)| + 1 then Some("checkpoint index mismatch")
    else if !(SameText(c.submittedBy, s.workspaces[pact.terms.workspaceId].authorityAccount)
         || SameText(c.submittedBy, pact.terms.counterparty)
         || SameText(c.submittedBy, s.agents[pact.terms.agentId].operator))
    then Some("checkpoint submitter is not a Pact participant or Agent operator")
    else if !SameText(c.actor, c.submittedBy) then Some("checkpoint actor must match the signing submitter in V1")
    else if !env.verify(CheckpointMessage(c), signature, c.submittedBy) then Some("checkpoint signature is invalid")
    else None
  }

  function Checkpointed(pact: Pact): (next: Pact)
    ensures next.terms == pact.terms && PaymentBinding(next) == PaymentBinding(pact)
  {
    pact.(status := if pact.status == Active then Performing else pact.status, revision := pact.revision + 1)
  }

  function SubmitCheckpoint(s: State, c: Checkpoint, now: int): State
    requires c.pactId in s.pacts
  {
    WithPact(s, c.pactId, Checkpointed(s.pacts[c.pactId]), CheckpointSubmitted, now, None)
    .(checkpoints := s.checkpoints[c.checkpointId := c])
  }

  /** verdict is the plugin's answer, None when it throws. */
  function VerifyCheckpointError(env: Env, s: State, checkpointId: string, key: (string, string),
                                 verdict: Option<Verdict>): Error {
    if checkpointId !in s.checkpoints then Some("checkpoint not found") else
    var c := s.checkpoints[checkpointId];
    if c.pactId !in s.pacts then Some("Pact not found") else
    var t := s.pacts[c.pactId].terms;
    if key != (t.evidencePolicyId, t.evidencePolicyVersion)
    then Some("verification plugin does not match the immutable Pact evidence policy")
    else if !(key in s.plugins && s.plugins[key].active) then Some("Pact verification plugin is not active")
    else if s.plugins[key].codeDigest != t.evidencePolicyCodeDigest
    then Some("Pact verification plugin digest changed")
    else if !(key in env.implementations && env.implementations[key] == t.evidencePolicyCodeDigest)
    then Some("Pact verification implementation digest mismatch")
    else if c.workspaceId !in s.plugins[key].installedWorkspaceIds
    then Some("verification plugin is not installed in the Workspace")
    else if verdict.None? then Some("verification plugin failed")
    else None
  }

  function Verified(pact: Pact, c: Checkpoint, verdict: Verdict): (next: Pact)
    ensures next.terms == pact.terms && PaymentBinding(next) == PaymentBinding(pact)
  {
    if verdict == Rejected then pact.(status := Disputed, revision := pact.revision + 1)
    else if verdict == Approved && c.completes then pact.(status := Completed, revision := pact.revision + 1)
    else pact
  }

  function VerifyCheckpoint(s: State, checkpointId: string, verdict: Verdict, now: int): State
    requires checkpointId in s.checkpoints && s.checkpoints[checkpointId].pactId in s.pacts
  {
    var c := s.checkpoints[checkpointId];
    WithPact(s, c.pactId, Verified(s.pacts[c.pactId], c, verdict), CheckpointVerified, now, None)
  }

  function OpenGaiaCaseError(env: Env, s: State, g: GaiaCase, signature: Signature, now: int): Error {
    if g.claimValidUntil <= now then Some("Gaia claim signature expired")
    else if g.pactId !in s.pacts then Some("Pact not found") else
    var pact := s.pacts[g.pactId];
    if !PactIntact(env, pact) then Some("Pact is malformed")
    else if pact.terms.workspaceId !in s.workspaces then Some("Workspace not found") else
    var authority, counterparty := s.workspaces[pact.terms.workspaceId].authorityAccount, pact.terms.counterparty;
    if !(pact.terms.workspaceId == g.workspaceId && pact.terms.pathId == g.pathId)
    then Some("Gaia Pact binding mismatch")
    else if pact.openRails.Some? && g.paycardId != Some(pact.openRails.value.paycardId)
    then Some("Gaia Paycard binding mismatch")
    else if !(SameText(g.claimant, authority) || SameText(g.claimant, counterparty))
    then Some("Gaia claimant is not a Pact party")
    else if !SameText(g.respondent, if SameText(g.claimant, authority) then counterparty else authority)
    then Some("Gaia respondent is not the opposing Pact party")
    else if g.caseId in s.gaiaCases then Some("Gaia case already exists")
    else if !env.verify(GaiaMessage(g), signature, g.claimant) then Some("Gaia claim signature is invalid")
    else None
  }

  function OpenGaiaCase(s: State, g: GaiaCase, now: int): State
    requires g.pactId in s.pacts
  {
    var pact := s.pacts[g.pactId];
    WithPact(s, g.pactId, pact.(status := Disputed, revision := pact.revision + 1), GaiaCaseOpened, now, None)
    .(gaiaCases := s.gaiaCases[g.caseId := g.(status := GaiaOpen)])
  }

  function ResolveGaiaCaseError(env: Env, s: State, caseId: string, resolver: Address, decision: GaiaDecision,
                                c: Command, signature: Signature, now: int): Error {
    if caseId !in s.gaiaCases then Some("Gaia case not found") else
    var gaia := s.gaiaCases[caseId];
    var refused := CommandError(env, s, c, signature, ResolveGaiaOperation,
                                GaiaPayload(caseId, resolver, decision), now);
    if refused.Some? then refused else
    if c.workspaceId != gaia.workspaceId then Some("Workspace command target mismatch")
    else if !MayResolve(s.workspaces[c.workspaceId], resolver) then Some("resolver lacks Gaia authority")
    else if gaia.pactId !in s.pacts then Some("Pact not found")
    else None
  }

  predicate Rectifies(decision: GaiaDecision) {
    decision in {ReplacementPact, CompensatingPact, CloseAndReturnResidual}
  }

  function ResolvedStatus(decision: GaiaDecision): GaiaStatus {
    if Rectifies(decision) then GaiaRectification else if decision == Dismiss then GaiaDismissed
    else GaiaResolvedStatus
  }

  function Rectified(pact: Pact, decision: GaiaDecision): (next: Pact)
    ensures next.terms == pact.terms && PaymentBinding(next) == PaymentBinding(pact)
  {
    pact.(status := if Rectifies(decision) then RectificationRequired else pact.status, revision := pact.revision + 1)
  }

  function ResolveGaiaCase(s: State, caseId: string, decision: GaiaDecision, c: Command, now: int): State
    requires caseId in s.gaiaCases && s.gaiaCases[caseId].pactId in s.pacts
  {
    var gaia := s.gaiaCases[caseId];
    WithPact(UseNonce(s, c), gaia.pactId, Rectified(s.pacts[gaia.pactId], decision), GaiaResolved, now, None)
    .(gaiaCases := s.gaiaCases[caseId := gaia.(status := ResolvedStatus(decision))])
  }

  function RecordSettlementError(env: Env, s: State, pactId: string, txHash: Hex, amount: string,
                                 o: SettlementObservation): Error {
    if !PositiveUnits(amount) then Some("settled amount must be greater than zero")
    else if pactId !in s.pacts then Some("Pact not found") else
    var pact := s.pacts[pactId];
    if !PactIntact(env, pact) then Some("Pact is malformed")
    else if !HasOpening(pact) then Some("Canonical opening observation disappeared before settlement recording")
    else if !SettlementMatches(pact.terms, pact.openRails.value.paycardId, txHash, amount, o)
    then Some("Settlement observation mismatch")
    else None
  }

  predicate HasSettlement(settlements: seq<SettlementObservation>, txHash: Hex) {
    exists i :: 0 <= i < |settlements| && SameText(settlements[i].transactionHash, txHash)
  }

  function SettledWith(pact: Pact, o: SettlementObservation): (next: Pact)
    requires pact.openRails.Some?
    ensures next.terms == pact.terms && PaymentBinding(next) == PaymentBinding(pact)
  {
    var payment := pact.openRails.value;
    var settlements := if HasSettlement(payment.settlements, o.transactionHash) then payment.settlements
                       else payment.settlements + [o];
    pact.(openRails := Some(payment.(settlements := settlements)),
          status := if o.final then Settled else pact.status, revision := pact.revision + 1)
  }

  function RecordSettlement(s: State, pactId: string, o: SettlementObservation, now: int): State
    requires pactId in s.pacts && s.pacts[pactId].openRails.Some?
  {
    WithPact(s, pactId, SettledWith(s.pacts[pactId], o), if o.final then PactSettled else SettlementConfirmed, now,
             None)
  }

  // ---- One committed transaction -----------------------------------------------------------------

  /**
   * A call as its transaction sees it. What was computed outside the transaction (the chain verifier's
   * observation, the plugin's verdict, a worker's candidate job, the identity answer) is an arbitrary input.
   */
  datatype Op =
    | OpRegisterWorkspace(workspace: Workspace, signature: Signature)
    | OpRegisterAgent(agent: Agent, signer: Address, signature: Signature)
    | OpSetAgentStatus(workspaceId: string, agentId: string, agentStatus: AgentStatus, command: Command,
                       signature: Signature)
    | OpActivatePath(path: Path, signature: Signature)
    | OpInstallPlugin(key: (string, string), manifest: Manifest, command: Command, signature: Signature)
    | OpSubmitProposal(proposal: Proposal)
    | OpRunJob(jobId: string, identity: Identity)
    | OpCreatePact(request: PactRequest, identity: Identity)
    | OpSignPact(pactId: string, signer: Address, signature: Signature)
    | OpPreparePayment(pactId: string, preparation: Preparation)
    | OpOpenPayment(pactId: string, metadataHash: Hex, paycardId: Hex, txHash: Hex, opening: OpeningObservation)
    | OpSubmitCheckpoint(checkpoint: Checkpoint, signature: Signature)
    | OpVerifyCheckpoint(checkpointId: string, key: (string, string), verdict: Option<Verdict>)
    | OpOpenGaiaCase(gaia: GaiaCase, signature: Signature)
    | OpResolveGaiaCase(caseId: string, resolver: Address, decision: GaiaDecision, command: Command,
                        signature: Signature)
    | OpRecordSettlement(pactId: string, txHash: Hex, amount: string, settlement: SettlementObservation)

  ghost predicate AllowedNow(env: Env, s: State, proposalId: string, identity: Identity, now: int) {
    proposalId in s.proposals && Allowed(env, s, s.proposals[proposalId], identity, now)
  }

  /** Calls on Workspaces, Agents, Paths, plugins, Proposals and jobs. */
  ghost function RegistryCall(env: Env, s: State, op: Op, now: int): State {
    match op
    case OpRegisterWorkspace(w, sig) =>
      if RegisterWorkspaceError(env, s, w, sig).Some? then s else s.(workspaces := s.workspaces[w.workspaceId := w])
    case OpRegisterAgent(a, signer, sig) =>
      if RegisterAgentError(env, s, a, signer, sig).Some? then s else s.(agents := s.agents[a.agentId := a])
    case OpSetAgentStatus(w, a, status, c, sig) =>
      if SetAgentStatusError(env, s, w, a, status, c, sig, now).Some? then s else SetAgentStatus(s, a, status, c)
    case OpActivatePath(path, sig) =>
      if ActivatePathError(env, s, path, sig).Some? then s else ActivatePath(env, s, path, sig)
    case OpInstallPlugin(key, m, c, sig) =>
      if InstallPluginError(env, s, key, m, c, sig, now).Some? then s
      else UseNonce(s, c).(plugins := s.plugins[key := m])
    case OpSubmitProposal(p) => if SubmitProposalError(env, s, p).Some? then s else SubmitProposal(env, s, p)
    case OpRunJob(id, identity) =>
      RunJob(s, id, id in s.jobs && AllowedNow(env, s, s.jobs[id].proposalId, identity, now))
    case _ => s
  }

  /** Calls that create, sign, pay and settle Pacts. */
  ghost function PaymentCall(env: Env, s: State, op: Op, now: int): State {
    match op
    case OpCreatePact(r, identity) =>
      if CreatePactError(env, s, r, AllowedNow(env, s, r.proposalId, identity, now)).Some? then s
      else CreatePact(env, s, r, now)
    case OpSignPact(id, signer, sig) =>
      if SignPactError(env, s, id, signer, sig).Some? then s else SignPact(s, id, signer, sig, now)
    case OpPreparePayment(id, q) =>
      if PreparePaymentError(env, s, id, q, now).Some? then s else PreparePayment(s, id, q, now)
    case OpOpenPayment(id, m, card, tx, o) =>
      if OpenPaymentError(env, s, id, m, card, tx, o, now).Some? then s else OpenPayment(s, id, tx, o, now)
    case OpRecordSettlement(id, tx, amount, o) =>
      if RecordSettlementError(env, s, id, tx, amount, o).Some? then s else RecordSettlement(s, id, o, now)
    case _ => s
  }

  /** Calls on checkpoints and Gaia cases. */
  ghost function CaseCall(env: Env, s: State, op: Op, now: int): State {
    match op
    case OpSubmitCheckpoint(c, sig) =>
      if SubmitCheckpointError(env, s, c, sig, now).Some? then s else SubmitCheckpoint(s, c, now)
    case OpVerifyCheckpoint(id, key, v) =>
      if VerifyCheckpointError(env, s, id, key, v).Some? then s else VerifyCheckpoint(s, id, v.value, now)
    case OpOpenGaiaCase(g, sig) =>
      if OpenGaiaCaseError(env, s, g, sig, now).Some? then s else OpenGaiaCase(s, g, now)
    case OpResolveGaiaCase(id, r, d, c, sig) =>
      if ResolveGaiaCaseError(env, s, id, r, d, c, sig, now).Some? then s else ResolveGaiaCase(s, id, d, c, now)
    case _ => s
  }

  /** The committed state after a call; a call that throws discards its draft. */
  ghost function Step(env: Env, s: State, op: Op, now: int): State {
    match op
    case OpCreatePact(_, _) => PaymentCall(env, s, op, now)
    case OpSignPact(_, _, _) => PaymentCall(env, s, op, now)
    case OpPreparePayment(_, _) => PaymentCall(env, s, op, now)
    case OpOpenPayment(_, _, _, _, _) => PaymentCall(env, s, op, now)
    case OpRecordSettlement(_, _, _, _) => PaymentCall(env, s, op, now)
    case OpSubmitCheckpoint(_, _) => CaseCall(env, s, op, now)
    case OpVerifyCheckpoint(_, _, _) => CaseCall(env, s, op, now)
    case OpOpenGaiaCase(_, _) => CaseCall(env, s, op, now)
    case OpResolveGaiaCase(_, _, _, _, _) => CaseCall(env, s, op, now)
    case _ => RegistryCall(env, s, op, now)
  }

  /** The error a call throws, if it throws one. */
  ghost function CallError(env: Env, s: State, op: Op, now: int): Error {
    match op
    case OpRegisterWorkspace(w, sig) => RegisterWorkspaceError(env, s, w, sig)
    case OpRegisterAgent(a, signer, sig) => RegisterAgentError(env, s, a, signer, sig)
    case OpSetAgentStatus(w, a, status, c, sig) => SetAgentStatusError(env, s, w, a, status, c, sig, now)
    case OpActivatePath(path, sig) => ActivatePathError(env, s, path, sig)
    case OpInstallPlugin(key, m, c, sig) => InstallPluginError(env, s, key, m, c, sig, now)
    case OpSubmitProposal(p) => SubmitProposalError(env, s, p)
    case OpRunJob(_, _) => None
    case OpCreatePact(r, identity) => CreatePactError(env, s, r, AllowedNow(env, s, r.proposalId, identity, now))
    case OpSignPact(id, signer, sig) => SignPactError(env, s, id, signer, sig)
    case OpPreparePayment(id, q) => PreparePaymentError(env, s, id, q, now)
    case OpOpenPayment(id, m, card, tx, o) => OpenPaymentError(env, s, id, m, card, tx, o, now)
    case OpSubmitCheckpoint(c, sig) => SubmitCheckpointError(env, s, c, sig, now)
    case OpVerifyCheckpoint(id, key, v) => VerifyCheckpointError(env, s, id, key, v)
    case OpOpenGaiaCase(g, sig) => OpenGaiaCaseError(env, s, g, sig, now)
    case OpResolveGaiaCase(id, r, d, c, sig) => ResolveGaiaCaseError(env, s, id, r, d, c, sig, now)
    case OpRecordSettlement(id, tx, amount, o) => RecordSettlementError(env, s, id, tx, amount, o)
  }

  datatype Event = Event(op: Op, now: int)

  /** The state after the transactions of a run commit one after another. */
  ghost function Run(env: Env, s: State, run: seq<Event>): State {
    if run == [] then s
    else
      var last := run[|run| - 1];
      Step(env, Run(env, s, run[..|run| - 1]), last.op, last.now)
  }
}
