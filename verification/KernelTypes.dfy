// The agent kernel's records (agent-kernel/src/types.ts). Timestamps are milliseconds, amounts stay base-unit text.
module KernelTypes {
  import opened Prelude
  import opened CanonicalValues

  type Address = string
  type Hex = string
  type Signature = string

  datatype Member = Member(address: Address, active: bool, owner: bool, gaiaResolver: bool)
  datatype Workspace = Workspace(workspaceId: string, authorityAccount: Address, members: seq<Member>,
                                 active: bool, revision: int)

  datatype AgentStatus = AgentPending | AgentActive | AgentPaused | AgentRevoked
  datatype Agent = Agent(agentId: string, workspaceId: string, operator: Address, status: AgentStatus,
                         assignedPathIds: seq<string>, revision: int)

  datatype Limits = Limits(maxPerPact: string, maxActiveExposure: string, maxPerPeriod: string,
                           periodSeconds: int, maxVelocity: string, maxDurationSeconds: int,
                           maxConcurrentPacts: int)
  datatype IdentityRequirement = IdentityRequirement(dojang: bool, required: bool, needsName: bool,
                                                     needsForwardMatch: bool)
  datatype PathStatus = PathDraft | PathActive | PathPaused | PathExpired | PathRevoked
  /** authorityRank orders observe, propose, prepare, confirmed_execution; no counterparties means any. */
  datatype Path = Path(pathId: string, workspaceId: string, owner: Address, authorityAccount: Address,
                       authorizedAgentIds: seq<string>, permittedActions: seq<string>,
                       permittedAssets: seq<Address>, permittedCounterparties: seq<Address>,
                       identityRequirements: seq<IdentityRequirement>, approvedPlugins: seq<(string, string)>,
                       limits: Limits, authorityRank: int, validFrom: int, expiresAt: int,
                       status: PathStatus, revision: int, previousPathHash: Option<Hex>)
  datatype SignedPath = SignedPath(artifact: Path, hash: Hex, signer: Address, signature: Signature)

  datatype Proposal = Proposal(proposalId: string, workspaceId: string, pathId: string, agentId: string,
                               actionType: string, asset: Address, counterparty: Option<Address>,
                               allocation: string, velocity: string, durationSeconds: int,
                               evidencePolicyId: string, idempotencyKey: string, specification: Value)

  datatype PaymentTerms = PaymentTerms(chainId: int, vault: Address, token: Address, payer: Address,
                                       recipient: Address, maximumAllocation: string, velocity: string,
                                       lifespanSeconds: int, residualRecipient: Address)
  /** Exactly the fields that pactTermsProjection hashes. */
  datatype PactTerms = PactTerms(pactId: string, workspaceId: string, pathId: string, pathRevision: int,
                                 pathHash: Hex, proposalId: string, proposalHash: Hex, decisionId: string,
                                 decisionHash: Hex, initiator: Address, agentId: string, counterparty: Address,
                                 actionType: string, specification: Value, commercialTerms: Value,
                                 payment: PaymentTerms, evidencePolicyId: string, evidencePolicyVersion: string,
                                 evidencePolicyCodeDigest: Hex, completionPolicyId: string,
                                 disputePolicyId: string, requiresCounterpartySignature: bool)

  /** The statuses the kernel assigns, plus awaiting_wallet, which it only reads. */
  datatype PactStatus = AwaitingSignatures | Accepted | PaymentPrepared | AwaitingWallet | Active
                      | Performing | Completed | Settled | Disputed | RectificationRequired

  datatype OpeningObservation = OpeningObservation(transactionHash: Hex, chainId: int, vault: Address,
                                                   paycardId: Hex, metadataHash: Hex, payer: Address,
                                                   recipient: Address, residualRecipient: Address,
                                                   poolAllocation: string, flowVelocity: string,
                                                   lifespanSeconds: int, availableBalance: string,
                                                   operationalStatus: int)
  datatype SettlementObservation = SettlementObservation(transactionHash: Hex, chainId: int, vault: Address,
                                                         paycardId: Hex, recipient: Address,
                                                         settledAmount: string, final: bool)
  datatype OpenRails = OpenRails(metadataHash: Hex, paycardId: Hex, genesisTimestamp: int, nonceChannel: int,
                                 nonceValue: int, openingTxHash: Option<Hex>,
                                 opening: Option<OpeningObservation>, settlements: seq<SettlementObservation>)
  datatype Pact = Pact(terms: PactTerms, termsHash: Hex, status: PactStatus, revision: int,
                       openRails: Option<OpenRails>)
  datatype PactSignature = PactSignature(terms: PactTerms, hash: Hex, signer: Address, signature: Signature)

  datatype PactEventKind = PactCreated | PactAccepted | PactSignatureAdded | PaymentPreparedEvent
                         | PaymentOpenedCanonical | CheckpointSubmitted | CheckpointVerified
                         | GaiaCaseOpened | GaiaResolved | SettlementConfirmed | PactSettled
  datatype PactEvent = PactEvent(pactId: string, workspaceId: string, kind: PactEventKind, at: int,
                                 allocation: Option<string>)

  datatype Manifest = Manifest(codeDigest: Hex, active: bool, installedWorkspaceIds: seq<string>,
                               publisher: Address, publisherSignature: Signature)
  datatype Checkpoint = Checkpoint(checkpointId: string, pactId: string, workspaceId: string, pathId: string,
                                   termsHash: Hex, paycardId: Option<Hex>, counterparty: Address, index: int,
                                   completes: bool, submittedBy: Address, actor: Address, validUntil: int)
  datatype Verdict = Approved | Rejected | NeedsReview
  datatype GaiaStatus = GaiaOpen | GaiaResolvedStatus | GaiaDismissed | GaiaRectification
  datatype GaiaDecision = ReplacementPact | CompensatingPact | CloseAndReturnResidual | Dismiss | OtherDecision
  datatype GaiaCase = GaiaCase(caseId: string, workspaceId: string, pactId: string, pathId: string,
                               paycardId: Option<Hex>, claimant: Address, respondent: Address,
                               claimValidUntil: int, status: GaiaStatus)

  datatype JobState = Queued | Running | JobCompleted | JobBlocked | JobFailed
  datatype Job = Job(jobId: string, proposalId: string, state: JobState, attempts: nat)

  datatype Operation = SetAgentStatusOperation | InstallPluginOperation | ResolveGaiaOperation
  datatype Command = Command(workspaceId: string, operation: Operation, payloadHash: Hex,
                             workspaceRevision: int, nonce: int, issuedAt: int, expiresAt: int)

  datatype Payload = AgentStatusPayload(workspaceId: string, agentId: string, status: AgentStatus)
                   | PluginPayload(workspaceId: string, pluginId: string, version: string, codeDigest: Hex)
                   | GaiaPayload(caseId: string, resolver: Address, decision: GaiaDecision)

  datatype Action = Action(enabled: bool, minimumRank: int)
  datatype Identity = NoResolver | ResolveFailed
                    | Resolved(verified: bool, hasName: bool, forwardMatches: bool)

  /** What a signature is checked against. */
  datatype Message = WorkspaceMessage(workspace: Workspace) | AgentMessage(agent: Agent) | PathMessage(path: Path)
                   | PactMessage(terms: PactTerms, termsHash: Hex) | CommandMessage(command: Command)
                   | PluginMessage(pluginId: string, version: string, codeDigest: Hex, publisher: Address)
                   | CheckpointMessage(checkpoint: Checkpoint) | GaiaMessage(gaia: GaiaCase)

  /** Everything an Allow decision's hash covers. */
  datatype DecisionCore = DecisionCore(proposalHash: Hex, pathHash: Hex, exposure: nat, spent: nat,
                                       activePacts: nat, evaluatedAt: int)

  /**
   * What the kernel is configured with or calls out to: canonical hashes, stable identifiers, signature
   * recovery, the action registry and the bound plugin implementations (code digest by id and version).
   */
  datatype Env = Env(hashPath: Path -> Hex, hashTerms: PactTerms -> Hex, hashProposal: Proposal -> Hex,
                     hashDecision: DecisionCore -> Hex, hashPayload: Payload -> Hex,
                     jobId: string -> string, decisionId: Hex -> string,
                     verify: (Message, Signature, Address) -> bool, actions: map<string, Action>,
                     implementations: map<(string, string), Hex>, chainId: int, vault: Address)

  /**
   * The persisted kernel state. pactIds and jobIds list the keys of pacts and jobs in insertion order,
   * which is the order in which Object.values visits them.
   */
  datatype State = State(workspaces: map<string, Workspace>, agents: map<string, Agent>,
                         paths: map<string, SignedPath>, pactIds: seq<string>, pacts: map<string, Pact>,
                         pactSignatures: map<string, seq<PactSignature>>, pactEvents: seq<PactEvent>,
                         proposals: map<string, Proposal>, plugins: map<(string, string), Manifest>,
                         checkpoints: map<string, Checkpoint>, gaiaCases: map<string, GaiaCase>,
                         jobIds: seq<string>, jobs: map<string, Job>, idempotency: map<string, Hex>,
                         commandNonces: map<string, nat>)

  const EMPTY_STATE := State(map[], map[], map[], [], map[], map[], [], map[], map[], map[], map[], [],
                             map[], map[], map[])
}
