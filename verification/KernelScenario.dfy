// A Workspace, an Agent, a Path and two Proposals that fit its limit one at a time: the stage for runs that show which
// conditions the kernel's results need. Hashes are arbitrary, and any verifier will do for which parties can sign.
module KernelScenario {
  import opened Prelude
  import opened CanonicalValues
  import opened KernelTypes
  import opened Policy
  import opened KernelOps
  import opened KernelSafety
  import opened KernelFrames
  import opened KernelHistory

  type Signer = (Message, Address) -> Signature

  /** Every party can sign, one action is registered and one plugin bound. */
  ghost predicate Staged(env: Env, sign: Signer) {
    && (forall m, a :: env.verify(m, sign(m, a), a))
    && env.actions == map["pay" := Action(true, 0)] && env.implementations == map[("e", "1") := "d"]
  }

  /** An environment whose signatures verify for their own message and signer only, when sign tells them apart. */
  function StagedEnv(sign: Signer): Env {
    Env(_ => "path", _ => "terms", _ => "proposal", _ => "decision", _ => "payload", id => "job" + id, _ => "decision",
        (m, signature, a) => signature == sign(m, a), map["pay" := Action(true, 0)], map[("e", "1") := "d"], 1, "v")
  }

  lemma StagedEnvIsStaged(sign: Signer)
    ensures Staged(StagedEnv(sign), sign)
  {
  }

  const WORKSPACE := Workspace("w", "a", [Member("a", true, true, false)], true, 1)
  const AGENT := Agent("g", "w", "a", AgentActive, [], 1)

  /** A Path with room for one allocation of 2 when limit is 2. */
  function PathOf(limit: string, revision: int, previous: Option<Hex>): Path {
    Path("p", "w", "a", "a", ["g"], ["pay"], ["t"], [], [], [("e", "1")], Limits("2", limit, "9", 1, "1", 1, 9), 3, 0,
         100, PathActive, revision, previous)
  }

  function ProposalOf(id: string): Proposal {
    Proposal(id, "w", "p", "g", "pay", "t", Some("b"), "2", "1", 1, "e", id, Null)
  }

  function ManifestOf(sign: Signer): Manifest {
    Manifest("d", true, ["w"], "a", sign(PluginMessage("e", "1", "d", "a"), "a"))
  }

  function InstallCommand(env: Env): Command {
    Command("w", InstallPluginOperation, env.hashPayload(PluginPayload("w", "e", "1", "d")), 1, 0, 0, 100)
  }

  function RequestOf(id: string): PactRequest {
    PactRequest(id, id, Null, "completion", "dispute", false)
  }

  lemma StageUnits()
    ensures IsUnits("1") && Units("1") == 1 && IsUnits("2") && Units("2") == 2 && IsUnits("9") && Units("9") == 9
  {
    assert "1"[..0] == "" && "2"[..0] == "" && "9"[..0] == "";
  }

  // ---- Setting the stage -------------------------------------------------------------------------

  function RegisterWorkspaceOp(sign: Signer): Op {
    OpRegisterWorkspace(WORKSPACE, sign(WorkspaceMessage(WORKSPACE), "a"))
  }

  function RegisterAgentOp(sign: Signer): Op {
    OpRegisterAgent(AGENT, "a", sign(AgentMessage(AGENT), "a"))
  }

  function ActivateOp(sign: Signer, path: Path): Op {
    OpActivatePath(path, sign(PathMessage(path), "a"))
  }

  function InstallOp(env: Env, sign: Signer): Op {
    OpInstallPlugin(("e", "1"), ManifestOf(sign), InstallCommand(env),
                    sign(CommandMessage(InstallCommand(env)), "a"))
  }

  function Stored(env: Env, sign: Signer, path: Path): SignedPath {
    SignedPath(path, env.hashPath(path), "a", sign(PathMessage(path), "a"))
  }

  lemma OwnerActs(a: Address)
    requires a == "a"
    ensures ActiveOwner(WORKSPACE, a)
  {
    assert WORKSPACE.members[0].owner;
  }

  lemma WorkspaceRegistered(env: Env, sign: Signer)
    requires Staged(env, sign)
    ensures Step(env, EMPTY_STATE, RegisterWorkspaceOp(sign), 0) == EMPTY_STATE.(workspaces := map["w" := WORKSPACE])
  {
    hide Step;
    OwnerActs("a");
    RegisterWorkspaceStep(env, EMPTY_STATE, RegisterWorkspaceOp(sign), 0);
  }

  lemma AgentRegistered(env: Env, sign: Signer, s: State)
    requires Staged(env, sign) && s == EMPTY_STATE.(workspaces := map["w" := WORKSPACE])
    ensures Step(env, s, RegisterAgentOp(sign), 0) == s.(agents := map["g" := AGENT])
  {
    hide Step;
    RegisterAgentStep(env, s, RegisterAgentOp(sign), 0);
  }

  /** The Workspace, the Agent and the stored Path. */
  ghost predicate Manned(env: Env, sign: Signer, s: State, path: Path) {
    && s.workspaces == map["w" := WORKSPACE]
    && s.agents == map["g" := AGENT.(assignedPathIds := ["p"])]
    && s.paths == map["p" := Stored(env, sign, path)]
  }

  /** The Path is the first of its id, or revises the stored one. */
  ghost predicate NextRevision(s: State, path: Path) {
    && path == PathOf(path.limits.maxActiveExposure, path.revision, path.previousPathHash)
    && path.limits.maxActiveExposure in {"1", "2"}
    && if s.paths == map[] then path.revision == 1
       else && "p" in s.paths && s.paths.Keys == {"p"} && path.revision == s.paths["p"].artifact.revision + 1 > 1
            && path.previousPathHash == Some(s.paths["p"].hash)
            && s.paths["p"].artifact.workspaceId == "w" && s.paths["p"].artifact.owner == "a"
            && s.paths["p"].artifact.authorityAccount == "a"
  }

  lemma PathAccepted(env: Env, sign: Signer, s: State, path: Path)
    requires Staged(env, sign) && s.workspaces == map["w" := WORKSPACE] && NextRevision(s, path)
    requires "g" in s.agents && s.agents["g"].workspaceId == "w" && s.agents["g"].status == AgentActive
    ensures ActivatePathError(env, s, path, sign(PathMessage(path), "a")).None?
  {
    hide Units, IsUnits, ActiveOwner, SameText;
    StageUnits();
    OwnerActs("a");
    SameTexts("a");
  }

  lemma SameTexts(a: string)
    ensures SameText(a, a)
  {
  }

  lemma PathActivated(env: Env, sign: Signer, s: State, path: Path)
    requires Staged(env, sign) && s.workspaces == map["w" := WORKSPACE] && NextRevision(s, path)
    requires s.agents == map["g" := AGENT] || s.agents == map["g" := AGENT.(assignedPathIds := ["p"])]
    ensures var r := Step(env, s, ActivateOp(sign, path), 0);
            && Manned(env, sign, r, path) && r == s.(paths := r.paths, agents := r.agents)
  {
    hide Step, ActivatePathError, ActivatePath;
    PathAccepted(env, sign, s, path);
    hide Staged;
    ActivatePathStep(env, s, ActivateOp(sign, path), 0);
    PathStored(env, s, path, sign(PathMessage(path), "a"));
  }

  lemma PathStored(env: Env, s: State, path: Path, signature: Signature)
    requires path.pathId == "p" && path.authorityAccount == "a" && path.authorizedAgentIds == ["g"]
    requires s.agents == map["g" := AGENT] || s.agents == map["g" := AGENT.(assignedPathIds := ["p"])]
    requires s.paths == map[] || s.paths.Keys == {"p"}
    ensures var r := ActivatePath(env, s, path, signature);
            && r == s.(paths := r.paths, agents := r.agents)
            && r.paths == map["p" := SignedPath(path, env.hashPath(path), "a", signature)]
            && r.agents == map["g" := AGENT.(assignedPathIds := ["p"])]
  {
    hide Assign;
    AssignedOnce();
    var r := ActivatePath(env, s, path, signature);
    assert r.agents.Keys == {"g"};
    assert r.agents["g"] == Assign(s.agents["g"], "p");
    assert r.paths.Keys == {"p"};
  }

  lemma AssignedOnce()
    ensures Assign(AGENT, "p") == AGENT.(assignedPathIds := ["p"])
    ensures Assign(AGENT.(assignedPathIds := ["p"]), "p") == AGENT.(assignedPathIds := ["p"])
  {
  }

  lemma CommandAuthorized(env: Env, sign: Signer, s: State)
    requires Staged(env, sign) && s.workspaces == map["w" := WORKSPACE] && s.commandNonces == map[]
    ensures var c := InstallCommand(env);
            CommandError(env, s, c, sign(CommandMessage(c), "a"), InstallPluginOperation,
                         PluginPayload("w", "e", "1", "d"), 0).None?
  {
  }

  lemma PluginInstalled(env: Env, sign: Signer, s: State)
    requires Staged(env, sign) && s.workspaces == map["w" := WORKSPACE]
    requires s.plugins == map[] && s.commandNonces == map[]
    ensures var r := Step(env, s, InstallOp(env, sign), 0);
            && r == s.(plugins := map[("e", "1") := ManifestOf(sign)], commandNonces := r.commandNonces)
  {
    hide Step, CommandError, NextNonce, SamePacts, SameRegistry;
    CommandAuthorized(env, sign, s);
    InstallPluginStep(env, s, InstallOp(env, sign), 0);
  }

  lemma ProposalSubmitted(env: Env, s: State, id: string)
    requires id !in s.proposals && IdempotencyKey(ProposalOf(id)) !in s.idempotency
    ensures var r := Step(env, s, OpSubmitProposal(ProposalOf(id)), 0);
            && r == s.(proposals := s.proposals[id := ProposalOf(id)], jobs := r.jobs, jobIds := r.jobIds,
                       idempotency := r.idempotency)
            && r.idempotency.Keys == s.idempotency.Keys + {IdempotencyKey(ProposalOf(id))}
  {
    hide Step, Units, IsUnits, IdempotencyKey, FindJob, AppendKey;
    StageUnits();
    SubmitProposalStep(env, s, OpSubmitProposal(ProposalOf(id)), 0);
  }

  /** The run that sets the stage. */
  function StageRun(env: Env, sign: Signer): seq<Event> {
    [Event(RegisterWorkspaceOp(sign), 0)] + [Event(RegisterAgentOp(sign), 0)]
    + [Event(ActivateOp(sign, PathOf("2", 1, None)), 0)] + [Event(InstallOp(env, sign), 0)]
    + [Event(OpSubmitProposal(ProposalOf("1")), 0)] + [Event(OpSubmitProposal(ProposalOf("2")), 0)]
  }

  /** The registry as the stage leaves it, whatever has happened to Pacts since. */
  ghost predicate Ready(env: Env, sign: Signer, s: State, path: Path) {
    && Manned(env, sign, s, path) && s.plugins == map[("e", "1") := ManifestOf(sign)]
    && s.proposals == map["1" := ProposalOf("1"), "2" := ProposalOf("2")]
  }

  ghost predicate NoPacts(s: State) {
    s.pacts == map[] && s.pactIds == [] && s.pactEvents == [] && s.pactSignatures == map[] && s.checkpoints == map[]
    && s.gaiaCases == map[]
  }

  lemma RunMore(env: Env, run: seq<Event>, e: Event)
    ensures Run(env, EMPTY_STATE, run + [e]) == Step(env, Run(env, EMPTY_STATE, run), e.op, e.now)
  {
    hide Step;
    assert (run + [e])[..|run|] == run;
  }

  lemma DistinctKeys()
    ensures IdempotencyKey(ProposalOf("1")) != IdempotencyKey(ProposalOf("2"))
  {
    var a, b := IdempotencyKey(ProposalOf("1")), IdempotencyKey(ProposalOf("2"));
    assert a[|a| - 1] == '1' && b[|b| - 1] == '2';
  }

  // ---- Pacts on the stage ------------------------------------------------------------------------

  /** Nothing is reserved on the Path, and what was opened leaves room for another allocation of 2. */
  ghost predicate Room(s: State, path: Path) {
    ActiveExposure(s, "p") == 0 && ActivePacts(s, "p") == [] && PeriodSpent(s, path, 0) <= 7
  }

  lemma StandingAllows(env: Env, sign: Signer, s: State, path: Path, id: string, reason: Reason)
    requires Staged(env, sign) && Ready(env, sign, s, path) && path == PathOf("2", path.revision, path.previousPathHash)
    ensures !AppliesBeforePath(reason, env, s, ProposalOf(id))
    ensures !OutsideAuthority(reason, env, path, ProposalOf(id), 0)
  {
  }

  lemma ScopeAllows(path: Path, id: string, reason: Reason)
    requires path == PathOf("2", path.revision, path.previousPathHash)
    ensures !OutsideScope(reason, path, ProposalOf(id))
    ensures !CounterpartyFails(reason, path, ProposalOf(id), NoResolver)
  {
    hide Units, IsUnits, SameText;
    StageUnits();
    SameTexts("t");
    assert SameText(path.permittedAssets[0], "t");
    assert path.approvedPlugins[0].0 == "e";
  }

  lemma RoomAllows(s: State, path: Path, reason: Reason)
    requires Room(s, path) && path == PathOf("2", path.revision, path.previousPathHash)
    ensures !LimitExceeded(reason, path.limits, CurrentUsage(s, path, 0), Units("2"), Units("1"), 1)
  {
    hide Units, ActiveExposure, ActivePacts, PeriodSpent;
    StageUnits();
  }

  lemma ProposalAllowed(env: Env, sign: Signer, s: State, path: Path, id: string)
    requires Staged(env, sign) && Ready(env, sign, s, path) && path == PathOf("2", path.revision, path.previousPathHash)
    requires Room(s, path) && id in {"1", "2"}
    ensures AllowedNow(env, s, id, NoResolver, 0)
  {
    hide Units, Room, LimitExceeded, CurrentUsage, AppliesBeforePath, OutsideScope, OutsideAuthority,
         CounterpartyFails, Staged;
    forall reason: Reason
      ensures !Applies(reason, env, s, ProposalOf(id), NoResolver, 0)
    {
      StandingAllows(env, sign, s, path, id, reason);
      ScopeAllows(path, id, reason);
      RoomAllows(s, path, reason);
    }
  }

  lemma EvidenceReady(env: Env, sign: Signer, s: State, path: Path, id: string)
    requires Staged(env, sign) && Ready(env, sign, s, path) && path.approvedPlugins == [("e", "1")]
    ensures "p" in s.paths && EvidenceError(env, s, ProposalOf(id)).None?
  {
    hide Units, IsUnits;
    StageUnits();
    assert FindPlugin([("e", "1")], "e") == Some(("e", "1"));
  }

  lemma PactCreatable(env: Env, sign: Signer, s: State, path: Path, id: string)
    requires Staged(env, sign) && Ready(env, sign, s, path) && path == PathOf("2", path.revision, path.previousPathHash)
    requires id in {"1", "2"} && id !in s.pacts
    ensures CreatePactError(env, s, RequestOf(id), true).None?
  {
    hide EvidenceError;
    EvidenceReady(env, sign, s, path, id);
  }

  /** The terms of the Pact made from Proposal id under the first revision of the Path. */
  ghost predicate StageTerms(env: Env, t: PactTerms, id: string) {
    && t.pactId == id && t.workspaceId == "w" && t.pathId == "p" && t.agentId == "g" && t.actionType == "pay"
    && t.pathRevision == 1 && t.pathHash == env.hashPath(PathOf("2", 1, None))
    && t.initiator == "a" && t.counterparty == "b" && !t.requiresCounterpartySignature
    && t.payment == PaymentTerms(env.chainId, env.vault, "t", "a", "b", "2", "1", 1, "a")
    && t.evidencePolicyId == "e" && t.evidencePolicyVersion == "1" && t.evidencePolicyCodeDigest == "d"
  }

  lemma NewPactOnStage(env: Env, sign: Signer, s: State, id: string)
    requires Ready(env, sign, s, PathOf("2", 1, None)) && CreatePactError(env, s, RequestOf(id), true).None?
    requires id in {"1", "2"}
    ensures var pact := NewPact(env, s, RequestOf(id), 0);
            && StageTerms(env, pact.terms, id) && pact == Pact(pact.terms, env.hashTerms(pact.terms),
                                                               AwaitingSignatures, 1, None)
  {
    hide CurrentUsage, Units, IsUnits;
  }

  function CreateOp(id: string): Op {
    OpCreatePact(RequestOf(id), NoResolver)
  }

  /** Creating the Pact adds it and nothing else. */
  lemma PactAdded(env: Env, sign: Signer, s: State, id: string)
    requires Staged(env, sign) && Ready(env, sign, s, PathOf("2", 1, None)) && Room(s, PathOf("2", 1, None))
    requires id in {"1", "2"} && id !in s.pacts && id !in s.pactIds
    ensures var r := Step(env, s, CreateOp(id), 0);
            && SameRegistry(s, r) && r.pactIds == s.pactIds + [id] && id in r.pacts
            && r.pacts == s.pacts[id := r.pacts[id]] && SignaturesOf(r, id) == []
            && (forall k :: k != id ==> SignaturesOf(r, k) == SignaturesOf(s, k))
            && StageTerms(env, r.pacts[id].terms, id)
            && r.pacts[id] == Pact(r.pacts[id].terms, env.hashTerms(r.pacts[id].terms), AwaitingSignatures, 1, None)
            && r.checkpoints == s.checkpoints && r.gaiaCases == s.gaiaCases
            && r.pactEvents == s.pactEvents + [PactEvent(id, "w", PactCreated, 0, None)]
  {
    hide Step, Staged, Ready, Room, AllowedNow, CreatePactError, NewPact;
    ProposalAllowed(env, sign, s, PathOf("2", 1, None), id);
    PactCreatable(env, sign, s, PathOf("2", 1, None), id);
    NewPactOnStage(env, sign, s, id);
    CreatePactStep(env, s, CreateOp(id), 0);
  }

  /** The step changes one Pact, not its terms, and logs one event about it. */
  ghost predicate Continues(s: State, r: State, id: string, kind: PactEventKind, allocation: Option<string>) {
    && SameRegistry(s, r) && r.pactIds == s.pactIds && id in s.pacts && id in r.pacts
    && r.pacts == s.pacts[id := r.pacts[id]]
    && r.pacts[id].terms == s.pacts[id].terms && r.pacts[id].termsHash == s.pacts[id].termsHash
    && r.pactEvents == s.pactEvents + [PactEvent(id, "w", kind, 0, allocation)]
  }

  function SignOp(s: State, sign: Signer, id: string): Op
    requires id in s.pacts
  {
    OpSignPact(id, "a", sign(PactMessage(s.pacts[id].terms, s.pacts[id].termsHash), "a"))
  }

  lemma PactSignedByOwner(env: Env, sign: Signer, s: State, id: string)
    requires Staged(env, sign) && Ready(env, sign, s, PathOf("2", 1, None)) && id in s.pacts
    requires StageTerms(env, s.pacts[id].terms, id) && s.pacts[id].termsHash == env.hashTerms(s.pacts[id].terms)
    requires s.pacts[id].status == AwaitingSignatures && SignaturesOf(s, id) == []
    ensures var r := Step(env, s, SignOp(s, sign, id), 0);
            && Continues(s, r, id, PactAccepted, None)
            && r.pacts[id] == s.pacts[id].(status := Accepted, revision := s.pacts[id].revision + 1)
            && r.checkpoints == s.checkpoints && r.gaiaCases == s.gaiaCases
            && (forall k :: k != id ==> SignaturesOf(r, k) == SignaturesOf(s, k))
  {
    hide Step, Lower;
    var t := s.pacts[id].terms;
    var signatures := SignaturesOf(s, id)
                      + [PactSignature(t, s.pacts[id].termsHash, "a", SignOp(s, sign, id).signature)];
    SignPactStep(env, s, SignOp(s, sign, id), 0);
    assert SameText(signatures[0].signer, "a");
    assert SignedBy(signatures, "a");
  }

  /** The stage with a Pact of its own terms on it. */
  ghost predicate OnStage(env: Env, sign: Signer, s: State, id: string) {
    && Ready(env, sign, s, PathOf("2", 1, None)) && id in s.pacts
    && StageTerms(env, s.pacts[id].terms, id) && s.pacts[id].termsHash == env.hashTerms(s.pacts[id].terms)
  }

  lemma StageIntact(env: Env, pact: Pact, id: string)
    requires StageTerms(env, pact.terms, id) && pact.termsHash == env.hashTerms(pact.terms)
    ensures PactIntact(env, pact)
  {
    hide Units, IsUnits;
    StageUnits();
  }

  lemma StageEligible(env: Env, sign: Signer, s: State, id: string)
    requires OnStage(env, sign, s, id)
    ensures Eligible(env, s, s.pacts[id], 0)
  {
    hide PactIntact, SameText;
    StageIntact(env, s.pacts[id], id);
    SameTexts("t");
    assert SameText(PathOf("2", 1, None).permittedAssets[0], "t");
  }

  function PrepareOp(id: string): Op {
    OpPreparePayment(id, Preparation("m", "c", 0, 0, 0))
  }

  lemma PreparationAccepted(env: Env, sign: Signer, s: State, id: string)
    requires OnStage(env, sign, s, id) && s.pacts[id].status == Accepted
    ensures PreparePaymentError(env, s, id, Preparation("m", "c", 0, 0, 0), 0).None?
  {
    hide Ready, Eligible;
    StageEligible(env, sign, s, id);
  }

  lemma PaymentReady(env: Env, sign: Signer, s: State, id: string)
    requires OnStage(env, sign, s, id) && s.pacts[id].status == Accepted
    ensures var r := Step(env, s, PrepareOp(id), 0);
            && Continues(s, r, id, PaymentPreparedEvent, Some("2"))
            && r.pacts[id] == s.pacts[id].(openRails := Some(OpenRails("m", "c", 0, 0, 0, None, None, [])),
                                           status := PaymentPrepared, revision := s.pacts[id].revision + 1)
  {
    hide Step, PreparePaymentError;
    PreparationAccepted(env, sign, s, id);
    hide Ready;
    PreparePaymentStep(env, s, PrepareOp(id), 0);
  }

  function Observed(env: Env): OpeningObservation {
    OpeningObservation("x", env.chainId, env.vault, "c", "m", "a", "b", "a", "2", "1", 1, "2", 0)
  }

  function OpenOp(env: Env, id: string): Op {
    OpOpenPayment(id, "m", "c", "x", Observed(env))
  }

  lemma ObservedMatches(env: Env, t: PactTerms, id: string)
    requires StageTerms(env, t, id)
    ensures OpeningMatches(t, "m", "c", "x", Observed(env))
  {
    hide Units, IsUnits;
    StageUnits();
  }

  lemma OpeningAccepted(env: Env, sign: Signer, s: State, id: string)
    requires OnStage(env, sign, s, id) && s.pacts[id].status == PaymentPrepared
    requires s.pacts[id].openRails == Some(OpenRails("m", "c", 0, 0, 0, None, None, []))
    ensures OpenPaymentError(env, s, id, "m", "c", "x", Observed(env), 0).None?
  {
    hide Ready, Eligible, OpeningMatches, Observed;
    StageEligible(env, sign, s, id);
    ObservedMatches(env, s.pacts[id].terms, id);
  }

  lemma PaymentOpen(env: Env, sign: Signer, s: State, id: string)
    requires OnStage(env, sign, s, id) && s.pacts[id].status == PaymentPrepared
    requires s.pacts[id].openRails == Some(OpenRails("m", "c", 0, 0, 0, None, None, []))
    ensures var r := Step(env, s, OpenOp(env, id), 0);
            && Continues(s, r, id, PaymentOpenedCanonical, Some("2"))
            && r.pacts[id] == s.pacts[id].(openRails := Some(OpenRails("m", "c", 0, 0, 0, Some("x"),
                                                                       Some(Observed(env)), [])),
                                           status := Active, revision := s.pacts[id].revision + 1)
  {
    hide Step, Ready, OpenPaymentError, Observed;
    OpeningAccepted(env, sign, s, id);
    OpenPaymentStep(env, s, OpenOp(env, id), 0);
  }

  function Paid(env: Env): SettlementObservation {
    SettlementObservation("y", env.chainId, env.vault, "c", "b", "2", true)
  }

  function SettleOp(env: Env, id: string): Op {
    OpRecordSettlement(id, "y", "2", Paid(env))
  }

  lemma SettlementAccepted(env: Env, sign: Signer, s: State, id: string)
    requires OnStage(env, sign, s, id)
    requires s.pacts[id].openRails == Some(OpenRails("m", "c", 0, 0, 0, Some("x"), Some(Observed(env)), []))
    ensures RecordSettlementError(env, s, id, "y", "2", Paid(env)).None?
  {
    hide Ready, PactIntact, Observed, Units, IsUnits;
    StageUnits();
    StageIntact(env, s.pacts[id], id);
  }

  lemma PaymentSettled(env: Env, sign: Signer, s: State, id: string)
    requires OnStage(env, sign, s, id)
    requires s.pacts[id].openRails == Some(OpenRails("m", "c", 0, 0, 0, Some("x"), Some(Observed(env)), []))
    ensures var r := Step(env, s, SettleOp(env, id), 0);
            && Continues(s, r, id, PactSettled, None) && r.gaiaCases == s.gaiaCases
            && r.pacts[id].status == Settled && r.pacts[id].openRails.Some?
            && r.pacts[id].openRails.value.paycardId == "c"
  {
    hide Step, Ready, RecordSettlementError, Observed;
    SettlementAccepted(env, sign, s, id);
    RecordSettlementStep(env, s, SettleOp(env, id), 0);
  }

  function ClaimOf(id: string, paycardId: Option<Hex>): GaiaCase {
    GaiaCase("k", "w", id, "p", paycardId, "a", "b", 1, GaiaOpen)
  }

  function ClaimOp(sign: Signer, id: string, paycardId: Option<Hex>): Op {
    OpOpenGaiaCase(ClaimOf(id, paycardId), sign(GaiaMessage(ClaimOf(id, paycardId)), "a"))
  }

  lemma PactDisputed(env: Env, sign: Signer, s: State, id: string, paycardId: Option<Hex>)
    requires Staged(env, sign) && OnStage(env, sign, s, id) && s.gaiaCases == map[]
    requires s.pacts[id].openRails.Some? ==> paycardId == Some(s.pacts[id].openRails.value.paycardId)
    ensures var r := Step(env, s, ClaimOp(sign, id, paycardId), 0);
            && Continues(s, r, id, GaiaCaseOpened, None) && r.checkpoints == s.checkpoints
            && r.pacts[id] == s.pacts[id].(status := Disputed, revision := s.pacts[id].revision + 1)
  {
    hide Step, PactIntact;
    StageIntact(env, s.pacts[id], id);
    OpenGaiaCaseStep(env, s, ClaimOp(sign, id, paycardId), 0);
  }

  function CheckpointOf(id: string, termsHash: Hex): Checkpoint {
    Checkpoint("q", id, "w", "p", termsHash, None, "b", 1, true, "a", "a", 1)
  }

  function CheckpointOp(sign: Signer, id: string, termsHash: Hex): Op {
    OpSubmitCheckpoint(CheckpointOf(id, termsHash), sign(CheckpointMessage(CheckpointOf(id, termsHash)), "a"))
  }

  lemma CheckpointAccepted(env: Env, sign: Signer, s: State, id: string)
    requires Staged(env, sign) && OnStage(env, sign, s, id) && s.checkpoints == map[]
    requires s.pacts[id].status == Disputed && s.pacts[id].openRails.None?
    ensures var c := CheckpointOf(id, s.pacts[id].termsHash);
            SubmitCheckpointError(env, s, c, sign(CheckpointMessage(c), "a"), 0).None?
  {
    hide PactIntact;
    StageIntact(env, s.pacts[id], id);
    assert CheckpointIds(s, id) == {};
  }

  lemma CheckpointTaken(env: Env, sign: Signer, s: State, id: string)
    requires Staged(env, sign) && OnStage(env, sign, s, id) && s.checkpoints == map[]
    requires s.pacts[id].status == Disputed && s.pacts[id].openRails.None?
    ensures var r := Step(env, s, CheckpointOp(sign, id, s.pacts[id].termsHash), 0);
            && Continues(s, r, id, CheckpointSubmitted, None)
            && r.checkpoints == map["q" := CheckpointOf(id, s.pacts[id].termsHash)]
            && r.pacts[id] == s.pacts[id].(revision := s.pacts[id].revision + 1)
  {
    hide Step, SubmitCheckpointError;
    CheckpointAccepted(env, sign, s, id);
    SubmitCheckpointStep(env, s, CheckpointOp(sign, id, s.pacts[id].termsHash), 0);
  }

  function ApproveOp(): Op {
    OpVerifyCheckpoint("q", ("e", "1"), Some(Approved))
  }

  lemma VerdictAccepted(env: Env, sign: Signer, s: State, id: string)
    requires Staged(env, sign) && OnStage(env, sign, s, id)
    requires s.checkpoints == map["q" := CheckpointOf(id, s.pacts[id].termsHash)]
    ensures VerifyCheckpointError(env, s, "q", ("e", "1"), Some(Approved)).None?
  {
  }

  lemma CheckpointApproved(env: Env, sign: Signer, s: State, id: string)
    requires Staged(env, sign) && OnStage(env, sign, s, id)
    requires s.checkpoints == map["q" := CheckpointOf(id, s.pacts[id].termsHash)]
    ensures var r := Step(env, s, ApproveOp(), 0);
            && Continues(s, r, id, CheckpointVerified, None)
            && r.pacts[id] == s.pacts[id].(status := Completed, revision := s.pacts[id].revision + 1)
  {
    hide Step, VerifyCheckpointError;
    VerdictAccepted(env, sign, s, id);
    VerifyCheckpointStep(env, s, ApproveOp(), 0);
  }
}
