// What every run of the kernel does to Paths and commands.
module KernelHistory {
  import opened Prelude
  import opened KernelTypes
  import opened Policy
  import opened KernelOps
  import opened KernelSafety
  import opened KernelFrames

  // ---- Path revisions ----------------------------------------------------------------------------

  ghost predicate Activates(env: Env, s: State, op: Op, pathId: string) {
    op.OpActivatePath? && op.path.pathId == pathId && ActivatePathError(env, s, op.path, op.signature).None?
  }

  /** The Paths activated under pathId by the accepted calls of a run, oldest first. */
  ghost function Activations(env: Env, run: seq<Event>, pathId: string): seq<Path> {
    if run == [] then []
    else
      var last, earlier := run[|run| - 1], run[..|run| - 1];
      Activations(env, earlier, pathId)
      + if Activates(env, Run(env, EMPTY_STATE, earlier), last.op, pathId) then [last.op.path] else []
  }

  /** Revisions 1, 2, ..., each naming the hash of the one before, under one Workspace, owner and authority. */
  ghost predicate IsRevisionChain(env: Env, h: seq<Path>, pathId: string) {
    && (forall i :: 0 <= i < |h| ==> h[i].pathId == pathId && h[i].revision == i + 1 && PathWellFormed(h[i]))
    && (forall i :: 0 < i < |h| ==>
          && h[i].previousPathHash == Some(env.hashPath(h[i - 1]))
          && h[i].workspaceId == h[0].workspaceId
          && SameText(h[i].owner, h[0].owner) && SameText(h[i].authorityAccount, h[0].authorityAccount))
  }

  /** The stored Path is the newest activation, with its hash; there is none before the first. */
  ghost predicate StoresNewest(env: Env, s: State, h: seq<Path>, pathId: string) {
    if h == [] then pathId !in s.paths
    else && pathId in s.paths && s.paths[pathId].artifact == h[|h| - 1]
         && s.paths[pathId].hash == env.hashPath(h[|h| - 1])
  }

  lemma ActivationExtendsChain(env: Env, s: State, h: seq<Path>, path: Path, signature: Signature)
    requires IsRevisionChain(env, h, path.pathId) && StoresNewest(env, s, h, path.pathId)
    requires ActivatePathError(env, s, path, signature).None?
    ensures IsRevisionChain(env, h + [path], path.pathId)
  {
    hide PathWellFormed, ActiveOwner, Lower;
    if h != [] {
      assert s.paths[path.pathId].artifact == h[|h| - 1];
      var more := h + [path];
      forall i | 0 < i < |more|
        ensures more[i].previousPathHash == Some(env.hashPath(more[i - 1]))
      {}
    }
  }

  /** In every run the activations of a Path form one revision chain, and the stored Path is its newest link. */
  lemma {:induction false} ActivationsFormChain(env: Env, run: seq<Event>, pathId: string)
    ensures IsRevisionChain(env, Activations(env, run, pathId), pathId)
    ensures StoresNewest(env, Run(env, EMPTY_STATE, run), Activations(env, run, pathId), pathId)
  {
    hide Step, PathWellFormed, SameText, ActivatePathError, ActivatePath;
    if run != [] {
      var last, earlier := run[|run| - 1], run[..|run| - 1];
      var s := Run(env, EMPTY_STATE, earlier);
      ActivationsFormChain(env, earlier, pathId);
      ActivationStep(env, s, last.op, last.now, pathId);
      if Activates(env, s, last.op, pathId) {
        ActivationExtendsChain(env, s, Activations(env, earlier, pathId), last.op.path, last.op.signature);
      }
    }
  }

  lemma PathsKeyedById(env: Env, run: seq<Event>)
    ensures forall pathId :: pathId in Run(env, EMPTY_STATE, run).paths ==>
              Run(env, EMPTY_STATE, run).paths[pathId].artifact.pathId == pathId
  {
    hide Step, Run, PathWellFormed;
    forall pathId | pathId in Run(env, EMPTY_STATE, run).paths
      ensures Run(env, EMPTY_STATE, run).paths[pathId].artifact.pathId == pathId
    {
      ActivationsFormChain(env, run, pathId);
    }
  }

  lemma ActivationStep(env: Env, s: State, op: Op, now: int, pathId: string)
    ensures var r := Step(env, s, op, now);
            if Activates(env, s, op, pathId) then
              pathId in r.paths && r.paths[pathId].artifact == op.path && r.paths[pathId].hash == env.hashPath(op.path)
            else
              (pathId in r.paths <==> pathId in s.paths)
              && (pathId in s.paths ==> r.paths[pathId] == s.paths[pathId])
  {
    hide Step, ActivatePathError, ActivatePath;
    if op.OpActivatePath? {
      ActivatePathStep(env, s, op, now);
      ActivatePathFrame(env, s, op.path, op.signature);
    } else {
      StepPaths(env, s, op, now);
    }
  }

  /** Every Pact names a link of its Path's chain, by revision and by hash. */
  lemma {:induction false} PactsNameTheirRevision(env: Env, run: seq<Event>, id: string)
    requires id in Run(env, EMPTY_STATE, run).pacts
    ensures var t := Run(env, EMPTY_STATE, run).pacts[id].terms;
            var h := Activations(env, run, t.pathId);
            1 <= t.pathRevision <= |h| && t.pathHash == env.hashPath(h[t.pathRevision - 1])
  {
    hide Step, CreatePactError, AllowedNow, PathWellFormed, SameText;
    if run != [] {
      var last, earlier := run[|run| - 1], run[..|run| - 1];
      var s := Run(env, EMPTY_STATE, earlier);
      PactOrigin(env, s, last.op, last.now, id);
      if id in s.pacts {
        PactsNameTheirRevision(env, earlier, id);
      } else {
        var pathId := Run(env, EMPTY_STATE, run).pacts[id].terms.pathId;
        ActivationsFormChain(env, earlier, pathId);
      }
    }
  }

  /** A Pact of the next state is an old one with its terms, or new and bound to the stored revision of its Path. */
  lemma PactOrigin(env: Env, s: State, op: Op, now: int, id: string)
    requires id in Step(env, s, op, now).pacts
    ensures var t := Step(env, s, op, now).pacts[id].terms;
            if id in s.pacts then t == s.pacts[id].terms
            else && op.OpCreatePact? && id == op.request.pactId
                 && t.pathId in s.paths && t.pathRevision == s.paths[t.pathId].artifact.revision
                 && t.pathHash == s.paths[t.pathId].hash
  {
    hide Step, AllowedNow;
    if ChangesPact(op) { PactStepFrame(env, s, op, now); }
    else if op.OpCreatePact? {
      CreateStepFrame(env, s, op, now);
      if Step(env, s, op, now) != s { NewPactBinding(env, s, op.request, now); }
    } else { RegistryStepFrame(env, s, op, now); }
  }

  lemma NewPactBinding(env: Env, s: State, r: PactRequest, now: int)
    requires CreatePactError(env, s, r, true).None?
    ensures r.pactId !in s.pacts
    ensures var pact := NewPact(env, s, r, now);
            && pact.terms.pactId == r.pactId && pact.status == AwaitingSignatures
            && pact.terms.pathId == s.proposals[r.proposalId].pathId && pact.terms.pathId in s.paths
            && pact.terms.pathRevision == s.paths[pact.terms.pathId].artifact.revision
            && pact.terms.pathHash == s.paths[pact.terms.pathId].hash
            && pact.terms.payment.maximumAllocation == s.proposals[r.proposalId].allocation
            && pact.terms.requiresCounterpartySignature == r.requiresCounterpartySignature
            && pact.terms.workspaceId in s.workspaces && pact.termsHash == env.hashTerms(pact.terms)
  {
    hide FindPlugin, CurrentUsage, Units, IsUnits;
  }

  /** The call prepares the Pact's payment or records its opening, and is accepted. */
  ghost predicate Pays(env: Env, s: State, op: Op, now: int, id: string) {
    match op
    case OpPreparePayment(pactId, q) => pactId == id && PreparePaymentError(env, s, id, q, now).None?
    case OpOpenPayment(pactId, m, card, tx, o) =>
      pactId == id && OpenPaymentError(env, s, id, m, card, tx, o, now).None?
    case _ => false
  }

  lemma PayingIsEligible(env: Env, s: State, op: Op, now: int, id: string)
    requires Pays(env, s, op, now, id)
    ensures id in s.pacts && Eligible(env, s, s.pacts[id], now)
  {
    hide Eligible, PreparePaymentError, OpenPaymentError;
    match op
    case OpPreparePayment(_, q) => PreparePaymentTarget(env, s, id, q, now);
    case OpOpenPayment(_, m, card, tx, o) => OpenPaymentTarget(env, s, id, m, card, tx, o, now);
    case _ =>
  }

  /**
   * A payment is prepared, prepared again or opened only while the Pact's Workspace and its Agent are active and its
   * Path is active, inside its validity window, and at exactly the revision and hash the Pact was created under, which
   * is then the newest link of its chain and still lists the Pact's Agent, action, asset and counterparty.
   */
  lemma PaidOnlyAtOwnRevision(env: Env, run: seq<Event>, e: Event, id: string)
    requires Pays(env, Run(env, EMPTY_STATE, run), e.op, e.now, id)
    ensures id in Run(env, EMPTY_STATE, run).pacts
    ensures var t := Run(env, EMPTY_STATE, run).pacts[id].terms;
            var h := Activations(env, run, t.pathId);
            && t.pathRevision == |h| && |h| > 0 && t.pathHash == env.hashPath(h[|h| - 1])
            && var path := h[|h| - 1];
            && path.status == PathActive && path.validFrom <= e.now < path.expiresAt
            && t.agentId in path.authorizedAgentIds && t.actionType in path.permittedActions
            && (exists i :: 0 <= i < |path.permittedAssets| && Lower(path.permittedAssets[i]) == Lower(t.payment.token))
            && (path.permittedCounterparties != [] ==>
                  exists i :: 0 <= i < |path.permittedCounterparties|
                              && Lower(path.permittedCounterparties[i]) == Lower(t.counterparty))
    ensures var s := Run(env, EMPTY_STATE, run);
            var t := s.pacts[id].terms;
            && t.workspaceId in s.workspaces && s.workspaces[t.workspaceId].active
            && t.agentId in s.agents && s.agents[t.agentId].status == AgentActive
            && s.agents[t.agentId].workspaceId == t.workspaceId
  {
    hide Step, Run, Pays, PathWellFormed, Lower, PactIntact;
    var s := Run(env, EMPTY_STATE, run);
    PayingIsEligible(env, s, e.op, e.now, id);
    ActivationsFormChain(env, run, s.pacts[id].terms.pathId);
  }

  /** No other call touches what a Pact's payment was prepared or opened with. */
  lemma BoundOnlyByPaying(env: Env, s: State, op: Op, now: int, id: string)
    requires id in s.pacts && !Pays(env, s, op, now, id)
    ensures var r := Step(env, s, op, now);
            id in r.pacts && PaymentBinding(r.pacts[id]) == PaymentBinding(s.pacts[id])
  {
    hide Step, CreatePactError, AllowedNow, PreparePaymentError, OpenPaymentError;
    if op.OpPreparePayment? {
      PreparationElsewhere(env, s, op, now, id);
    } else if op.OpOpenPayment? {
      OpeningElsewhere(env, s, op, now, id);
    } else if ChangesPact(op) {
      PactStepFrame(env, s, op, now);
    } else if op.OpCreatePact? {
      CreateStepFrame(env, s, op, now);
      if Step(env, s, op, now) != s { NewPactBinding(env, s, op.request, now); }
    } else {
      RegistryStepFrame(env, s, op, now);
    }
  }

  lemma PreparationElsewhere(env: Env, s: State, op: Op, now: int, id: string)
    requires op.OpPreparePayment? && id in s.pacts
    requires op.pactId == id ==> PreparePaymentError(env, s, id, op.preparation, now).Some?
    ensures var r := Step(env, s, op, now); id in r.pacts && r.pacts[id] == s.pacts[id]
  {
    hide Step, PreparePaymentError, PreparePayment, SameTerms, SameNonces;
    PreparePaymentStep(env, s, op, now);
    if op.pactId in s.pacts { PreparePaymentFrame(s, op.pactId, op.preparation, now); }
  }

  lemma OpeningElsewhere(env: Env, s: State, op: Op, now: int, id: string)
    requires op.OpOpenPayment? && id in s.pacts
    requires op.pactId == id ==>
               OpenPaymentError(env, s, id, op.metadataHash, op.paycardId, op.txHash, op.opening, now).Some?
    ensures var r := Step(env, s, op, now); id in r.pacts && r.pacts[id] == s.pacts[id]
  {
    hide Step, OpenPaymentError, OpenPayment, SameTerms, SameNonces;
    OpenPaymentStep(env, s, op, now);
    if op.pactId in s.pacts && s.pacts[op.pactId].openRails.Some? {
      OpenPaymentFrame(s, op.pactId, op.txHash, op.opening, now);
    }
  }

  // ---- Workspace commands ------------------------------------------------------------------------

  ghost predicate AcceptsCommand(env: Env, s: State, op: Op, now: int, workspaceId: string) {
    && CommandOf(op).Some? && CommandOf(op).value.workspaceId == workspaceId
    && match op
       case OpSetAgentStatus(w, a, status, c, sig) => SetAgentStatusError(env, s, w, a, status, c, sig, now).None?
       case OpInstallPlugin(key, m, c, sig) => InstallPluginError(env, s, key, m, c, sig, now).None?
       case OpResolveGaiaCase(id, r, d, c, sig) => ResolveGaiaCaseError(env, s, id, r, d, c, sig, now).None?
       case _ => false
  }

  /** The signed commands of a Workspace that the calls of a run were accepted with, oldest first. */
  ghost function AcceptedCommands(env: Env, run: seq<Event>, workspaceId: string): seq<Command> {
    if run == [] then []
    else
      var last, earlier := run[|run| - 1], run[..|run| - 1];
      AcceptedCommands(env, earlier, workspaceId)
      + if AcceptsCommand(env, Run(env, EMPTY_STATE, earlier), last.op, last.now, workspaceId)
        then [CommandOf(last.op).value] else []
  }

  lemma CommandNonce(env: Env, s: State, c: Command, signature: Signature, operation: Operation, payload: Payload,
                     now: int)
    requires CommandError(env, s, c, signature, operation, payload, now).None?
    ensures c.nonce == NextNonce(s, c.workspaceId)
  {}

  /** What a command does to the nonce of its Workspace, as a step from s to r. */
  ghost predicate NonceAdvances(s: State, r: State, op: Op, accepted: bool, workspaceId: string) {
    if accepted then
      && CommandOf(op).Some? && CommandOf(op).value.nonce == NextNonce(s, workspaceId)
      && NextNonce(r, workspaceId) == NextNonce(s, workspaceId) + 1
    else NextNonce(r, workspaceId) == NextNonce(s, workspaceId)
  }

  lemma UsedNonce(s: State, r: State, c: Command, workspaceId: string)
    requires UsesNonceOf(s, r, c)
    ensures NextNonce(r, workspaceId) == NextNonce(s, workspaceId) + if c.workspaceId == workspaceId then 1 else 0
  {
  }

  lemma SetAgentStatusNonce(env: Env, s: State, op: Op, now: int, workspaceId: string)
    requires op.OpSetAgentStatus?
    ensures NonceAdvances(s, Step(env, s, op, now), op, AcceptsCommand(env, s, op, now, workspaceId), workspaceId)
  {
    hide Step, CommandError, SetAgentStatus, NextNonce, UsesNonceOf, SamePacts, SameJobs;
    var c := op.command;
    SetAgentStatusStep(env, s, op, now);
    if SetAgentStatusError(env, s, op.workspaceId, op.agentId, op.agentStatus, c, op.signature, now).None? {
      CommandNonce(env, s, c, op.signature, SetAgentStatusOperation,
                   AgentStatusPayload(op.workspaceId, op.agentId, op.agentStatus), now);
      SetAgentStatusFrame(s, op.agentId, op.agentStatus, c);
      UsedNonce(s, Step(env, s, op, now), c, workspaceId);
    }
  }

  lemma InstallPluginTarget(env: Env, s: State, key: (string, string), m: Manifest, c: Command, signature: Signature,
                            now: int)
    requires InstallPluginError(env, s, key, m, c, signature, now).None?
    ensures |m.installedWorkspaceIds| == 1
    ensures CommandError(env, s, c, signature, InstallPluginOperation,
                         PluginPayload(m.installedWorkspaceIds[0], key.0, key.1, m.codeDigest), now).None?
  {
    hide CommandError;
  }

  lemma InstallPluginNonce(env: Env, s: State, op: Op, now: int, workspaceId: string)
    requires op.OpInstallPlugin?
    ensures NonceAdvances(s, Step(env, s, op, now), op, AcceptsCommand(env, s, op, now, workspaceId), workspaceId)
  {
    hide Step, CommandError, InstallPluginError, SamePacts, SameJobs, UseNonce, UsesNonceOf, NextNonce;
    InstallPluginStep(env, s, op, now);
    if InstallPluginError(env, s, op.key, op.manifest, op.command, op.signature, now).None? {
      InstallPluginTarget(env, s, op.key, op.manifest, op.command, op.signature, now);
      CommandNonce(env, s, op.command, op.signature, InstallPluginOperation,
                   PluginPayload(op.manifest.installedWorkspaceIds[0], op.key.0, op.key.1,
                                 op.manifest.codeDigest), now);
      InstallPluginFrame(s, op.key, op.manifest, op.command);
      UsedNonce(s, Step(env, s, op, now), op.command, workspaceId);
    }
  }

  lemma ResolveGaiaNonce(env: Env, s: State, op: Op, now: int, workspaceId: string)
    requires op.OpResolveGaiaCase?
    ensures NonceAdvances(s, Step(env, s, op, now), op, AcceptsCommand(env, s, op, now, workspaceId), workspaceId)
  {
    hide Step, CommandError, MayResolve, ResolveGaiaCase, SameTerms, SameBindings, LogsOne, NextNonce, UsesNonceOf;
    ResolveGaiaCaseStep(env, s, op, now);
    if ResolveGaiaCaseError(env, s, op.caseId, op.resolver, op.decision, op.command, op.signature, now).None? {
      CommandNonce(env, s, op.command, op.signature, ResolveGaiaOperation,
                   GaiaPayload(op.caseId, op.resolver, op.decision), now);
      ResolveGaiaCaseFrame(s, op.caseId, op.decision, op.command, now);
      UsedNonce(s, Step(env, s, op, now), op.command, workspaceId);
    }
  }

  lemma CommandStep(env: Env, s: State, op: Op, now: int, workspaceId: string)
    ensures NonceAdvances(s, Step(env, s, op, now), op, AcceptsCommand(env, s, op, now, workspaceId), workspaceId)
  {
    hide Step, SetAgentStatusError, InstallPluginError, ResolveGaiaCaseError, CreatePactError, AllowedNow;
    match op
    case OpSetAgentStatus(_, _, _, _, _) => SetAgentStatusNonce(env, s, op, now, workspaceId);
    case OpInstallPlugin(_, _, _, _) => InstallPluginNonce(env, s, op, now, workspaceId);
    case OpResolveGaiaCase(_, _, _, _, _) => ResolveGaiaNonce(env, s, op, now, workspaceId);
    case _ =>
      if ChangesPact(op) { PactStepFrame(env, s, op, now); }
      else if op.OpCreatePact? { CreateStepFrame(env, s, op, now); }
      else { RegistryStepFrame(env, s, op, now); }
  }

  /** The accepted commands of a Workspace carry the nonces 0, 1, 2, ... in order, so none is accepted twice. */
  lemma {:induction false} CommandsNeverReplay(env: Env, run: seq<Event>, workspaceId: string)
    ensures var accepted := AcceptedCommands(env, run, workspaceId);
            && NextNonce(Run(env, EMPTY_STATE, run), workspaceId) == |accepted|
            && (forall i :: 0 <= i < |accepted| ==> accepted[i].nonce == i)
            && NoDuplicates(accepted)
  {
    hide Step, AcceptsCommand;
    if run != [] {
      var last, earlier := run[|run| - 1], run[..|run| - 1];
      CommandsNeverReplay(env, earlier, workspaceId);
      CommandStep(env, Run(env, EMPTY_STATE, earlier), last.op, last.now, workspaceId);
      var accepted := AcceptedCommands(env, run, workspaceId);
      assert forall i :: 0 <= i < |accepted| ==> accepted[i].nonce == i;
    }
  }
}
