// The signed commands of a Workspace: which ones a run accepts.
module KernelCommands {
  import opened Prelude
  import opened KernelTypes
  import opened Policy
  import opened KernelOps
  import opened KernelSafety
  import opened KernelFrames
  import opened KernelHistory
  import opened KernelStanding

  /**
   * The command is its Workspace's own: signed by the authority of the stored, active Workspace, for its revision and
   * its next nonce, and taken while it is valid: before it expires, at most 30 seconds before it is issued, and for a
   * lifetime of at most 15 minutes.
   */
  ghost predicate Commands(env: Env, s: State, c: Command, signature: Signature, nonce: nat, now: int) {
    && c.workspaceId in s.workspaces
    && var workspace := s.workspaces[c.workspaceId];
    && workspace.active && env.verify(CommandMessage(c), signature, workspace.authorityAccount)
    && c.workspaceRevision == workspace.revision && c.nonce == nonce
    && now < c.expiresAt && c.issuedAt <= now + 30 * 1000 && c.expiresAt - c.issuedAt <= 15 * 60 * 1000
  }

  lemma CommandGuard(env: Env, s: State, c: Command, signature: Signature, operation: Operation, payload: Payload,
                     now: int)
    ensures CommandError(env, s, c, signature, operation, payload, now).None?
            <==> && Commands(env, s, c, signature, NextNonce(s, c.workspaceId), now)
                 && c.operation == operation && c.payloadHash == env.hashPayload(payload)
  {
    hide NextNonce;
  }

  lemma StatusGuard(env: Env, s: State, op: Op, now: int)
    requires op.OpSetAgentStatus?
    ensures CallError(env, s, op, now).None?
            <==> && Commands(env, s, op.command, op.signature, NextNonce(s, op.command.workspaceId), now)
                 && op.command.operation == SetAgentStatusOperation
                 && op.command.payloadHash
                    == env.hashPayload(AgentStatusPayload(op.workspaceId, op.agentId, op.agentStatus))
                 && op.workspaceId == op.command.workspaceId
                 && op.agentId in s.agents && s.agents[op.agentId].workspaceId == op.workspaceId
  {
    hide CommandError, Commands, NextNonce;
    CommandGuard(env, s, op.command, op.signature, SetAgentStatusOperation,
                 AgentStatusPayload(op.workspaceId, op.agentId, op.agentStatus), now);
  }

  lemma InstallationGuard(env: Env, s: State, op: Op, now: int)
    requires op.OpInstallPlugin?
    ensures CallError(env, s, op, now).None?
            <==> && Commands(env, s, op.command, op.signature, NextNonce(s, op.command.workspaceId), now)
                 && op.command.operation == InstallPluginOperation
                 && op.command.payloadHash
                    == env.hashPayload(PluginPayload(op.command.workspaceId, op.key.0, op.key.1,
                                                     op.manifest.codeDigest))
                 && op.manifest.installedWorkspaceIds == [op.command.workspaceId]
                 && env.verify(PluginMessage(op.key.0, op.key.1, op.manifest.codeDigest, op.manifest.publisher),
                               op.manifest.publisherSignature, op.manifest.publisher)
                 && (op.key in s.plugins ==> s.plugins[op.key].codeDigest == op.manifest.codeDigest)
  {
    hide CommandError, Commands, NextNonce;
    if |op.manifest.installedWorkspaceIds| == 1 {
      CommandGuard(env, s, op.command, op.signature, InstallPluginOperation,
                   PluginPayload(op.manifest.installedWorkspaceIds[0], op.key.0, op.key.1, op.manifest.codeDigest),
                   now);
    }
  }

  lemma RulingGuard(env: Env, s: State, op: Op, now: int)
    requires op.OpResolveGaiaCase?
    requires op.caseId in s.gaiaCases ==> s.gaiaCases[op.caseId].pactId in s.pacts
    ensures CallError(env, s, op, now).None?
            <==> && Commands(env, s, op.command, op.signature, NextNonce(s, op.command.workspaceId), now)
                 && op.command.operation == ResolveGaiaOperation
                 && op.command.payloadHash == env.hashPayload(GaiaPayload(op.caseId, op.resolver, op.decision))
                 && op.caseId in s.gaiaCases && s.gaiaCases[op.caseId].workspaceId == op.command.workspaceId
                 && ResolvesFor(s.workspaces[op.command.workspaceId], op.resolver)
  {
    hide CommandError, NextNonce, Lower;
    CommandGuard(env, s, op.command, op.signature, ResolveGaiaOperation,
                 GaiaPayload(op.caseId, op.resolver, op.decision), now);
  }

  /** An active member with that address is an owner or a Gaia resolver. */
  ghost predicate ResolvesFor(workspace: Workspace, resolver: Address) {
    exists m :: m in workspace.members && m.active && (m.owner || m.gaiaResolver)
                && Lower(m.address) == Lower(resolver)
  }

  lemma CasesOfPacts(env: Env, run: seq<Event>, s: State)
    requires s == Run(env, EMPTY_STATE, run)
    ensures forall k :: k in s.gaiaCases ==> s.gaiaCases[k].pactId in s.pacts
  {
    hide Run, PactSound, Authoritative;
    RunSoundFromEmpty(env, run);
  }

  /**
   * In every run the calls that act for a Workspace are accepted exactly on a command of the Workspace's own, with the
   * next nonce after those accepted before, that names exactly what is done: the status of one of its Agents; a plugin
   * its publisher signed, installed in this Workspace alone and never under another digest; or the decision of a
   * resolving member on a case of the Workspace.
   */
  lemma CommandsAcceptedExactly(env: Env, run: seq<Event>, op: Op, now: int)
    requires CommandOf(op).Some?
    ensures var s, c := Run(env, EMPTY_STATE, run), CommandOf(op).value;
            CallError(env, s, op, now).None?
            <==> && c.workspaceId in s.workspaces
                 && var workspace := s.workspaces[c.workspaceId];
                 && workspace.active && env.verify(CommandMessage(c), op.signature, workspace.authorityAccount)
                 && c.workspaceRevision == workspace.revision
                 && c.nonce == |AcceptedCommands(env, run, c.workspaceId)|
                 && now < c.expiresAt && c.issuedAt <= now + 30 * 1000 && c.expiresAt - c.issuedAt <= 15 * 60 * 1000
                 && match op
                    case OpSetAgentStatus(workspaceId, agentId, status, _, _) =>
                      && c.operation == SetAgentStatusOperation && c.workspaceId == workspaceId
                      && c.payloadHash == env.hashPayload(AgentStatusPayload(workspaceId, agentId, status))
                      && agentId in s.agents && s.agents[agentId].workspaceId == workspaceId
                    case OpInstallPlugin(key, m, _, _) =>
                      && c.operation == InstallPluginOperation && m.installedWorkspaceIds == [c.workspaceId]
                      && c.payloadHash == env.hashPayload(PluginPayload(c.workspaceId, key.0, key.1, m.codeDigest))
                      && env.verify(PluginMessage(key.0, key.1, m.codeDigest, m.publisher), m.publisherSignature,
                                    m.publisher)
                      && (key in s.plugins ==> s.plugins[key].codeDigest == m.codeDigest)
                    case OpResolveGaiaCase(caseId, resolver, decision, _, _) =>
                      && c.operation == ResolveGaiaOperation
                      && c.payloadHash == env.hashPayload(GaiaPayload(caseId, resolver, decision))
                      && caseId in s.gaiaCases && s.gaiaCases[caseId].workspaceId == c.workspaceId
                      && exists m :: m in workspace.members && m.active && (m.owner || m.gaiaResolver)
                                     && Lower(m.address) == Lower(resolver)
  {
    hide Run, Step, CallError, NextNonce, Lower, NoDuplicates;
    var s, c := Run(env, EMPTY_STATE, run), CommandOf(op).value;
    CommandsNeverReplay(env, run, c.workspaceId);
    match op
    case OpSetAgentStatus(_, _, _, _, _) => StatusGuard(env, s, op, now);
    case OpInstallPlugin(_, _, _, _) => InstallationGuard(env, s, op, now);
    case OpResolveGaiaCase(_, _, _, _, _) =>
      CasesOfPacts(env, run, s);
      RulingGuard(env, s, op, now);
    case _ =>
  }

  // ---- All of a run's commands -------------------------------------------------------------------

  /** Some signature of the Workspace's authority verifies over the command, which names the Workspace's revision. */
  ghost predicate SignedFor(env: Env, s: State, workspaceId: string, c: Command) {
    && workspaceId in s.workspaces && s.workspaces[workspaceId].active
    && c.workspaceId == workspaceId && c.workspaceRevision == s.workspaces[workspaceId].revision
    && exists signature ::
         env.verify(CommandMessage(c), signature, s.workspaces[workspaceId].authorityAccount)
  }

  lemma AcceptedIsSigned(env: Env, s: State, op: Op, now: int, workspaceId: string)
    requires AcceptsCommand(env, s, op, now, workspaceId)
    requires forall k :: k in s.gaiaCases ==> s.gaiaCases[k].pactId in s.pacts
    ensures CommandOf(op).Some? && SignedFor(env, s, workspaceId, CommandOf(op).value)
  {
    hide NextNonce, SetAgentStatusError, InstallPluginError, ResolveGaiaCaseError;
    match op
    case OpSetAgentStatus(_, _, _, _, _) => StatusGuard(env, s, op, now);
    case OpInstallPlugin(_, _, _, _) => InstallationGuard(env, s, op, now);
    case OpResolveGaiaCase(_, _, _, _, _) => RulingGuard(env, s, op, now);
    case _ =>
  }

  lemma StillSigned(env: Env, s: State, r: State, workspaceId: string, c: Command)
    requires SignedFor(env, s, workspaceId, c) && RegistryKept(s, r)
    ensures SignedFor(env, r, workspaceId, c)
  {
  }

  ghost predicate AllSigned(env: Env, s: State, workspaceId: string, commands: seq<Command>) {
    forall i :: 0 <= i < |commands| ==> SignedFor(env, s, workspaceId, commands[i])
  }

  lemma AllStillSigned(env: Env, s: State, r: State, workspaceId: string, before: seq<Command>, more: seq<Command>)
    requires RegistryKept(s, r) && AllSigned(env, s, workspaceId, before) && AllSigned(env, s, workspaceId, more)
    ensures AllSigned(env, r, workspaceId, before + more)
  {
    hide SignedFor, RegistryKept;
    forall i | 0 <= i < |before + more|
      ensures SignedFor(env, r, workspaceId, (before + more)[i])
    {
      StillSigned(env, s, r, workspaceId, (before + more)[i]);
    }
  }

  /** Every command that a run accepted for a Workspace was signed by the authority of the Workspace, as stored. */
  lemma {:induction false} AcceptedCommandsAreSigned(env: Env, run: seq<Event>, workspaceId: string)
    ensures AllSigned(env, Run(env, EMPTY_STATE, run), workspaceId, AcceptedCommands(env, run, workspaceId))
  {
    hide Step, AcceptsCommand, SignedFor, RegistryKept;
    if run != [] {
      var last, earlier := run[|run| - 1], run[..|run| - 1];
      var s := Run(env, EMPTY_STATE, earlier);
      AcceptedCommandsAreSigned(env, earlier, workspaceId);
      StepKeepsRegistry(env, s, last.op, last.now);
      CasesOfPacts(env, earlier, s);
      var more := [];
      if AcceptsCommand(env, s, last.op, last.now, workspaceId) {
        AcceptedIsSigned(env, s, last.op, last.now, workspaceId);
        more := [CommandOf(last.op).value];
      }
      AllStillSigned(env, s, Step(env, s, last.op, last.now), workspaceId, AcceptedCommands(env, earlier, workspaceId),
                     more);
    }
  }
}
