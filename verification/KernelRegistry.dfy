// What every run does to plugins and Agents: installed code never changes, and an Agent stands as it was last told.
module KernelRegistry {
  import opened Prelude
  import opened KernelTypes
  import opened Policy
  import opened KernelOps
  import opened KernelSafety
  import opened KernelFrames
  import opened KernelHistory

  // ---- Plugins -----------------------------------------------------------------------------------

  /** Every plugin stays installed, under the digest it was installed with. */
  ghost predicate DigestsKept(s: State, r: State) {
    forall key :: key in s.plugins ==> key in r.plugins && r.plugins[key].codeDigest == s.plugins[key].codeDigest
  }

  lemma InstallKeepsDigests(env: Env, s: State, op: Op, now: int)
    requires op.OpInstallPlugin?
    ensures DigestsKept(s, Step(env, s, op, now))
  {
    hide Step, CommandError;
    InstallPluginStep(env, s, op, now);
  }

  lemma RegistryKeepsPlugins(env: Env, s: State, op: Op, now: int)
    requires !ChangesPact(op) && !op.OpCreatePact? && !op.OpInstallPlugin?
    ensures Step(env, s, op, now).plugins == s.plugins
  {
    hide Step, RegisterWorkspaceError, RegisterAgentError, SetAgentStatusError, ActivatePathError, SubmitProposalError,
         AlreadySubmitted, SubmittedJob, AllowedNow, Evaluated, Assign;
    match op
    case OpRegisterWorkspace(_, _) => RegisterWorkspaceStep(env, s, op, now);
    case OpRegisterAgent(_, _, _) => RegisterAgentStep(env, s, op, now);
    case OpSetAgentStatus(_, _, _, _, _) => SetAgentStatusStep(env, s, op, now);
    case OpActivatePath(_, _) => ActivatePathStep(env, s, op, now);
    case OpSubmitProposal(_) => SubmitProposalStep(env, s, op, now);
    case OpRunJob(_, _) => RunJobStep(env, s, op, now);
    case _ =>
  }

  lemma StepKeepsDigests(env: Env, s: State, op: Op, now: int)
    ensures DigestsKept(s, Step(env, s, op, now))
  {
    hide Step, CreatePactError, NewPact, AllowedNow;
    if ChangesPact(op) { PactStepFrame(env, s, op, now); }
    else if op.OpCreatePact? { CreateStepFrame(env, s, op, now); }
    else if op.OpInstallPlugin? { InstallKeepsDigests(env, s, op, now); }
    else { RegistryKeepsPlugins(env, s, op, now); }
  }

  /** The plugin that a Pact names as its evidence policy is installed, with the digest the Pact names. */
  ghost predicate PolicyInstalled(s: State, t: PactTerms) {
    var key := (t.evidencePolicyId, t.evidencePolicyVersion);
    key in s.plugins && s.plugins[key].codeDigest == t.evidencePolicyCodeDigest
  }

  lemma NewPactPolicy(env: Env, s: State, r: PactRequest, now: int)
    requires CreatePactError(env, s, r, true).None?
    ensures PolicyInstalled(s, NewPact(env, s, r, now).terms)
  {
    hide FindPlugin, CurrentUsage, PositiveUnits;
  }

  lemma StepKeepsPolicy(env: Env, s: State, op: Op, now: int, id: string)
    requires id in s.pacts ==> PolicyInstalled(s, s.pacts[id].terms)
    requires id in Step(env, s, op, now).pacts
    ensures PolicyInstalled(Step(env, s, op, now), Step(env, s, op, now).pacts[id].terms)
  {
    hide Step, CreatePactError, NewPact, AllowedNow;
    StepKeepsDigests(env, s, op, now);
    if ChangesPact(op) {
      PactStepFrame(env, s, op, now);
    } else if op.OpCreatePact? {
      CreateStepFrame(env, s, op, now);
      if Step(env, s, op, now) != s { NewPactPolicy(env, s, op.request, now); }
    } else {
      RegistryStepFrame(env, s, op, now);
    }
  }

  /**
   * Between any two states of a run a plugin version keeps its code. So the plugin a Pact was created with is always
   * there under the Pact's digest, and no verification is ever refused because the installed digest changed.
   */
  lemma {:induction false} EvidencePolicyStays(env: Env, run: seq<Event>, id: string)
    requires id in Run(env, EMPTY_STATE, run).pacts
    ensures PolicyInstalled(Run(env, EMPTY_STATE, run), Run(env, EMPTY_STATE, run).pacts[id].terms)
    ensures forall checkpointId, key, verdict ::
              var s := Run(env, EMPTY_STATE, run);
              checkpointId in s.checkpoints && s.checkpoints[checkpointId].pactId == id ==>
                VerifyCheckpointError(env, s, checkpointId, key, verdict)
                != Some("Pact verification plugin digest changed")
  {
    hide Step, CreatePactError, AllowedNow;
    var last, earlier := run[|run| - 1], run[..|run| - 1];
    var s := Run(env, EMPTY_STATE, earlier);
    if id in s.pacts { EvidencePolicyStays(env, earlier, id); }
    StepKeepsPolicy(env, s, last.op, last.now, id);
  }

  lemma {:induction false} DigestsNeverChange(env: Env, s: State, run: seq<Event>)
    ensures DigestsKept(s, Run(env, s, run))
  {
    hide Step;
    if run != [] {
      var last, earlier := run[|run| - 1], run[..|run| - 1];
      DigestsNeverChange(env, s, earlier);
      StepKeepsDigests(env, Run(env, s, earlier), last.op, last.now);
    }
  }

  // ---- Agents ------------------------------------------------------------------------------------

  /** What the accepted calls of a run have told an Agent: how it was registered, then each status. */
  datatype Orders = Unknown | Known(registered: Agent, statuses: seq<AgentStatus>)

  ghost function OrdersOf(env: Env, run: seq<Event>, agentId: string): Orders {
    if run == [] then Unknown
    else
      var last, earlier := run[|run| - 1], run[..|run| - 1];
      Ordered(env, Run(env, EMPTY_STATE, earlier), OrdersOf(env, earlier, agentId), last.op, last.now, agentId)
  }

  ghost function Ordered(env: Env, s: State, orders: Orders, op: Op, now: int, agentId: string): Orders {
    match op
    case OpRegisterAgent(a, signer, sig) =>
      if a.agentId == agentId && RegisterAgentError(env, s, a, signer, sig).None? then Known(a, []) else orders
    case OpSetAgentStatus(w, a, status, c, sig) =>
      if a == agentId && orders.Known? && SetAgentStatusError(env, s, w, a, status, c, sig, now).None?
      then Known(orders.registered, orders.statuses + [status]) else orders
    case _ => orders
  }

  /** The Agent is as registered, apart from Path assignments, a status per order and a revision counting them. */
  ghost predicate Obeys(agents: map<string, Agent>, orders: Orders, agentId: string) {
    && (agentId in agents <==> orders.Known?)
    && (orders.Known? ==>
          var a, n := agents[agentId], |orders.statuses|;
          a == orders.registered.(status := if n == 0 then orders.registered.status else orders.statuses[n - 1],
                                  revision := orders.registered.revision + n, assignedPathIds := a.assignedPathIds))
  }

  lemma RegistrationObeyed(env: Env, s: State, orders: Orders, op: Op, now: int, agentId: string)
    requires op.OpRegisterAgent? && Obeys(s.agents, orders, agentId)
    ensures Obeys(Step(env, s, op, now).agents, Ordered(env, s, orders, op, now, agentId), agentId)
  {
    hide Step, SameText;
    RegisterAgentStep(env, s, op, now);
  }

  lemma StatusObeyed(env: Env, s: State, orders: Orders, op: Op, now: int, agentId: string)
    requires op.OpSetAgentStatus? && Obeys(s.agents, orders, agentId)
    ensures Obeys(Step(env, s, op, now).agents, Ordered(env, s, orders, op, now, agentId), agentId)
  {
    hide Step, SetAgentStatusError;
    SetAgentStatusStep(env, s, op, now);
  }

  lemma AssignmentObeyed(env: Env, s: State, orders: Orders, op: Op, now: int, agentId: string)
    requires op.OpActivatePath? && Obeys(s.agents, orders, agentId)
    ensures Obeys(Step(env, s, op, now).agents, orders, agentId)
  {
    hide Step, ActivatePathError;
    ActivatePathStep(env, s, op, now);
  }

  lemma OthersKeepAgents(env: Env, s: State, op: Op, now: int)
    requires !op.OpRegisterAgent? && !op.OpSetAgentStatus? && !op.OpActivatePath?
    ensures Step(env, s, op, now).agents == s.agents
  {
    hide Step, RegisterWorkspaceError, InstallPluginError, SubmitProposalError, CreatePactError, NewPact, AllowedNow,
         AlreadySubmitted, SubmittedJob, Evaluated, NextNonce;
    if ChangesPact(op) {
      PactStepFrame(env, s, op, now);
    } else {
      match op
      case OpRegisterWorkspace(_, _) => RegisterWorkspaceStep(env, s, op, now);
      case OpInstallPlugin(_, _, _, _) => InstallPluginStep(env, s, op, now);
      case OpSubmitProposal(_) => SubmitProposalStep(env, s, op, now);
      case OpRunJob(_, _) => RunJobStep(env, s, op, now);
      case OpCreatePact(_, _) => CreateStepFrame(env, s, op, now);
      case _ =>
    }
  }

  /** In every run an Agent is as it was registered and then told by accepted commands, one revision for each. */
  lemma {:induction false} AgentsObeyCommands(env: Env, run: seq<Event>, agentId: string)
    ensures Obeys(Run(env, EMPTY_STATE, run).agents, OrdersOf(env, run, agentId), agentId)
  {
    hide Step, Obeys, Ordered;
    if run == [] {
      NothingOrdered(agentId);
    } else {
      var last, earlier := run[|run| - 1], run[..|run| - 1];
      var s, orders := Run(env, EMPTY_STATE, earlier), OrdersOf(env, earlier, agentId);
      AgentsObeyCommands(env, earlier, agentId);
      if last.op.OpRegisterAgent? {
        RegistrationObeyed(env, s, orders, last.op, last.now, agentId);
      } else if last.op.OpSetAgentStatus? {
        StatusObeyed(env, s, orders, last.op, last.now, agentId);
      } else {
        NoOrder(env, s, orders, last.op, last.now, agentId);
        if last.op.OpActivatePath? {
          AssignmentObeyed(env, s, orders, last.op, last.now, agentId);
        } else {
          OthersKeepAgents(env, s, last.op, last.now);
        }
      }
    }
  }

  lemma NothingOrdered(agentId: string)
    ensures Obeys(EMPTY_STATE.agents, Unknown, agentId)
  {
  }

  lemma NoOrder(env: Env, s: State, orders: Orders, op: Op, now: int, agentId: string)
    requires !op.OpRegisterAgent? && !op.OpSetAgentStatus?
    ensures Ordered(env, s, orders, op, now, agentId) == orders
  {
  }

  // ---- Which Paths an Agent is assigned ----------------------------------------------------------

  /** One of these activations lists the Agent. */
  ghost predicate ListedIn(activations: seq<Path>, agentId: string) {
    exists i :: 0 <= i < |activations| && agentId in activations[i].authorizedAgentIds
  }

  /** The Agent is assigned the Path when it was registered so, or an activation of the Path listed it. */
  ghost predicate AssignedBy(s: State, orders: Orders, activations: seq<Path>, agentId: string, pathId: string) {
    && (agentId in s.agents <==> orders.Known?)
    && (ListedIn(activations, agentId) ==> orders.Known?)
    && (orders.Known? ==>
          (pathId in s.agents[agentId].assignedPathIds
           <==> pathId in orders.registered.assignedPathIds || ListedIn(activations, agentId)))
  }

  lemma ListedMore(activations: seq<Path>, path: Path, agentId: string)
    ensures ListedIn(activations + [path], agentId)
            <==> ListedIn(activations, agentId) || agentId in path.authorizedAgentIds
    ensures ListedIn(activations + [], agentId) <==> ListedIn(activations, agentId)
  {
    assert activations + [] == activations;
    if ListedIn(activations, agentId) {
      var i :| 0 <= i < |activations| && agentId in activations[i].authorizedAgentIds;
      assert (activations + [path])[i] == activations[i];
    }
    if agentId in path.authorizedAgentIds { assert (activations + [path])[|activations|] == path; }
  }

  lemma ActivationLists(env: Env, s: State, path: Path, signature: Signature, agentId: string)
    requires ActivatePathError(env, s, path, signature).None? && agentId in path.authorizedAgentIds
    ensures agentId in s.agents
  {
    hide PathWellFormed, SameText, ActiveOwner;
    var i :| 0 <= i < |path.authorizedAgentIds| && path.authorizedAgentIds[i] == agentId;
    assert ActiveAgentOf(s, path.authorizedAgentIds[i], path.workspaceId);
  }

  lemma ActivationAssigns(env: Env, s: State, path: Path, signature: Signature, orders: Orders,
                          activations: seq<Path>, agentId: string, pathId: string)
    requires ActivatePathError(env, s, path, signature).None?
    requires AssignedBy(s, orders, activations, agentId, pathId)
    ensures AssignedBy(ActivatePath(env, s, path, signature), orders,
                       activations + if path.pathId == pathId then [path] else [], agentId, pathId)
  {
    hide ActivatePathError, ListedIn;
    ListedMore(activations, path, agentId);
    if agentId in path.authorizedAgentIds { ActivationLists(env, s, path, signature, agentId); }
  }

  lemma NewAgentAssigned(env: Env, s: State, a: Agent, signer: Address, signature: Signature, orders: Orders,
                         activations: seq<Path>, agentId: string, pathId: string)
    requires RegisterAgentError(env, s, a, signer, signature).None?
    requires AssignedBy(s, orders, activations, agentId, pathId)
    ensures AssignedBy(s.(agents := s.agents[a.agentId := a]),
                       if a.agentId == agentId then Known(a, []) else orders, activations, agentId, pathId)
  {
    hide SameText, ListedIn;
  }

  lemma RegistrationAssigns(env: Env, s: State, op: Op, now: int, orders: Orders, activations: seq<Path>,
                            agentId: string, pathId: string)
    requires op.OpRegisterAgent? && AssignedBy(s, orders, activations, agentId, pathId)
    ensures AssignedBy(Step(env, s, op, now), Ordered(env, s, orders, op, now, agentId), activations, agentId, pathId)
  {
    hide Step, RegisterAgentError, AssignedBy;
    RegisterAgentStep(env, s, op, now);
    if RegisterAgentError(env, s, op.agent, op.signer, op.signature).None? {
      NewAgentAssigned(env, s, op.agent, op.signer, op.signature, orders, activations, agentId, pathId);
    }
  }

  lemma StatusAssigns(env: Env, s: State, op: Op, now: int, orders: Orders, activations: seq<Path>, agentId: string,
                      pathId: string)
    requires op.OpSetAgentStatus? && AssignedBy(s, orders, activations, agentId, pathId)
    ensures AssignedBy(Step(env, s, op, now), Ordered(env, s, orders, op, now, agentId), activations, agentId, pathId)
  {
    hide Step, SetAgentStatusError, ListedIn;
    SetAgentStatusStep(env, s, op, now);
  }

  /** In every run an Agent is assigned a Path exactly when it was registered so or an activation listed it. */
  lemma {:induction false} AssignmentsFollowActivations(env: Env, run: seq<Event>, agentId: string, pathId: string)
    ensures AssignedBy(Run(env, EMPTY_STATE, run), OrdersOf(env, run, agentId), Activations(env, run, pathId), agentId,
                       pathId)
  {
    hide Step, AssignedBy, Ordered, ActivatePathError, ActivatePath;
    if run == [] {
      NothingAssigned(agentId, pathId);
    } else {
      var last, earlier := run[|run| - 1], run[..|run| - 1];
      var s, orders := Run(env, EMPTY_STATE, earlier), OrdersOf(env, earlier, agentId);
      var activations := Activations(env, earlier, pathId);
      AssignmentsFollowActivations(env, earlier, agentId, pathId);
      assert activations + [] == activations;
      if last.op.OpRegisterAgent? {
        RegistrationAssigns(env, s, last.op, last.now, orders, activations, agentId, pathId);
      } else if last.op.OpSetAgentStatus? {
        StatusAssigns(env, s, last.op, last.now, orders, activations, agentId, pathId);
      } else {
        NoOrder(env, s, orders, last.op, last.now, agentId);
        if last.op.OpActivatePath? {
          ActivatePathStep(env, s, last.op, last.now);
          if ActivatePathError(env, s, last.op.path, last.op.signature).None? {
            ActivationAssigns(env, s, last.op.path, last.op.signature, orders, activations, agentId, pathId);
          }
        } else {
          OthersKeepAgents(env, s, last.op, last.now);
          SameAssignments(s, Step(env, s, last.op, last.now), orders, activations, agentId, pathId);
        }
      }
    }
  }

  lemma NothingAssigned(agentId: string, pathId: string)
    ensures AssignedBy(EMPTY_STATE, Unknown, [], agentId, pathId)
  {
  }

  lemma SameAssignments(s: State, r: State, orders: Orders, activations: seq<Path>, agentId: string, pathId: string)
    requires r.agents == s.agents && AssignedBy(s, orders, activations, agentId, pathId)
    ensures AssignedBy(r, orders, activations, agentId, pathId)
  {
  }
}
