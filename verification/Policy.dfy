// The policy evaluator (agent-kernel/src/evaluator.ts): which reasons block a Proposal, and when none does.
module Policy {
  import opened Prelude
  import opened KernelTypes

  datatype Reason = WorkspaceInactive | AgentNotRegistered | AgentInactive | AgentNotAssigned | PathNotFound
                  | ActionNotRegistered | ActionDisabled | PathNotActive | PathNotYetValid | PathExpiredReason
                  | ActionNotAllowed | AuthorityInsufficient | AssetNotAllowed | PluginNotApproved
                  | InvalidAmount | InvalidDuration | PactLimitExceeded | ActiveExposureExceeded
                  | PeriodLimitExceeded | VelocityExceeded | DurationExceeded | ConcurrencyExceeded
                  | CounterpartyRequired | CounterpartyNotAllowed | CounterpartyNotVerified

  predicate ReservesExposure(status: PactStatus) {
    status in {Accepted, PaymentPrepared, AwaitingWallet, Active, Performing, Completed, Disputed,
               RectificationRequired}
  }

  predicate IsReserved(s: State, pathId: string, id: string) {
    id in s.pacts && s.pacts[id].terms.pathId == pathId && ReservesExposure(s.pacts[id].status)
  }

  function ActivePacts(s: State, pathId: string): seq<string> {
    Filter(s.pactIds, id => IsReserved(s, pathId, id))
  }

  function Allocation(s: State, id: string): nat {
    if id in s.pacts then Units(s.pacts[id].terms.payment.maximumAllocation) else 0
  }

  function ActiveExposure(s: State, pathId: string): nat {
    Sum(ActivePacts(s, pathId), id => Allocation(s, id))
  }

  predicate CountsForPeriod(s: State, path: Path, now: int, e: PactEvent) {
    && e.workspaceId == path.workspaceId
    && e.kind == PaymentOpenedCanonical
    && e.pactId in s.pacts && s.pacts[e.pactId].terms.pathId == path.pathId
    && e.at >= now - path.limits.periodSeconds * 1000
  }

  function EventAllocation(e: PactEvent): nat {
    if e.allocation.Some? then Units(e.allocation.value) else 0
  }

  function PeriodSpent(s: State, path: Path, now: int): nat {
    Sum(Filter(s.pactEvents, e => CountsForPeriod(s, path, now, e)), EventAllocation)
  }

  predicate RequirementMet(q: IdentityRequirement, identity: Identity)
    requires identity.Resolved?
  {
    && (q.dojang ==> identity.verified)
    && (q.needsName ==> identity.hasName)
    && (q.needsForwardMatch ==> identity.forwardMatches)
  }

  predicate IdentityRequired(path: Path) {
    exists i :: 0 <= i < |path.identityRequirements| && path.identityRequirements[i].required
  }

  predicate IdentityMet(path: Path, identity: Identity) {
    && identity.Resolved?
    && forall i :: 0 <= i < |path.identityRequirements| && path.identityRequirements[i].required ==>
         RequirementMet(path.identityRequirements[i], identity)
  }

  predicate Lists(addresses: seq<Address>, a: Address) {
    exists i :: 0 <= i < |addresses| && SameText(addresses[i], a)
  }

  predicate ApprovesPlugin(path: Path, pluginId: string) {
    exists i :: 0 <= i < |path.approvedPlugins| && path.approvedPlugins[i].0 == pluginId
  }

  /** What the Path already carries: the decision's policy snapshot. */
  datatype Usage = Usage(exposure: nat, spent: nat, activePacts: nat)

  function CurrentUsage(s: State, path: Path, now: int): Usage {
    Usage(ActiveExposure(s, path.pathId), PeriodSpent(s, path, now), |ActivePacts(s, path.pathId)|)
  }

  /** Whether a limit reason applies to a request; an amount that does not parse is compared as zero. */
  predicate LimitExceeded(r: Reason, limits: Limits, usage: Usage, allocation: nat, velocity: nat, duration: int) {
    match r
    case PactLimitExceeded => allocation > Units(limits.maxPerPact)
    case ActiveExposureExceeded => usage.exposure + allocation > Units(limits.maxActiveExposure)
    case PeriodLimitExceeded => usage.spent + allocation > Units(limits.maxPerPeriod)
    case VelocityExceeded => velocity > Units(limits.maxVelocity)
    case DurationExceeded => duration > limits.maxDurationSeconds
    case ConcurrencyExceeded => usage.activePacts >= limits.maxConcurrentPacts
    case _ => false
  }

  /** Whether the Path's standing or authority rules the request out. */
  predicate OutsideAuthority(r: Reason, env: Env, path: Path, p: Proposal, now: int) {
    match r
    case PathNotActive => path.status != PathActive
    case PathNotYetValid => path.validFrom > now
    case PathExpiredReason => path.expiresAt <= now
    case AgentNotAssigned => p.agentId !in path.authorizedAgentIds
    case ActionNotAllowed => p.actionType !in path.permittedActions
    case AuthorityInsufficient =>
      p.actionType in env.actions && path.authorityRank < env.actions[p.actionType].minimumRank
    case _ => false
  }

  /** Whether the request itself is malformed or asks for something the Path does not list. */
  predicate OutsideScope(r: Reason, path: Path, p: Proposal) {
    match r
    case AssetNotAllowed => !Lists(path.permittedAssets, p.asset)
    case PluginNotApproved => !ApprovesPlugin(path, p.evidencePolicyId)
    case InvalidAmount => !PositiveUnits(p.allocation) || !PositiveUnits(p.velocity)
    case InvalidDuration => p.durationSeconds <= 0
    case _ => false
  }

  predicate CounterpartyFails(r: Reason, path: Path, p: Proposal, identity: Identity) {
    match r
    case CounterpartyRequired =>
      p.counterparty.None? && (path.permittedCounterparties != [] || IdentityRequired(path))
    case CounterpartyNotAllowed =>
      && path.permittedCounterparties != [] && p.counterparty.Some?
      && !Lists(path.permittedCounterparties, p.counterparty.value)
    case CounterpartyNotVerified =>
      IdentityRequired(path) && p.counterparty.Some? && !IdentityMet(path, identity)
    case _ => false
  }

  /** Whether a reason that presupposes a known Path applies. */
  predicate AppliesToPath(r: Reason, env: Env, s: State, path: Path, p: Proposal, identity: Identity, now: int) {
    || OutsideAuthority(r, env, path, p, now)
    || OutsideScope(r, path, p)
    || LimitExceeded(r, path.limits, CurrentUsage(s, path, now), Units(p.allocation), Units(p.velocity),
                     p.durationSeconds)
    || CounterpartyFails(r, path, p, identity)
  }

  method Push(reasons: seq<Reason>, condition: bool, r: Reason) returns (result: seq<Reason>)
    ensures forall x :: x in result <==> x in reasons || (condition && x == r)
  {
    result := if condition then reasons + [r] else reasons;
  }

  method AuthorityReasons(env: Env, path: Path, p: Proposal, now: int) returns (reasons: seq<Reason>)
    ensures forall r :: r in reasons <==> OutsideAuthority(r, env, path, p, now)
    ensures PathNotActive in reasons <==> path.status != PathActive
    ensures PathNotYetValid in reasons <==> now < path.validFrom
    ensures PathExpiredReason in reasons <==> path.expiresAt <= now
    ensures AgentNotAssigned in reasons <==> p.agentId !in path.authorizedAgentIds
    ensures ActionNotAllowed in reasons <==> p.actionType !in path.permittedActions
    ensures AuthorityInsufficient in reasons
            <==> p.actionType in env.actions && path.authorityRank < env.actions[p.actionType].minimumRank
  {
    reasons := Push([], path.status != PathActive, PathNotActive);
    reasons := Push(reasons, path.validFrom > now, PathNotYetValid);
    reasons := Push(reasons, path.expiresAt <= now, PathExpiredReason);
    reasons := Push(reasons, p.agentId !in path.authorizedAgentIds, AgentNotAssigned);
    reasons := Push(reasons, p.actionType !in path.permittedActions, ActionNotAllowed);
    reasons := Push(reasons, p.actionType in env.actions
                             && path.authorityRank < env.actions[p.actionType].minimumRank, AuthorityInsufficient);
  }

  method ScopeReasons(path: Path, p: Proposal) returns (reasons: seq<Reason>)
    ensures forall r :: r in reasons <==> OutsideScope(r, path, p)
    ensures AssetNotAllowed in reasons
            <==> forall i :: 0 <= i < |path.permittedAssets| ==> Lower(path.permittedAssets[i]) != Lower(p.asset)
    ensures PluginNotApproved in reasons
            <==> forall i :: 0 <= i < |path.approvedPlugins| ==> path.approvedPlugins[i].0 != p.evidencePolicyId
    ensures InvalidAmount in reasons
            <==> !(IsUnits(p.allocation) && Units(p.allocation) > 0 && IsUnits(p.velocity) && Units(p.velocity) > 0)
    ensures InvalidDuration in reasons <==> p.durationSeconds <= 0
  {
    reasons := Push([], !Lists(path.permittedAssets, p.asset), AssetNotAllowed);
    reasons := Push(reasons, !ApprovesPlugin(path, p.evidencePolicyId), PluginNotApproved);
    reasons := Push(reasons, !PositiveUnits(p.allocation), InvalidAmount);
    reasons := Push(reasons, !PositiveUnits(p.velocity), InvalidAmount);
    reasons := Push(reasons, p.durationSeconds <= 0, InvalidDuration);
  }

  method LimitReasons(limits: Limits, usage: Usage, allocation: nat, velocity: nat, duration: int)
    returns (reasons: seq<Reason>)
    ensures forall r :: r in reasons <==> LimitExceeded(r, limits, usage, allocation, velocity, duration)
    ensures PactLimitExceeded in reasons <==> allocation > Units(limits.maxPerPact)
    ensures ActiveExposureExceeded in reasons <==> usage.exposure + allocation > Units(limits.maxActiveExposure)
    ensures PeriodLimitExceeded in reasons <==> usage.spent + allocation > Units(limits.maxPerPeriod)
    ensures VelocityExceeded in reasons <==> velocity > Units(limits.maxVelocity)
    ensures DurationExceeded in reasons <==> duration > limits.maxDurationSeconds
    ensures ConcurrencyExceeded in reasons <==> usage.activePacts >= limits.maxConcurrentPacts
  {
    hide Units;
    reasons := Push([], allocation > Units(limits.maxPerPact), PactLimitExceeded);
    reasons := Push(reasons, usage.exposure + allocation > Units(limits.maxActiveExposure), ActiveExposureExceeded);
    reasons := Push(reasons, usage.spent + allocation > Units(limits.maxPerPeriod), PeriodLimitExceeded);
    reasons := Push(reasons, velocity > Units(limits.maxVelocity), VelocityExceeded);
    reasons := Push(reasons, duration > limits.maxDurationSeconds, DurationExceeded);
    reasons := Push(reasons, usage.activePacts >= limits.maxConcurrentPacts, ConcurrencyExceeded);
  }

  /** The counterparty and identity checks: one reason per unmet requirement, or one when nothing resolved. */
  method CounterpartyReasons(path: Path, p: Proposal, identity: Identity) returns (reasons: seq<Reason>)
    ensures forall r :: r in reasons <==> CounterpartyFails(r, path, p, identity)
    ensures CounterpartyRequired in reasons
            <==> && p.counterparty.None?
                 && (path.permittedCounterparties != []
                     || exists q :: q in path.identityRequirements && q.required)
    ensures CounterpartyNotAllowed in reasons
            <==> && path.permittedCounterparties != [] && p.counterparty.Some?
                 && forall i :: 0 <= i < |path.permittedCounterparties| ==>
                      Lower(path.permittedCounterparties[i]) != Lower(p.counterparty.value)
    ensures CounterpartyNotVerified in reasons
            <==> && p.counterparty.Some?
                 && exists q :: q in path.identityRequirements && q.required
                                && !(&& identity.Resolved? && (q.dojang ==> identity.verified)
                                     && (q.needsName ==> identity.hasName)
                                     && (q.needsForwardMatch ==> identity.forwardMatches))
  {
    hide Lower;
    reasons := [];
    if path.permittedCounterparties != [] {
      reasons := Push(reasons, p.counterparty.None?, CounterpartyRequired);
      reasons := Push(reasons, p.counterparty.Some? && !Lists(path.permittedCounterparties, p.counterparty.value),
                      CounterpartyNotAllowed);
    }
    if IdentityRequired(path) {
      if p.counterparty.None? {
        reasons := reasons + [CounterpartyRequired];
      } else if !identity.Resolved? {
        reasons := reasons + [CounterpartyNotVerified];
      } else {
        ghost var before := reasons;
        for i := 0 to |path.identityRequirements|
          invariant forall r :: r in reasons <==>
                      || r in before
                      || (r == CounterpartyNotVerified &&
                          exists k :: 0 <= k < i && path.identityRequirements[k].required
                                      && !RequirementMet(path.identityRequirements[k], identity))
        {
          var q := path.identityRequirements[i];
          if q.required {
            reasons := Push(reasons, q.dojang && !identity.verified, CounterpartyNotVerified);
            reasons := Push(reasons, q.needsName && !identity.hasName, CounterpartyNotVerified);
            reasons := Push(reasons, q.needsForwardMatch && !identity.forwardMatches, CounterpartyNotVerified);
          }
        }
      }
    }
  }

  /** Whether a reason applies before the Path is consulted. */
  predicate AppliesBeforePath(r: Reason, env: Env, s: State, p: Proposal) {
    match r
    case WorkspaceInactive => p.workspaceId !in s.workspaces || !s.workspaces[p.workspaceId].active
    case AgentNotRegistered => p.agentId !in s.agents
    case AgentInactive => p.agentId in s.agents && s.agents[p.agentId].status != AgentActive
    case AgentNotAssigned => p.agentId in s.agents && p.pathId !in s.agents[p.agentId].assignedPathIds
    case PathNotFound => p.pathId !in s.paths
    case ActionNotRegistered => p.actionType !in env.actions
    case ActionDisabled => p.actionType in env.actions && !env.actions[p.actionType].enabled
    case _ => false
  }

  /** Whether reason r blocks Proposal p; identity is what the resolver answers for its counterparty. */
  predicate Applies(r: Reason, env: Env, s: State, p: Proposal, identity: Identity, now: int) {
    || AppliesBeforePath(r, env, s, p)
    || (p.pathId in s.paths && AppliesToPath(r, env, s, s.paths[p.pathId].artifact, p, identity, now))
  }

  /** The decision is ALLOW exactly when no reason applies. */
  ghost predicate Allowed(env: Env, s: State, p: Proposal, identity: Identity, now: int) {
    forall r: Reason :: !Applies(r, env, s, p, identity, now)
  }

  method StandingReasons(env: Env, s: State, p: Proposal) returns (reasons: seq<Reason>)
    ensures forall r :: r in reasons <==> AppliesBeforePath(r, env, s, p)
    ensures WorkspaceInactive in reasons <==> !(p.workspaceId in s.workspaces && s.workspaces[p.workspaceId].active)
    ensures AgentNotRegistered in reasons <==> p.agentId !in s.agents
    ensures AgentInactive in reasons <==> p.agentId in s.agents && s.agents[p.agentId].status != AgentActive
    ensures AgentNotAssigned in reasons
            <==> p.agentId in s.agents && p.pathId !in s.agents[p.agentId].assignedPathIds
    ensures PathNotFound in reasons <==> p.pathId !in s.paths
    ensures ActionNotRegistered in reasons <==> p.actionType !in env.actions
    ensures ActionDisabled in reasons <==> p.actionType in env.actions && !env.actions[p.actionType].enabled
  {
    reasons := Push([], p.workspaceId !in s.workspaces || !s.workspaces[p.workspaceId].active, WorkspaceInactive);
    if p.agentId !in s.agents {
      reasons := reasons + [AgentNotRegistered];
    } else {
      reasons := Push(reasons, s.agents[p.agentId].status != AgentActive, AgentInactive);
      reasons := Push(reasons, p.pathId !in s.agents[p.agentId].assignedPathIds, AgentNotAssigned);
    }
    reasons := Push(reasons, p.pathId !in s.paths, PathNotFound);
    if p.actionType !in env.actions {
      reasons := reasons + [ActionNotRegistered];
    } else {
      reasons := Push(reasons, !env.actions[p.actionType].enabled, ActionDisabled);
    }
  }

  /** evaluateProposal: the reported reasons are exactly those that apply, and the result is ALLOW iff none does. */
  method EvaluateProposal(env: Env, s: State, p: Proposal, identity: Identity, now: int)
    returns (reasons: seq<Reason>, allow: bool)
    ensures forall r :: r in reasons <==> Applies(r, env, s, p, identity, now)
    ensures allow <==> Allowed(env, s, p, identity, now)
  {
    reasons := StandingReasons(env, s, p);
    if p.pathId in s.paths {
      var path := s.paths[p.pathId].artifact;
      var usage := CurrentUsage(s, path, now);
      var authority := AuthorityReasons(env, path, p, now);
      var scope := ScopeReasons(path, p);
      var limits := LimitReasons(path.limits, usage, Units(p.allocation), Units(p.velocity), p.durationSeconds);
      var parties := CounterpartyReasons(path, p, identity);
      reasons := reasons + authority + scope + limits + parties;
    }
    allow := reasons == [];
    if reasons != [] {
      assert reasons[0] in reasons;
    }
  }

  // ---- What an ALLOW says ------------------------------------------------------------------------

  /** The request as it stands before its Path is looked at. */
  lemma StandingMeans(env: Env, s: State, p: Proposal)
    ensures (forall r: Reason :: !AppliesBeforePath(r, env, s, p))
            <==> && p.workspaceId in s.workspaces && s.workspaces[p.workspaceId].active
                 && p.agentId in s.agents && s.agents[p.agentId].status == AgentActive
                 && p.pathId in s.agents[p.agentId].assignedPathIds && p.pathId in s.paths
                 && p.actionType in env.actions && env.actions[p.actionType].enabled
  {
    if forall r: Reason :: !AppliesBeforePath(r, env, s, p) {
      assert !AppliesBeforePath(WorkspaceInactive, env, s, p) && !AppliesBeforePath(AgentNotRegistered, env, s, p)
             && !AppliesBeforePath(AgentInactive, env, s, p) && !AppliesBeforePath(AgentNotAssigned, env, s, p)
             && !AppliesBeforePath(PathNotFound, env, s, p) && !AppliesBeforePath(ActionNotRegistered, env, s, p)
             && !AppliesBeforePath(ActionDisabled, env, s, p);
    }
  }

  lemma AuthorityMeans(env: Env, path: Path, p: Proposal, now: int)
    requires p.actionType in env.actions
    ensures (forall r: Reason :: !OutsideAuthority(r, env, path, p, now))
            <==> && path.status == PathActive && path.validFrom <= now < path.expiresAt
                 && p.agentId in path.authorizedAgentIds && p.actionType in path.permittedActions
                 && env.actions[p.actionType].minimumRank <= path.authorityRank
  {
    if forall r: Reason :: !OutsideAuthority(r, env, path, p, now) {
      assert !OutsideAuthority(PathNotActive, env, path, p, now)
             && !OutsideAuthority(PathNotYetValid, env, path, p, now)
             && !OutsideAuthority(PathExpiredReason, env, path, p, now)
             && !OutsideAuthority(AgentNotAssigned, env, path, p, now)
             && !OutsideAuthority(ActionNotAllowed, env, path, p, now)
             && !OutsideAuthority(AuthorityInsufficient, env, path, p, now);
    }
  }

  lemma ScopeMeans(path: Path, p: Proposal)
    ensures (forall r: Reason :: !OutsideScope(r, path, p))
            <==> && (exists i :: 0 <= i < |path.permittedAssets| && Lower(path.permittedAssets[i]) == Lower(p.asset))
                 && (exists i :: 0 <= i < |path.approvedPlugins| && path.approvedPlugins[i].0 == p.evidencePolicyId)
                 && IsUnits(p.allocation) && Units(p.allocation) > 0 && IsUnits(p.velocity) && Units(p.velocity) > 0
                 && p.durationSeconds > 0
  {
    hide Lower, IsUnits, Units;
    if forall r: Reason :: !OutsideScope(r, path, p) {
      assert !OutsideScope(AssetNotAllowed, path, p) && !OutsideScope(PluginNotApproved, path, p)
             && !OutsideScope(InvalidAmount, path, p) && !OutsideScope(InvalidDuration, path, p);
    }
  }

  lemma LimitsMean(limits: Limits, usage: Usage, allocation: nat, velocity: nat, duration: int)
    ensures (forall r: Reason :: !LimitExceeded(r, limits, usage, allocation, velocity, duration))
            <==> && allocation <= Units(limits.maxPerPact) && velocity <= Units(limits.maxVelocity)
                 && duration <= limits.maxDurationSeconds
                 && usage.exposure + allocation <= Units(limits.maxActiveExposure)
                 && usage.spent + allocation <= Units(limits.maxPerPeriod)
                 && usage.activePacts < limits.maxConcurrentPacts
  {
    hide Units;
    if forall r: Reason :: !LimitExceeded(r, limits, usage, allocation, velocity, duration) {
      assert !LimitExceeded(PactLimitExceeded, limits, usage, allocation, velocity, duration)
             && !LimitExceeded(ActiveExposureExceeded, limits, usage, allocation, velocity, duration)
             && !LimitExceeded(PeriodLimitExceeded, limits, usage, allocation, velocity, duration)
             && !LimitExceeded(VelocityExceeded, limits, usage, allocation, velocity, duration)
             && !LimitExceeded(DurationExceeded, limits, usage, allocation, velocity, duration)
             && !LimitExceeded(ConcurrencyExceeded, limits, usage, allocation, velocity, duration);
    }
  }

  lemma PartiesMean(path: Path, p: Proposal, identity: Identity)
    ensures (forall r: Reason :: !CounterpartyFails(r, path, p, identity))
            <==> && (path.permittedCounterparties != [] ==>
                       && p.counterparty.Some?
                       && exists i :: 0 <= i < |path.permittedCounterparties|
                                      && Lower(path.permittedCounterparties[i]) == Lower(p.counterparty.value))
                 && (forall i :: 0 <= i < |path.identityRequirements| && path.identityRequirements[i].required ==>
                       && p.counterparty.Some? && identity.Resolved?
                       && (path.identityRequirements[i].dojang ==> identity.verified)
                       && (path.identityRequirements[i].needsName ==> identity.hasName)
                       && (path.identityRequirements[i].needsForwardMatch ==> identity.forwardMatches))
  {
    hide Lower;
    if forall r: Reason :: !CounterpartyFails(r, path, p, identity) {
      assert !CounterpartyFails(CounterpartyRequired, path, p, identity)
             && !CounterpartyFails(CounterpartyNotAllowed, path, p, identity)
             && !CounterpartyFails(CounterpartyNotVerified, path, p, identity);
    }
  }

  lemma KnownPath(env: Env, s: State, p: Proposal)
    requires !AppliesBeforePath(PathNotFound, env, s, p)
    ensures p.pathId in s.paths
  {
  }

  /** No reason applies before the Path is looked at and, where it is found, none afterwards. */
  lemma AllowedInParts(env: Env, s: State, p: Proposal, identity: Identity, now: int)
    ensures Allowed(env, s, p, identity, now)
            <==> && (forall r: Reason :: !AppliesBeforePath(r, env, s, p))
                 && p.pathId in s.paths
                 && var path := s.paths[p.pathId].artifact;
                 && (forall r: Reason :: !OutsideAuthority(r, env, path, p, now))
                 && (forall r: Reason :: !OutsideScope(r, path, p))
                 && (forall r: Reason ::
                       !LimitExceeded(r, path.limits, CurrentUsage(s, path, now), Units(p.allocation),
                                      Units(p.velocity), p.durationSeconds))
                 && (forall r: Reason :: !CounterpartyFails(r, path, p, identity))
  {
    hide AppliesBeforePath, OutsideAuthority, OutsideScope, LimitExceeded, CounterpartyFails, CurrentUsage, Units;
    if Allowed(env, s, p, identity, now) {
      assert !Applies(PathNotFound, env, s, p, identity, now);
      KnownPath(env, s, p);
      var path := s.paths[p.pathId].artifact;
      forall r: Reason
        ensures !AppliesBeforePath(r, env, s, p) && !OutsideAuthority(r, env, path, p, now)
        ensures !OutsideScope(r, path, p) && !CounterpartyFails(r, path, p, identity)
        ensures !LimitExceeded(r, path.limits, CurrentUsage(s, path, now), Units(p.allocation), Units(p.velocity),
                               p.durationSeconds)
      {
        assert !Applies(r, env, s, p, identity, now);
        assert !AppliesToPath(r, env, s, path, p, identity, now);
      }
    }
  }

  // ---- Attenuation -------------------------------------------------------------------------------

  /** The narrow limits grant no more than the wide ones. */
  predicate LimitsWithin(narrow: Limits, wide: Limits) {
    && Units(narrow.maxPerPact) <= Units(wide.maxPerPact)
    && Units(narrow.maxActiveExposure) <= Units(wide.maxActiveExposure)
    && Units(narrow.maxPerPeriod) <= Units(wide.maxPerPeriod)
    && Units(narrow.maxVelocity) <= Units(wide.maxVelocity)
    && narrow.maxDurationSeconds <= wide.maxDurationSeconds
    && narrow.maxConcurrentPacts <= wide.maxConcurrentPacts
    && narrow.periodSeconds >= wide.periodSeconds
  }

  /** Every list of addresses, agents, actions and plugins of the narrow Path is contained in the wide one's. */
  ghost predicate PathWithin(narrow: Path, wide: Path) {
    && narrow.pathId == wide.pathId && narrow.workspaceId == wide.workspaceId
    && LimitsWithin(narrow.limits, wide.limits)
    && (forall a :: a in narrow.authorizedAgentIds ==> a in wide.authorizedAgentIds)
    && (forall a :: a in narrow.permittedActions ==> a in wide.permittedActions)
    && (forall a :: a in narrow.permittedAssets ==> a in wide.permittedAssets)
    && (forall q :: q in narrow.approvedPlugins ==> q in wide.approvedPlugins)
    && (wide.permittedCounterparties == []
        || (narrow.permittedCounterparties != []
            && forall a :: a in narrow.permittedCounterparties ==> a in wide.permittedCounterparties))
    && (forall q :: q in wide.identityRequirements && q.required ==> q in narrow.identityRequirements)
    && narrow.authorityRank <= wide.authorityRank
    && narrow.validFrom >= wide.validFrom && narrow.expiresAt <= wide.expiresAt
    && (narrow.status == PathActive ==> wide.status == PathActive)
  }

  /** The busy state reserves every Pact that the quiet one does, knows all its Pacts and has logged all its events. */
  ghost predicate BusierOn(busy: State, quiet: State, pathId: string) {
    && NoDuplicates(quiet.pactIds)
    && (forall id :: id in ActivePacts(quiet, pathId) ==>
          id in ActivePacts(busy, pathId) && Allocation(quiet, id) <= Allocation(busy, id))
    && (forall id :: id in quiet.pacts ==>
          id in busy.pacts && busy.pacts[id].terms.pathId == quiet.pacts[id].terms.pathId)
    && multiset(quiet.pactEvents) <= multiset(busy.pactEvents)
  }

  /**
   * Attenuation: whatever is allowed under a narrower Path in a busier state stays allowed under the
   * wider Path in the quieter state; the registry, Workspace, Agent and identity answer being the same.
   */
  lemma Attenuation(env: Env, busy: State, quiet: State, p: Proposal, identity: Identity, now: int)
    requires p.pathId in busy.paths && p.pathId in quiet.paths
    requires p.workspaceId in busy.workspaces ==>
               p.workspaceId in quiet.workspaces && quiet.workspaces[p.workspaceId] == busy.workspaces[p.workspaceId]
    requires p.agentId in busy.agents ==>
               p.agentId in quiet.agents && quiet.agents[p.agentId] == busy.agents[p.agentId]
    requires PathWithin(busy.paths[p.pathId].artifact, quiet.paths[p.pathId].artifact)
    requires BusierOn(busy, quiet, busy.paths[p.pathId].artifact.pathId)
    requires Allowed(env, busy, p, identity, now)
    ensures Allowed(env, quiet, p, identity, now)
  {
    var narrow, wide := busy.paths[p.pathId].artifact, quiet.paths[p.pathId].artifact;
    ExposureShrinks(busy, quiet, narrow.pathId);
    SpendingShrinks(busy, quiet, narrow, wide, now);
    forall r: Reason
      ensures AppliesToPath(r, env, quiet, wide, p, identity, now) ==>
                AppliesToPath(r, env, busy, narrow, p, identity, now)
    {
      PathReasonShrinks(r, env, busy, quiet, narrow, wide, p, identity, now);
    }
    forall r: Reason
      ensures !Applies(r, env, quiet, p, identity, now)
    {
      assert !Applies(r, env, busy, p, identity, now);
      assert !Applies(WorkspaceInactive, env, busy, p, identity, now);
      assert !Applies(AgentNotRegistered, env, busy, p, identity, now);
    }
  }

  lemma PathReasonShrinks(r: Reason, env: Env, busy: State, quiet: State, narrow: Path, wide: Path,
                          p: Proposal, identity: Identity, now: int)
    requires PathWithin(narrow, wide)
    requires ActiveExposure(quiet, wide.pathId) <= ActiveExposure(busy, narrow.pathId)
    requires |ActivePacts(quiet, wide.pathId)| <= |ActivePacts(busy, narrow.pathId)|
    requires PeriodSpent(quiet, wide, now) <= PeriodSpent(busy, narrow, now)
    ensures AppliesToPath(r, env, quiet, wide, p, identity, now) ==>
              AppliesToPath(r, env, busy, narrow, p, identity, now)
  {
    ScopeShrinks(r, narrow, wide, p);
    PartiesShrink(r, narrow, wide, p, identity);
    assert OutsideAuthority(r, env, wide, p, now) ==> OutsideAuthority(r, env, narrow, p, now);
    UsageShrinks(r, narrow.limits, wide.limits, CurrentUsage(busy, narrow, now), CurrentUsage(quiet, wide, now),
                 Units(p.allocation), Units(p.velocity), p.durationSeconds);
  }

  lemma UsageShrinks(r: Reason, narrow: Limits, wide: Limits, busy: Usage, quiet: Usage,
                     allocation: nat, velocity: nat, duration: int)
    requires LimitsWithin(narrow, wide)
    requires quiet.exposure <= busy.exposure && quiet.spent <= busy.spent && quiet.activePacts <= busy.activePacts
    ensures LimitExceeded(r, wide, quiet, allocation, velocity, duration) ==>
              LimitExceeded(r, narrow, busy, allocation, velocity, duration)
  {}

  lemma ScopeShrinks(r: Reason, narrow: Path, wide: Path, p: Proposal)
    requires PathWithin(narrow, wide)
    ensures OutsideScope(r, wide, p) ==> OutsideScope(r, narrow, p)
  {
    if Lists(narrow.permittedAssets, p.asset) {
      ListsMore(narrow.permittedAssets, wide.permittedAssets, p.asset);
    }
    if ApprovesPlugin(narrow, p.evidencePolicyId) {
      var i :| 0 <= i < |narrow.approvedPlugins| && narrow.approvedPlugins[i].0 == p.evidencePolicyId;
      assert narrow.approvedPlugins[i] in narrow.approvedPlugins;
      var j :| 0 <= j < |wide.approvedPlugins| && wide.approvedPlugins[j] == narrow.approvedPlugins[i];
    }
  }

  lemma PartiesShrink(r: Reason, narrow: Path, wide: Path, p: Proposal, identity: Identity)
    requires PathWithin(narrow, wide)
    ensures CounterpartyFails(r, wide, p, identity) ==> CounterpartyFails(r, narrow, p, identity)
  {
    if && p.counterparty.Some? && narrow.permittedCounterparties != [] && wide.permittedCounterparties != []
       && Lists(narrow.permittedCounterparties, p.counterparty.value) {
      ListsMore(narrow.permittedCounterparties, wide.permittedCounterparties, p.counterparty.value);
    }
    if IdentityRequired(wide) {
      var i :| 0 <= i < |wide.identityRequirements| && wide.identityRequirements[i].required;
      RequirementKept(wide.identityRequirements[i], narrow, wide);
      if identity.Resolved? && !IdentityMet(wide, identity) {
        var k :| 0 <= k < |wide.identityRequirements| && wide.identityRequirements[k].required
                 && !RequirementMet(wide.identityRequirements[k], identity);
        RequirementKept(wide.identityRequirements[k], narrow, wide);
      }
    }
  }

  lemma RequirementKept(q: IdentityRequirement, narrow: Path, wide: Path)
    requires PathWithin(narrow, wide) && q in wide.identityRequirements && q.required
    ensures exists j :: 0 <= j < |narrow.identityRequirements| && narrow.identityRequirements[j] == q
    ensures IdentityRequired(narrow)
  {
    assert q in narrow.identityRequirements;
  }

  lemma ListsMore(few: seq<Address>, many: seq<Address>, a: Address)
    requires Lists(few, a) && forall x :: x in few ==> x in many
    ensures Lists(many, a)
  {
    var i :| 0 <= i < |few| && SameText(few[i], a);
    assert few[i] in few;
    var j :| 0 <= j < |many| && many[j] == few[i];
  }

  lemma ExposureShrinks(busy: State, quiet: State, pathId: string)
    requires BusierOn(busy, quiet, pathId)
    ensures ActiveExposure(quiet, pathId) <= ActiveExposure(busy, pathId)
    ensures |ActivePacts(quiet, pathId)| <= |ActivePacts(busy, pathId)|
  {
    FilterNoDuplicates(quiet.pactIds, id => IsReserved(quiet, pathId, id));
    SumWithin(ActivePacts(quiet, pathId), ActivePacts(busy, pathId), id => Allocation(quiet, id),
              id => Allocation(busy, id));
  }

  /** A longer period counts every payment that a shorter one does. */
  lemma SpendingShrinks(busy: State, quiet: State, narrow: Path, wide: Path, now: int)
    requires PathWithin(narrow, wide) && BusierOn(busy, quiet, narrow.pathId)
    ensures PeriodSpent(quiet, wide, now) <= PeriodSpent(busy, narrow, now)
  {
    var inQuiet := e => CountsForPeriod(quiet, wide, now, e);
    var inBusy := e => CountsForPeriod(busy, narrow, now, e);
    forall e: PactEvent | inQuiet(e)
      ensures inBusy(e)
    {}
    FilterSubmultiset(quiet.pactEvents, busy.pactEvents, inQuiet, inBusy);
    SumOfSubmultiset(Filter(quiet.pactEvents, inQuiet), Filter(busy.pactEvents, inBusy), EventAllocation);
  }

  lemma FilterSubmultiset<T(!new)>(few: seq<T>, many: seq<T>, p: T -> bool, q: T -> bool)
    requires multiset(few) <= multiset(many) && forall x :: p(x) ==> q(x)
    ensures multiset(Filter(few, p)) <= multiset(Filter(many, q))
  {
    forall x: T
      ensures multiset(Filter(few, p))[x] <= multiset(Filter(many, q))[x]
    {
      FilterCounts(few, p, x);
      FilterCounts(many, q, x);
    }
  }

  lemma {:induction false} FilterCounts<T(!new)>(s: seq<T>, keep: T -> bool, x: T)
    ensures multiset(Filter(s, keep))[x] == if keep(x) then multiset(s)[x] else 0
  {
    if s != [] {
      FilterCounts(s[1..], keep, x);
      assert s == [s[0]] + s[1..];
      assert multiset(s) == multiset{s[0]} + multiset(s[1..]);
      var kept := if keep(s[0]) then [s[0]] else [];
      assert multiset(kept + Filter(s[1..], keep)) == multiset(kept) + multiset(Filter(s[1..], keep));
    }
  }

  lemma {:induction false} FilterNoDuplicates<T(!new)>(s: seq<T>, keep: T -> bool)
    requires NoDuplicates(s)
    ensures NoDuplicates(Filter(s, keep))
  {
    if s != [] {
      FilterNoDuplicates(s[1..], keep);
      var rest := Filter(s[1..], keep);
      assert s[0] !in s[1..];
      assert forall j :: 0 <= j < |rest| ==> rest[j] in rest;
    }
  }

  lemma {:induction false} SumSplit<T>(a: seq<T>, b: seq<T>, w: T -> nat)
    ensures Sum(a + b, w) == Sum(a, w) + Sum(b, w)
  {
    if a == [] {
      assert a + b == b;
    } else {
      assert (a + b)[1..] == a[1..] + b;
      SumSplit(a[1..], b, w);
    }
  }

  lemma SumRemove<T>(s: seq<T>, i: nat, w: T -> nat)
    requires i < |s|
    ensures Sum(s, w) == w(s[i]) + Sum(s[..i] + s[i + 1..], w)
  {
    assert s == s[..i] + s[i..];
    SumSplit(s[..i], s[i..], w);
    SumSplit(s[..i], s[i + 1..], w);
  }

  lemma {:induction false} SumWithin<T(!new)>(few: seq<T>, many: seq<T>, v: T -> nat, w: T -> nat)
    requires NoDuplicates(few)
    requires forall x :: x in few ==> x in many && v(x) <= w(x)
    ensures |few| <= |many| && Sum(few, v) <= Sum(many, w)
  {
    if few != [] {
      assert few[0] in few;
      var i :| 0 <= i < |many| && many[i] == few[0];
      SumRemove(many, i, w);
      var rest := many[..i] + many[i + 1..];
      forall x | x in few[1..]
        ensures x in rest && v(x) <= w(x)
      {
        assert x in few && x != few[0];
        var j :| 0 <= j < |many| && many[j] == x;
        assert rest[if j < i then j else j - 1] == x;
      }
      SumWithin(few[1..], rest, v, w);
    }
  }

  lemma {:induction false} SumOfSubmultiset<T>(few: seq<T>, many: seq<T>, w: T -> nat)
    requires multiset(few) <= multiset(many)
    ensures Sum(few, w) <= Sum(many, w)
  {
    if few != [] {
      assert few == [few[0]] + few[1..];
      assert few[0] in multiset(few);
      var i :| 0 <= i < |many| && many[i] == few[0];
      SumRemove(many, i, w);
      assert many == many[..i] + [many[i]] + many[i + 1..];
      assert multiset(many[..i] + many[i + 1..]) == multiset(many) - multiset{many[i]};
      SumOfSubmultiset(few[1..], many[..i] + many[i + 1..], w);
    }
  }
}
