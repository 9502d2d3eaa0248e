// Runs that show that the kernel's results need their conditions: each breaks one condition at one step, and only
// that one, and ends beyond the exposure limit; and a run that completes a Pact that was never opened.
module KernelNecessity {
  import opened Prelude
  import opened KernelTypes
  import opened Policy
  import opened KernelOps
  import opened KernelSafety
  import opened KernelFrames
  import opened KernelExposure
  import opened KernelScenario
  import Cases = KernelCases
  import Witness = KernelWitness

  ghost predicate BeyondLimit(s: State, pathId: string) {
    pathId in s.paths && ActiveExposure(s, pathId) > Units(s.paths[pathId].artifact.limits.maxActiveExposure)
  }

  lemma DisciplinedMore(env: Env, run: seq<Event>, e: Event)
    requires DisciplinedRun(env, run)
    requires Disciplined(Run(env, EMPTY_STATE, run), e.op, Run(env, EMPTY_STATE, run + [e]))
    ensures DisciplinedRun(env, run + [e])
  {
    hide Step, Run, Disciplined;
    assert (run + [e])[..|run|] == run;
  }

  // ---- The stage ---------------------------------------------------------------------------------

  lemma QuietStep(s: State, op: Op, r: State)
    requires s.pacts == map[] && (s.paths == map[] || r.paths == s.paths)
    ensures Disciplined(s, op, r)
  {
    hide Units;
  }

  /** The next call of a run while there are no Pacts. */
  lemma QuietMore(env: Env, run: seq<Event>, op: Op)
    requires DisciplinedRun(env, run)
    requires var s := Run(env, EMPTY_STATE, run);
             s.pacts == map[] && (s.paths == map[] || Step(env, s, op, 0).paths == s.paths)
    ensures DisciplinedRun(env, run + [Event(op, 0)])
    ensures Run(env, EMPTY_STATE, run + [Event(op, 0)]) == Step(env, Run(env, EMPTY_STATE, run), op, 0)
  {
    hide Step, Run, Disciplined;
    RunMore(env, run, Event(op, 0));
    QuietStep(Run(env, EMPTY_STATE, run), op, Step(env, Run(env, EMPTY_STATE, run), op, 0));
    DisciplinedMore(env, run, Event(op, 0));
  }

  /** The stage is set by a disciplined run. */
  lemma StageSet(env: Env, sign: Signer)
    requires Staged(env, sign)
    ensures var s := Run(env, EMPTY_STATE, StageRun(env, sign)); Ready(env, sign, s, PathOf("2", 1, None)) && NoPacts(s)
    ensures DisciplinedRun(env, StageRun(env, sign))
  {
    hide Step, Staged, IdempotencyKey, RegisterWorkspaceOp, RegisterAgentOp, ActivateOp, InstallOp, ProposalOf;
    var path, r0: seq<Event> := PathOf("2", 1, None), [];
    assert Run(env, EMPTY_STATE, r0) == EMPTY_STATE && DisciplinedRun(env, r0);
    hide Run, DisciplinedRun, PathOf;
    var r1 := r0 + [Event(RegisterWorkspaceOp(sign), 0)];
    QuietMore(env, r0, RegisterWorkspaceOp(sign));
    WorkspaceRegistered(env, sign);
    var r2 := r1 + [Event(RegisterAgentOp(sign), 0)];
    QuietMore(env, r1, RegisterAgentOp(sign));
    AgentRegistered(env, sign, Run(env, EMPTY_STATE, r1));
    var r3 := r2 + [Event(ActivateOp(sign, path), 0)];
    QuietMore(env, r2, ActivateOp(sign, path));
    FirstActivated(env, sign, Run(env, EMPTY_STATE, r2));
    var r4 := r3 + [Event(InstallOp(env, sign), 0)];
    PluginInstalled(env, sign, Run(env, EMPTY_STATE, r3));
    QuietMore(env, r3, InstallOp(env, sign));
    var r5 := r4 + [Event(OpSubmitProposal(ProposalOf("1")), 0)];
    ProposalSubmitted(env, Run(env, EMPTY_STATE, r4), "1");
    QuietMore(env, r4, OpSubmitProposal(ProposalOf("1")));
    DistinctKeys();
    ProposalSubmitted(env, Run(env, EMPTY_STATE, r5), "2");
    QuietMore(env, r5, OpSubmitProposal(ProposalOf("2")));
    assert r1 == [Event(RegisterWorkspaceOp(sign), 0)];
  }

  lemma FirstActivated(env: Env, sign: Signer, s: State)
    requires Staged(env, sign) && s == EMPTY_STATE.(workspaces := map["w" := WORKSPACE], agents := map["g" := AGENT])
    ensures var r := Step(env, s, ActivateOp(sign, PathOf("2", 1, None)), 0);
            && r == s.(paths := r.paths, agents := r.agents) && Manned(env, sign, r, PathOf("2", 1, None))
            && r.workspaces == map["w" := WORKSPACE]
  {
    hide Step, Staged;
    PathActivated(env, sign, s, PathOf("2", 1, None));
  }

  // ---- One Pact ----------------------------------------------------------------------------------

  /** The stage with the one Pact "1" in the status, paid for as told, and nothing disputed or delivered. */
  ghost predicate Alone(env: Env, sign: Signer, s: State, status: PactStatus, payment: Option<OpenRails>) {
    && OnStage(env, sign, s, "1") && s.pactIds == ["1"] && s.pacts.Keys == {"1"}
    && s.pacts["1"].status == status && s.pacts["1"].openRails == payment
  }

  ghost predicate Unclaimed(s: State) {
    s.checkpoints == map[] && s.gaiaCases == map[]
  }

  lemma NobodyReserves(s: State, path: Path)
    requires NoPacts(s)
    ensures Room(s, path)
  {
  }

  function CreatedRun(env: Env, sign: Signer): seq<Event> {
    StageRun(env, sign) + [Event(CreateOp("1"), 0)]
  }

  /** The first Pact is created in a disciplined way. */
  lemma FirstCreated(env: Env, sign: Signer)
    requires Staged(env, sign)
    ensures var s := Run(env, EMPTY_STATE, CreatedRun(env, sign));
            && Alone(env, sign, s, AwaitingSignatures, None) && Unclaimed(s) && SignaturesOf(s, "1") == []
            && s.pactEvents == [PactEvent("1", "w", PactCreated, 0, None)]
    ensures DisciplinedRun(env, CreatedRun(env, sign))
  {
    hide Step, Run, Staged, StageRun, Room, DisciplinedRun, Disciplined;
    var s := Run(env, EMPTY_STATE, StageRun(env, sign));
    StageSet(env, sign);
    NobodyReserves(s, PathOf("2", 1, None));
    PactAdded(env, sign, s, "1");
    RunMore(env, StageRun(env, sign), Event(CreateOp("1"), 0));
    assert Disciplined(s, CreateOp("1"), Step(env, s, CreateOp("1"), 0)) by { QuietStep(s, CreateOp("1"),
                                                                             Step(env, s, CreateOp("1"), 0)); }
    DisciplinedMore(env, StageRun(env, sign), Event(CreateOp("1"), 0));
  }

  /** A step that leaves the registry and settled Pacts alone and creates nothing is disciplined. */
  lemma PactStepDisciplined(s: State, op: Op, r: State)
    requires SameRegistry(s, r) && !op.OpCreatePact? && SettledStays(s, r)
    ensures Disciplined(s, op, r)
  {
    hide Units;
  }

  /** The run goes on with one disciplined call on the Pact. */
  lemma GoesOn(env: Env, sign: Signer, run: seq<Event>, op: Op, kind: PactEventKind, allocation: Option<string>,
               status: PactStatus, payment: Option<OpenRails>)
    requires !op.OpCreatePact? && DisciplinedRun(env, run) && status != Settled
    requires var s := Run(env, EMPTY_STATE, run);
             Alone(env, sign, s, status, payment) && Continues(s, Step(env, s, op, 0), "1", kind, allocation)
    ensures var s, r := Run(env, EMPTY_STATE, run), Run(env, EMPTY_STATE, run + [Event(op, 0)]);
            && r == Step(env, s, op, 0)
            && Alone(env, sign, r, r.pacts["1"].status, r.pacts["1"].openRails)
    ensures DisciplinedRun(env, run + [Event(op, 0)])
  {
    hide Step, Run, StageTerms, Disciplined, DisciplinedRun;
    var s := Run(env, EMPTY_STATE, run);
    RunMore(env, run, Event(op, 0));
    assert SettledStays(s, Step(env, s, op, 0));
    PactStepDisciplined(s, op, Step(env, s, op, 0));
    DisciplinedMore(env, run, Event(op, 0));
  }

  /** A disciplined run on which a Pact is created, signed, prepared and opened. */
  lemma ActivePactReached(env: Env, sign: Signer) returns (run: seq<Event>)
    requires Staged(env, sign)
    ensures var s := Run(env, EMPTY_STATE, run);
            && Alone(env, sign, s, Active, Some(OpenRails("m", "c", 0, 0, 0, Some("x"), Some(Observed(env)), [])))
            && Unclaimed(s) && DisciplinedRun(env, run)
            && s.pactEvents == [PactEvent("1", "w", PactCreated, 0, None), PactEvent("1", "w", PactAccepted, 0, None),
                                PactEvent("1", "w", PaymentPreparedEvent, 0, Some("2")),
                                PactEvent("1", "w", PaymentOpenedCanonical, 0, Some("2"))]
  {
    hide Step, Run, Staged, DisciplinedRun, Ready, StageTerms, CreatedRun, Observed;
    run := CreatedRun(env, sign);
    FirstCreated(env, sign);
    var s := Run(env, EMPTY_STATE, run);
    var op := SignOp(s, sign, "1");
    PactSignedByOwner(env, sign, s, "1");
    GoesOn(env, sign, run, op, PactAccepted, None, AwaitingSignatures, None);
    run := run + [Event(op, 0)];
    var s1 := Run(env, EMPTY_STATE, run);
    PaymentReady(env, sign, s1, "1");
    CasesStay(env, s1, PrepareOp("1"));
    GoesOn(env, sign, run, PrepareOp("1"), PaymentPreparedEvent, Some("2"), Accepted, None);
    run := run + [Event(PrepareOp("1"), 0)];
    var s2 := Run(env, EMPTY_STATE, run);
    PaymentOpen(env, sign, s2, "1");
    CasesStay(env, s2, OpenOp(env, "1"));
    GoesOn(env, sign, run, OpenOp(env, "1"), PaymentOpenedCanonical, Some("2"), PaymentPrepared,
           s2.pacts["1"].openRails);
    run := run + [Event(OpenOp(env, "1"), 0)];
  }

  lemma CasesStay(env: Env, s: State, op: Op)
    requires op.OpPreparePayment? || op.OpOpenPayment? || op.OpSignPact? || op.OpRecordSettlement?
    ensures Unclaimed(s) ==> Unclaimed(Step(env, s, op, 0))
  {
    hide Step;
    Cases.CasesFrame(env, s, op, 0);
  }

  /**
   * A run that ends with a completed Pact without an opening: a Gaia case disputes the Pact while it awaits
   * signatures, a checkpoint is accepted on the disputed Pact, and the plugin approves it.
   */
  lemma CompletedWithoutOpening(env: Env, sign: Signer) returns (run: seq<Event>)
    requires Staged(env, sign)
    ensures var pacts := Run(env, EMPTY_STATE, run).pacts;
            "1" in pacts && pacts["1"].status == Completed && !HasOpening(pacts["1"])
  {
    hide Step, Run, Staged, DisciplinedRun, Ready, StageTerms, CreatedRun;
    run := CreatedRun(env, sign);
    FirstCreated(env, sign);
    var s := Run(env, EMPTY_STATE, run);
    PactDisputed(env, sign, s, "1", None);
    GoesOn(env, sign, run, ClaimOp(sign, "1", None), GaiaCaseOpened, None, AwaitingSignatures, None);
    run := run + [Event(ClaimOp(sign, "1", None), 0)];
    var s1 := Run(env, EMPTY_STATE, run);
    var op := CheckpointOp(sign, "1", s1.pacts["1"].termsHash);
    CheckpointTaken(env, sign, s1, "1");
    GoesOn(env, sign, run, op, CheckpointSubmitted, None, Disputed, None);
    run := run + [Event(op, 0)];
    CheckpointApproved(env, sign, Run(env, EMPTY_STATE, run), "1");
    GoesOn(env, sign, run, ApproveOp(), CheckpointVerified, None, Disputed, None);
    run := run + [Event(ApproveOp(), 0)];
  }

  // ---- Limits lowered ----------------------------------------------------------------------------

  lemma NothingReservedYet(env: Env, sign: Signer, s: State)
    requires Alone(env, sign, s, AwaitingSignatures, None)
    ensures ActiveExposure(s, "p") == 0
  {
    hide Units, OnStage;
    ReservedOne(s, "1", "p");
  }

  lemma StageAllocation(env: Env, sign: Signer, s: State, id: string)
    requires OnStage(env, sign, s, id)
    ensures Allocation(s, id) == 2 && s.pacts[id].terms.pathId == "p"
  {
    hide Units, Ready;
    StageUnits();
  }

  /** The run that creates the Pact and signs it reserves the Path's whole limit. */
  lemma SignedReserves(env: Env, sign: Signer) returns (run: seq<Event>)
    requires Staged(env, sign)
    ensures var s := Run(env, EMPTY_STATE, run);
            Alone(env, sign, s, Accepted, None) && ActiveExposure(s, "p") == 2 && DisciplinedRun(env, run)
  {
    hide Step, Run, Staged, DisciplinedRun, Ready, StageTerms, CreatedRun, ActiveExposure, Allocation;
    FirstCreated(env, sign);
    var s := Run(env, EMPTY_STATE, CreatedRun(env, sign));
    var op := SignOp(s, sign, "1");
    PactSignedByOwner(env, sign, s, "1");
    GoesOn(env, sign, CreatedRun(env, sign), op, PactAccepted, None, AwaitingSignatures, None);
    NothingReservedYet(env, sign, s);
    StageAllocation(env, sign, s, "1");
    Witness.AcceptanceKeepsLimit(env, CreatedRun(env, sign), op, 0, "1", 2);
    run := CreatedRun(env, sign) + [Event(op, 0)];
  }

  lemma LoweredPath(env: Env, sign: Signer, s: State) returns (path: Path)
    requires Staged(env, sign) && Alone(env, sign, s, Accepted, None)
    ensures var r := Step(env, s, ActivateOp(sign, path), 0);
            && SamePacts(s, r) && "p" in r.paths && r.paths["p"].artifact.limits.maxActiveExposure == "1"
  {
    hide Step, Staged, StageTerms, ActivatePathError;
    path := PathOf("1", 2, Some(s.paths["p"].hash));
    PathActivated(env, sign, s, path);
    RegistryStepFrame(env, s, ActivateOp(sign, path), 0);
  }

  /** A revision that lowers the limit below what is reserved: the only step that is not disciplined. */
  lemma LimitConditionNeeded(env: Env, sign: Signer) returns (run: seq<Event>, last: Event)
    requires Staged(env, sign)
    ensures DisciplinedRun(env, run)
    ensures var s, r := Run(env, EMPTY_STATE, run), Run(env, EMPTY_STATE, run + [last]);
            && SettledStays(s, r) && CreatesAlone(s, last.op) && !LimitsKept(s, r) && BeyondLimit(r, "p")
  {
    hide Step, Run, Staged, DisciplinedRun, StageTerms, ActiveExposure, Units, IsUnits;
    run := SignedReserves(env, sign);
    var s := Run(env, EMPTY_STATE, run);
    var path := LoweredPath(env, sign, s);
    last := Event(ActivateOp(sign, path), 0);
    RunMore(env, run, last);
    StageUnits();
    SameExposure(s, Run(env, EMPTY_STATE, run + [last]));
  }

  lemma SameExposure(s: State, r: State)
    requires SamePacts(s, r)
    ensures ActiveExposure(r, "p") == ActiveExposure(s, "p")
  {
    hide Units;
    Witness.SameReserved(s, r, s.pactIds, "p");
  }

  // ---- Created while another awaits signatures ---------------------------------------------------

  /** The stage with both Pacts. */
  ghost predicate Pair(env: Env, sign: Signer, s: State, first: PactStatus, second: PactStatus) {
    && OnStage(env, sign, s, "1") && OnStage(env, sign, s, "2") && s.pactIds == ["1", "2"] && s.pacts.Keys == {"1", "2"}
    && s.pacts["1"].status == first && s.pacts["2"].status == second
  }

  /** Neither a Pact that awaits signatures nor a settled one takes room. */
  lemma RoomBeside(s: State, path: Path)
    requires s.pactIds == ["1"] && "1" in s.pacts && s.pacts["1"].status in {AwaitingSignatures, Settled}
    requires PeriodSpent(s, path, 0) <= 7
    ensures Room(s, path)
  {
    hide Units, PeriodSpent;
    ReservedOne(s, "1", "p");
  }

  lemma SpentMore(s: State, events: seq<PactEvent>, e: PactEvent, path: Path)
    ensures Sum(Filter(events + [e], x => CountsForPeriod(s, path, 0, x)), EventAllocation)
            == Sum(Filter(events, x => CountsForPeriod(s, path, 0, x)), EventAllocation)
               + if CountsForPeriod(s, path, 0, e) then EventAllocation(e) else 0
  {
    hide Units, CountsForPeriod;
    var counts := x => CountsForPeriod(s, path, 0, x);
    FilterSplit(events, [e], counts);
    SumSplit(Filter(events, counts), Filter([e], counts), EventAllocation);
    assert [e][1..] == [];
    assert Filter([e], counts) == if counts(e) then [e] else [];
  }

  lemma NothingSpent(s: State, path: Path)
    requires s.pactEvents == [PactEvent("1", "w", PactCreated, 0, None)]
    ensures PeriodSpent(s, path, 0) == 0
  {
    SpentMore(s, [], s.pactEvents[0], path);
    assert [] + [s.pactEvents[0]] == s.pactEvents;
  }

  /** The second Pact joins the first, which takes no room. */
  lemma SecondAdded(env: Env, sign: Signer, s: State, status: PactStatus)
    requires Staged(env, sign) && OnStage(env, sign, s, "1") && s.pactIds == ["1"] && s.pacts.Keys == {"1"}
    requires s.pacts["1"].status == status && status in {AwaitingSignatures, Settled}
    requires PeriodSpent(s, PathOf("2", 1, None), 0) <= 7
    ensures var r := Step(env, s, CreateOp("2"), 0);
            && Pair(env, sign, r, status, AwaitingSignatures) && SameRegistry(s, r) && ActiveExposure(r, "p") == 0
            && r.pacts["1"] == s.pacts["1"] && r.gaiaCases == s.gaiaCases && SignaturesOf(r, "2") == []
            && SignaturesOf(r, "1") == SignaturesOf(s, "1")
  {
    hide Step, Staged, StageTerms, PeriodSpent, ActiveExposure, ActivePacts;
    RoomBeside(s, PathOf("2", 1, None));
    PactAdded(env, sign, s, "2");
    Witness.ListedPact(s, Step(env, s, CreateOp("2"), 0), "2", "p");
  }

  lemma OneOfTwoSigned(env: Env, sign: Signer, s: State, id: string, first: PactStatus, second: PactStatus)
    requires Staged(env, sign) && Pair(env, sign, s, first, second) && id in {"1", "2"}
    requires s.pacts[id].status == AwaitingSignatures && SignaturesOf(s, id) == []
    ensures var r := Step(env, s, SignOp(s, sign, id), 0);
            && Pair(env, sign, r, if id == "1" then Accepted else first, if id == "2" then Accepted else second)
            && r.gaiaCases == s.gaiaCases && Disciplined(s, SignOp(s, sign, id), r)
            && (forall k :: k in s.pacts && k != id ==> r.pacts[k] == s.pacts[k])
            && (forall k :: k != id ==> SignaturesOf(r, k) == SignaturesOf(s, k))
  {
    hide Step, Staged, StageTerms, Disciplined;
    PactSignedByOwner(env, sign, s, id);
    var r := Step(env, s, SignOp(s, sign, id), 0);
    assert SettledStays(s, r);
    PactStepDisciplined(s, SignOp(s, sign, id), r);
  }

  /** Signing one of the two reserves its allocation. */
  lemma SigningReserves(env: Env, sign: Signer, run: seq<Event>, id: string, first: PactStatus, second: PactStatus)
    requires var s := Run(env, EMPTY_STATE, run);
             && Staged(env, sign) && Pair(env, sign, s, first, second) && id in {"1", "2"}
             && s.pacts[id].status == AwaitingSignatures && SignaturesOf(s, id) == []
    ensures var s := Run(env, EMPTY_STATE, run);
            ActiveExposure(Step(env, s, SignOp(s, sign, id), 0), "p") == ActiveExposure(s, "p") + 2
  {
    hide Step, Run, Staged, Ready, StageTerms, ActiveExposure, Allocation;
    var s := Run(env, EMPTY_STATE, run);
    OneOfTwoSigned(env, sign, s, id, first, second);
    StageAllocation(env, sign, s, id);
    Witness.AcceptanceKeepsLimit(env, run, SignOp(s, sign, id), 0, id, 2);
  }

  /** Two Pacts that both await signatures are signed, in a disciplined way, and add up. */
  lemma BothAccepted(env: Env, sign: Signer, run: seq<Event>) returns (first: Event, second: Event)
    requires var s := Run(env, EMPTY_STATE, run);
             && Staged(env, sign) && Pair(env, sign, s, AwaitingSignatures, AwaitingSignatures)
             && SignaturesOf(s, "1") == [] && SignaturesOf(s, "2") == [] && ActiveExposure(s, "p") == 0
    ensures var s, s1 := Run(env, EMPTY_STATE, run), Run(env, EMPTY_STATE, run + [first]);
            var s2 := Run(env, EMPTY_STATE, run + [first] + [second]);
            && Disciplined(s, first.op, s1) && Disciplined(s1, second.op, s2)
            && Pair(env, sign, s2, Accepted, Accepted) && ActiveExposure(s2, "p") == 4
  {
    hide Step, Run, Staged, OnStage, ActiveExposure, Disciplined;
    var s := Run(env, EMPTY_STATE, run);
    OneOfTwoSigned(env, sign, s, "1", AwaitingSignatures, AwaitingSignatures);
    SigningReserves(env, sign, run, "1", AwaitingSignatures, AwaitingSignatures);
    first := Event(SignOp(s, sign, "1"), 0);
    RunMore(env, run, first);
    var s1 := Run(env, EMPTY_STATE, run + [first]);
    OneOfTwoSigned(env, sign, s1, "2", Accepted, AwaitingSignatures);
    SigningReserves(env, sign, run + [first], "2", Accepted, AwaitingSignatures);
    second := Event(SignOp(s1, sign, "2"), 0);
    RunMore(env, run + [first], second);
  }

  lemma StageLimit(env: Env, sign: Signer, s: State, id: string)
    requires OnStage(env, sign, s, id)
    ensures "p" in s.paths && Units(s.paths["p"].artifact.limits.maxActiveExposure) == 2
  {
    hide Units, IsUnits, StageTerms;
    StageUnits();
  }

  lemma NotAlone(env: Env, sign: Signer, s: State, r: State)
    requires Alone(env, sign, s, AwaitingSignatures, None) && SameRegistry(s, r) && "1" in r.pacts
    ensures LimitsKept(s, r) && SettledStays(s, r) && !CreatesAlone(s, CreateOp("2"))
  {
    hide Units;
  }

  /**
   * A Pact created while another awaits signatures, the only step that is not disciplined; both are then signed and
   * together exceed the limit.
   */
  lemma SignatureConditionNeeded(env: Env, sign: Signer)
    returns (run: seq<Event>, create: Event, first: Event, second: Event)
    requires Staged(env, sign)
    ensures DisciplinedRun(env, run)
    ensures var s, s2 := Run(env, EMPTY_STATE, run), Run(env, EMPTY_STATE, run + [create]);
            var s3 := Run(env, EMPTY_STATE, run + [create] + [first]);
            var s4 := Run(env, EMPTY_STATE, run + [create] + [first] + [second]);
            && LimitsKept(s, s2) && SettledStays(s, s2) && !CreatesAlone(s, create.op)
            && Disciplined(s2, first.op, s3) && Disciplined(s3, second.op, s4) && BeyondLimit(s4, "p")
  {
    hide Step, Run, Staged, DisciplinedRun, StageTerms, ActiveExposure, Units, Disciplined, CreatedRun, PeriodSpent;
    run := CreatedRun(env, sign);
    FirstCreated(env, sign);
    var s := Run(env, EMPTY_STATE, run);
    NothingSpent(s, PathOf("2", 1, None));
    SecondAdded(env, sign, s, AwaitingSignatures);
    create := Event(CreateOp("2"), 0);
    RunMore(env, run, create);
    NotAlone(env, sign, s, Run(env, EMPTY_STATE, run + [create]));
    first, second := BothAccepted(env, sign, run + [create]);
    StageLimit(env, sign, Run(env, EMPTY_STATE, run + [create] + [first] + [second]), "1");
  }

  // ---- Taken out of settled ----------------------------------------------------------------------

  lemma OnlyOneOpened(s: State, path: Path)
    requires s.pactEvents == [PactEvent("1", "w", PactCreated, 0, None)] + [PactEvent("1", "w", PactAccepted, 0, None)]
                             + [PactEvent("1", "w", PaymentPreparedEvent, 0, Some("2"))]
                             + [PactEvent("1", "w", PaymentOpenedCanonical, 0, Some("2"))]
                             + [PactEvent("1", "w", PactSettled, 0, None)]
    ensures PeriodSpent(s, path, 0) <= 2
  {
    hide Units, IsUnits;
    StageUnits();
    var e0, e1 := PactEvent("1", "w", PactCreated, 0, None), PactEvent("1", "w", PactAccepted, 0, None);
    var e2, e3 := PactEvent("1", "w", PaymentPreparedEvent, 0, Some("2")),
                  PactEvent("1", "w", PaymentOpenedCanonical, 0, Some("2"));
    SpentMore(s, [], e0, path);
    assert [] + [e0] == [e0];
    SpentMore(s, [e0], e1, path);
    SpentMore(s, [e0] + [e1], e2, path);
    SpentMore(s, [e0] + [e1] + [e2], e3, path);
    SpentMore(s, [e0] + [e1] + [e2] + [e3], PactEvent("1", "w", PactSettled, 0, None), path);
  }

  /** The first Pact is paid and settled. */
  lemma SettledPactReached(env: Env, sign: Signer) returns (run: seq<Event>)
    requires Staged(env, sign)
    ensures var s := Run(env, EMPTY_STATE, run);
            && "1" in s.pacts && Alone(env, sign, s, Settled, s.pacts["1"].openRails) && s.gaiaCases == map[]
            && DisciplinedRun(env, run) && s.pacts["1"].openRails.Some? && s.pacts["1"].openRails.value.paycardId == "c"
            && PeriodSpent(s, PathOf("2", 1, None), 0) <= 2
  {
    hide Step, Run, Staged, DisciplinedRun, Ready, StageTerms, Observed, PeriodSpent;
    run := ActivePactReached(env, sign);
    var s := Run(env, EMPTY_STATE, run);
    PaymentSettled(env, sign, s, "1");
    GoesOn(env, sign, run, SettleOp(env, "1"), PactSettled, None, Active, s.pacts["1"].openRails);
    run := run + [Event(SettleOp(env, "1"), 0)];
    OnlyOneOpened(Run(env, EMPTY_STATE, run), PathOf("2", 1, None));
  }

  lemma SecondCreationDisciplined(env: Env, sign: Signer, s: State)
    requires OnStage(env, sign, s, "1") && s.pacts.Keys == {"1"} && s.pacts["1"].status == Settled
    requires var r := Step(env, s, CreateOp("2"), 0);
             SameRegistry(s, r) && "1" in r.pacts && r.pacts["1"] == s.pacts["1"]
    ensures Disciplined(s, CreateOp("2"), Step(env, s, CreateOp("2"), 0))
  {
    hide Step, OnStage, Units;
  }

  /** A second Pact is created and signed once the first is settled. */
  lemma SecondAfterSettlement(env: Env, sign: Signer) returns (run: seq<Event>)
    requires Staged(env, sign)
    ensures var s := Run(env, EMPTY_STATE, run);
            && Pair(env, sign, s, Settled, Accepted) && s.gaiaCases == map[] && DisciplinedRun(env, run)
            && s.pacts["1"].openRails.Some? && s.pacts["1"].openRails.value.paycardId == "c"
            && ActiveExposure(s, "p") == 2
  {
    hide Step, Run, Staged, DisciplinedRun, Ready, StageTerms, ActiveExposure, PeriodSpent, Disciplined;
    run := SettledPactReached(env, sign);
    var s := Run(env, EMPTY_STATE, run);
    SecondAdded(env, sign, s, Settled);
    SecondCreationDisciplined(env, sign, s);
    var create := Event(CreateOp("2"), 0);
    RunMore(env, run, create);
    DisciplinedMore(env, run, create);
    run := run + [create];
    var s1 := Run(env, EMPTY_STATE, run);
    OneOfTwoSigned(env, sign, s1, "2", Settled, AwaitingSignatures);
    SigningReserves(env, sign, run, "2", Settled, AwaitingSignatures);
    var last := Event(SignOp(s1, sign, "2"), 0);
    RunMore(env, run, last);
    DisciplinedMore(env, run, last);
    run := run + [last];
  }

  lemma DisputeReserves(s: State, r: State)
    requires s.pactIds == ["1", "2"] && Continues(s, r, "1", GaiaCaseOpened, None) && s.pacts["1"].status == Settled
    requires r.pacts["1"].status == Disputed && s.pacts["1"].terms.pathId == "p" && Allocation(s, "1") == 2
    ensures ActiveExposure(r, "p") == ActiveExposure(s, "p") + 2
  {
    hide Units;
    Witness.ReservedMore(s, r, s.pactIds, "1", "p");
  }

  /** A Gaia case on a settled Pact reserves it again: the only step that is not disciplined. */
  lemma SettledConditionNeeded(env: Env, sign: Signer) returns (run: seq<Event>, last: Event)
    requires Staged(env, sign)
    ensures DisciplinedRun(env, run)
    ensures var s, r := Run(env, EMPTY_STATE, run), Run(env, EMPTY_STATE, run + [last]);
            && LimitsKept(s, r) && CreatesAlone(s, last.op) && !SettledStays(s, r) && BeyondLimit(r, "p")
  {
    hide Step, Run, Staged, DisciplinedRun, StageTerms, ActiveExposure, Allocation, Units;
    run := SecondAfterSettlement(env, sign);
    var s := Run(env, EMPTY_STATE, run);
    last := Event(ClaimOp(sign, "1", Some("c")), 0);
    PactDisputed(env, sign, s, "1", Some("c"));
    RunMore(env, run, last);
    StageAllocation(env, sign, s, "1");
    StageLimit(env, sign, s, "1");
    DisputeReserves(s, Run(env, EMPTY_STATE, run + [last]));
  }
}
