// Proposals and the jobs that evaluate them.
module KernelJobs {
  import opened Prelude
  import opened KernelTypes
  import opened Policy
  import opened KernelOps
  import opened KernelSafety
  import opened KernelFrames

  /** stableId gives different Proposals different job identifiers. */
  ghost predicate DistinctJobIds(env: Env) {
    forall a, b :: env.jobId(a) == env.jobId(b) ==> a == b
  }

  ghost predicate JobSound(env: Env, s: State, id: string)
    requires id in s.jobs
  {
    var job := s.jobs[id];
    && job.jobId == id && id == env.jobId(job.proposalId) && job.proposalId in s.proposals
    && job.state != Running && job.attempts == (if job.state == Queued then 0 else 1)
  }

  ghost predicate ProposalSound(env: Env, s: State, pid: string)
    requires pid in s.proposals
  {
    var p := s.proposals[pid];
    && p.proposalId == pid && PositiveUnits(p.allocation) && PositiveUnits(p.velocity) && p.durationSeconds > 0
    && env.jobId(pid) in s.jobs && s.jobs[env.jobId(pid)].proposalId == pid
    && IdempotencyKey(p) in s.idempotency && s.idempotency[IdempotencyKey(p)] == env.hashProposal(p)
  }

  ghost predicate JobsSound(env: Env, s: State) {
    && (forall id :: id in s.jobs ==> JobSound(env, s, id))
    && (forall pid :: pid in s.proposals ==> ProposalSound(env, s, pid))
    && (forall id :: id in s.jobIds <==> id in s.jobs)
  }

  /** A job that has been evaluated stays as it is. */
  ghost predicate JobsKept(s: State, r: State) {
    && (forall pid :: pid in s.proposals ==> pid in r.proposals && r.proposals[pid] == s.proposals[pid])
    && (forall id :: id in s.jobs ==>
          id in r.jobs && (s.jobs[id].state != Queued ==> r.jobs[id] == s.jobs[id]))
  }

  /** What an accepted first submission adds. */
  ghost predicate Submits(env: Env, s: State, r: State, p: Proposal) {
    var id := env.jobId(p.proposalId);
    && id !in s.jobs && p.proposalId !in s.proposals && IdempotencyKey(p) !in s.idempotency
    && PositiveUnits(p.allocation) && PositiveUnits(p.velocity) && p.durationSeconds > 0
    && r.jobs == s.jobs[id := Job(id, p.proposalId, Queued, 0)] && r.jobIds == AppendKey(s.jobIds, id)
    && r.proposals == s.proposals[p.proposalId := p]
    && r.idempotency == s.idempotency[IdempotencyKey(p) := env.hashProposal(p)]
  }

  lemma SubmissionSubmits(env: Env, s: State, p: Proposal)
    requires DistinctJobIds(env) && JobsSound(env, s)
    requires SubmitProposalError(env, s, p).None? && !AlreadySubmitted(s, p)
    ensures Submits(env, s, SubmitProposal(env, s, p), p)
  {
    hide IdempotencyKey, PositiveUnits, FindJob, AppendKey, ProposalSound;
    assert env.jobId(p.proposalId) in s.jobs ==> JobSound(env, s, env.jobId(p.proposalId));
  }

  lemma NewProposalSound(env: Env, s: State, r: State, p: Proposal)
    requires JobsSound(env, s) && Submits(env, s, r, p)
    ensures JobsSound(env, r) && JobsKept(s, r)
  {
    hide ProposalSound, JobSound, IdempotencyKey, PositiveUnits;
    forall pid | pid in r.proposals
      ensures ProposalSound(env, r, pid)
    {
      ProposalsSubmitted(env, s, r, p, pid);
    }
    forall id | id in r.jobs
      ensures JobSound(env, r, id)
    {
      JobsSubmitted(env, s, r, p, id);
    }
  }

  lemma ProposalsSubmitted(env: Env, s: State, r: State, p: Proposal, pid: string)
    requires Submits(env, s, r, p) && pid in r.proposals
    requires pid in s.proposals ==> ProposalSound(env, s, pid)
    ensures ProposalSound(env, r, pid)
  {
    hide IdempotencyKey, PositiveUnits, AppendKey;
  }

  lemma JobsSubmitted(env: Env, s: State, r: State, p: Proposal, id: string)
    requires Submits(env, s, r, p) && id in r.jobs
    requires id in s.jobs ==> JobSound(env, s, id)
    ensures JobSound(env, r, id)
  {
    hide IdempotencyKey, PositiveUnits, AppendKey;
  }

  /** What evaluating the queued job changes. */
  ghost predicate Evaluates(s: State, r: State, jobId: string, allow: bool) {
    && jobId in s.jobs && s.jobs[jobId].state == Queued
    && r == s.(jobs := s.jobs[jobId := Evaluated(s.jobs[jobId], s.jobs[jobId].proposalId in s.proposals, allow)])
  }

  lemma EvaluatedJobSound(env: Env, s: State, r: State, jobId: string, allow: bool, id: string)
    requires Evaluates(s, r, jobId, allow) && id in r.jobs && JobSound(env, s, id)
    ensures JobSound(env, r, id)
  {
  }

  lemma EvaluatedProposalSound(env: Env, s: State, r: State, jobId: string, allow: bool, pid: string)
    requires Evaluates(s, r, jobId, allow) && pid in r.proposals && ProposalSound(env, s, pid)
    ensures ProposalSound(env, r, pid)
  {
    hide IdempotencyKey, PositiveUnits;
  }

  lemma EvaluationSound(env: Env, s: State, jobId: string, allow: bool)
    requires JobsSound(env, s)
    ensures JobsSound(env, RunJob(s, jobId, allow)) && JobsKept(s, RunJob(s, jobId, allow))
  {
    hide ProposalSound, JobSound, Evaluated;
    var r := RunJob(s, jobId, allow);
    if jobId in s.jobs && s.jobs[jobId].state == Queued {
      forall pid | pid in r.proposals
        ensures ProposalSound(env, r, pid)
      {
        EvaluatedProposalSound(env, s, r, jobId, allow, pid);
      }
      forall id | id in r.jobs
        ensures JobSound(env, r, id)
      {
        EvaluatedJobSound(env, s, r, jobId, allow, id);
      }
    }
  }

  lemma JobsUntouched(env: Env, s: State, r: State)
    requires JobsSound(env, s) && SameJobs(s, r)
    ensures JobsSound(env, r) && JobsKept(s, r)
  {
    hide IdempotencyKey, PositiveUnits;
    forall pid | pid in r.proposals
      ensures ProposalSound(env, r, pid)
    {
      assert ProposalSound(env, s, pid);
    }
    forall id | id in r.jobs
      ensures JobSound(env, r, id)
    {
      assert JobSound(env, s, id);
    }
  }

  lemma JobStep(env: Env, s: State, op: Op, now: int)
    requires DistinctJobIds(env) && JobsSound(env, s)
    ensures JobsSound(env, Step(env, s, op, now)) && JobsKept(s, Step(env, s, op, now))
  {
    hide Step, JobsSound, JobsKept, Submits, SubmitProposalError, CreatePactError, NewPact, AllowedNow,
         AlreadySubmitted;
    JobsUntouched(env, s, s);
    if op.OpSubmitProposal? {
      SubmitProposalStep(env, s, op, now);
      if SubmitProposalError(env, s, op.proposal).None? {
        if AlreadySubmitted(s, op.proposal) {
          assert SubmitProposal(env, s, op.proposal) == s;
        } else {
          SubmissionSubmits(env, s, op.proposal);
          NewProposalSound(env, s, Step(env, s, op, now), op.proposal);
        }
      }
    } else if op.OpRunJob? {
      RunJobStep(env, s, op, now);
      EvaluationSound(env, s, op.jobId,
                      op.jobId in s.jobs && AllowedNow(env, s, s.jobs[op.jobId].proposalId, op.identity, now));
    } else {
      JobsFrame(env, s, op, now);
      JobsUntouched(env, s, Step(env, s, op, now));
    }
  }

  lemma {:induction false} RunJobsSound(env: Env, s: State, run: seq<Event>)
    requires DistinctJobIds(env) && JobsSound(env, s)
    ensures JobsSound(env, Run(env, s, run)) && JobsKept(s, Run(env, s, run))
  {
    hide Step, JobsSound;
    if run != [] {
      var last, earlier := run[|run| - 1], run[..|run| - 1];
      RunJobsSound(env, s, earlier);
      JobStep(env, Run(env, s, earlier), last.op, last.now);
    }
  }

  /** In every reachable state a stored Proposal has exactly one job, and no job is running. */
  lemma EveryProposalHasOneJob(env: Env, run: seq<Event>, pid: string)
    requires DistinctJobIds(env) && pid in Run(env, EMPTY_STATE, run).proposals
    ensures var s := Run(env, EMPTY_STATE, run);
            exists id :: id in s.jobs && s.jobs[id].proposalId == pid
                         && (forall k :: k in s.jobs && s.jobs[k].proposalId == pid ==> k == id)
    ensures forall k :: k in Run(env, EMPTY_STATE, run).jobs ==> !Run(env, EMPTY_STATE, run).jobs[k].state.Running?
  {
    hide Step, IdempotencyKey, PositiveUnits;
    var s := Run(env, EMPTY_STATE, run);
    RunJobsSound(env, EMPTY_STATE, run);
    assert ProposalSound(env, s, pid);
    forall k | k in s.jobs
      ensures k == env.jobId(s.jobs[k].proposalId) && !s.jobs[k].state.Running?
    {
      assert JobSound(env, s, k);
    }
    assert env.jobId(pid) in s.jobs;
  }

  lemma {:induction false} FindJobFinds(env: Env, s: State, jobIds: seq<string>, pid: string)
    requires JobsSound(env, s) && (forall id :: id in jobIds ==> id in s.jobs)
    ensures var found := FindJob(jobIds, s.jobs, pid);
            if env.jobId(pid) in jobIds && s.jobs[env.jobId(pid)].proposalId == pid
            then found == Some(s.jobs[env.jobId(pid)])
            else found.None?
  {
    hide ProposalSound;
    if jobIds != [] {
      assert jobIds[0] in jobIds && JobSound(env, s, jobIds[0]);
      FindJobFinds(env, s, jobIds[1..], pid);
    }
  }

  /**
   * Submitting a stored Proposal again is accepted, changes nothing and answers with its one job; any other
   * Proposal under the same idempotency key is refused, given that different Proposals hash differently.
   */
  lemma ResubmissionIsIdempotent(env: Env, run: seq<Event>, p: Proposal, other: Proposal, now: int)
    requires DistinctJobIds(env)
    requires var s := Run(env, EMPTY_STATE, run); p.proposalId in s.proposals && s.proposals[p.proposalId] == p
    requires IdempotencyKey(other) == IdempotencyKey(p) && env.hashProposal(other) != env.hashProposal(p)
    ensures var s := Run(env, EMPTY_STATE, run);
            && SubmitProposalError(env, s, p).None?
            && Step(env, s, OpSubmitProposal(p), now) == s
            && env.jobId(p.proposalId) in s.jobs
            && SubmittedJob(env, s, p) == s.jobs[env.jobId(p.proposalId)]
            && SubmitProposalError(env, s, other).Some?
            && Step(env, s, OpSubmitProposal(other), now) == s
  {
    hide Step, IdempotencyKey, PositiveUnits;
    var s := Run(env, EMPTY_STATE, run);
    RunJobsSound(env, EMPTY_STATE, run);
    assert ProposalSound(env, s, p.proposalId);
    FindJobFinds(env, s, s.jobIds, p.proposalId);
    SubmitProposalStep(env, s, OpSubmitProposal(p), now);
    SubmitProposalStep(env, s, OpSubmitProposal(other), now);
  }

  /** The calls of a run, by any worker, that evaluated the job. */
  ghost function Evaluations(env: Env, run: seq<Event>, jobId: string): nat {
    if run == [] then 0
    else
      var last, earlier := run[|run| - 1], run[..|run| - 1];
      var s := Run(env, EMPTY_STATE, earlier);
      Evaluations(env, earlier, jobId)
      + if last.op.OpRunJob? && last.op.jobId == jobId && jobId in s.jobs && s.jobs[jobId].state == Queued
        then 1 else 0
  }

  /** However workers interleave, a job is evaluated at most once, and its result never changes afterwards. */
  lemma {:induction false} EvaluatedAtMostOnce(env: Env, run: seq<Event>, jobId: string)
    requires DistinctJobIds(env)
    ensures var s := Run(env, EMPTY_STATE, run);
            && Evaluations(env, run, jobId) <= 1
            && Evaluations(env, run, jobId) == Attempts(s, jobId)
  {
    hide Step, ProposalSound;
    if run != [] {
      var last, earlier := run[|run| - 1], run[..|run| - 1];
      var s := Run(env, EMPTY_STATE, earlier);
      EvaluatedAtMostOnce(env, earlier, jobId);
      RunJobsSound(env, EMPTY_STATE, earlier);
      RunJobsSound(env, EMPTY_STATE, run);
      if jobId in s.jobs { assert JobSound(env, s, jobId); }
      if jobId in Run(env, EMPTY_STATE, run).jobs { assert JobSound(env, Run(env, EMPTY_STATE, run), jobId); }
      AttemptsStep(env, s, last.op, last.now, jobId);
    }
  }

  function Attempts(s: State, jobId: string): nat {
    if jobId in s.jobs then s.jobs[jobId].attempts else 0
  }

  lemma AttemptsOfSubmission(env: Env, s: State, op: Op, now: int, jobId: string)
    requires DistinctJobIds(env) && JobsSound(env, s) && op.OpSubmitProposal?
    ensures Attempts(Step(env, s, op, now), jobId) == Attempts(s, jobId)
  {
    hide Step, JobsSound, SubmitProposalError, AlreadySubmitted, AppendKey, IdempotencyKey, PositiveUnits;
    SubmitProposalStep(env, s, op, now);
    if SubmitProposalError(env, s, op.proposal).None? {
      if AlreadySubmitted(s, op.proposal) {
        assert SubmitProposal(env, s, op.proposal) == s;
      } else {
        hide SubmitProposal;
        SubmissionSubmits(env, s, op.proposal);
      }
    }
  }

  lemma AttemptsOfEvaluation(s: State, id: string, allow: bool, jobId: string)
    ensures Attempts(RunJob(s, id, allow), jobId) ==
              Attempts(s, jobId)
              + if id == jobId && jobId in s.jobs && s.jobs[jobId].state == Queued then 1 else 0
  {
    if id in s.jobs && s.jobs[id].state == Queued {
      var job := Evaluated(s.jobs[id], s.jobs[id].proposalId in s.proposals, allow);
      assert RunJob(s, id, allow).jobs == s.jobs[id := job];
    } else {
      assert RunJob(s, id, allow) == s;
    }
  }

  lemma AttemptsUntouched(s: State, r: State, jobId: string)
    requires SameJobs(s, r)
    ensures Attempts(r, jobId) == Attempts(s, jobId)
  {}

  lemma AttemptsStep(env: Env, s: State, op: Op, now: int, jobId: string)
    requires DistinctJobIds(env) && JobsSound(env, s)
    ensures Attempts(Step(env, s, op, now), jobId) ==
              Attempts(s, jobId)
              + if op.OpRunJob? && op.jobId == jobId && jobId in s.jobs && s.jobs[jobId].state == Queued
                then 1 else 0
  {
    hide Step, JobsSound, AllowedNow, Attempts, SameJobs, RunJob;
    if op.OpSubmitProposal? {
      AttemptsOfSubmission(env, s, op, now, jobId);
    } else if op.OpRunJob? {
      RunJobStep(env, s, op, now);
      AttemptsOfEvaluation(s, op.jobId, op.jobId in s.jobs
                                        && AllowedNow(env, s, s.jobs[op.jobId].proposalId, op.identity, now), jobId);
    } else {
      JobsFrame(env, s, op, now);
      AttemptsUntouched(s, Step(env, s, op, now), jobId);
    }
  }

  lemma JobsFrame(env: Env, s: State, op: Op, now: int)
    requires !op.OpSubmitProposal? && !op.OpRunJob?
    ensures SameJobs(s, Step(env, s, op, now))
  {
    hide Step, CreatePactError, NewPact, AllowedNow;
    if ChangesPact(op) { PactStepFrame(env, s, op, now); }
    else if op.OpCreatePact? { CreateStepFrame(env, s, op, now); }
    else { RegistryStepFrame(env, s, op, now); }
  }

  // ---- What a job says ---------------------------------------------------------------------------

  /** What the evaluations of a job by the calls of a run decided: whether its Proposal was allowed then. */
  ghost function Decisions(env: Env, run: seq<Event>, jobId: string): seq<bool> {
    if run == [] then []
    else
      var last, earlier := run[|run| - 1], run[..|run| - 1];
      var s := Run(env, EMPTY_STATE, earlier);
      Decisions(env, earlier, jobId)
      + if last.op.OpRunJob? && last.op.jobId == jobId && jobId in s.jobs && s.jobs[jobId].state == Queued
        then [&& s.jobs[jobId].proposalId in s.proposals
              && Allowed(env, s, s.proposals[s.jobs[jobId].proposalId], last.op.identity, last.now)]
        else []
  }

  /** Queued until it is evaluated; then completed when its Proposal was allowed and blocked when it was not. */
  ghost predicate TellsDecision(s: State, jobId: string, decisions: seq<bool>) {
    && (jobId !in s.jobs ==> decisions == [])
    && (jobId in s.jobs ==>
          || (decisions == [] && s.jobs[jobId].state == Queued)
          || (decisions == [true] && s.jobs[jobId].state == JobCompleted)
          || (decisions == [false] && s.jobs[jobId].state == JobBlocked))
  }

  lemma SubmissionTells(env: Env, s: State, p: Proposal, jobId: string, decisions: seq<bool>)
    requires DistinctJobIds(env) && JobsSound(env, s) && SubmitProposalError(env, s, p).None?
    requires TellsDecision(s, jobId, decisions)
    ensures TellsDecision(SubmitProposal(env, s, p), jobId, decisions)
  {
    hide JobsSound, SubmitProposalError, AlreadySubmitted, AppendKey, IdempotencyKey, PositiveUnits;
    if AlreadySubmitted(s, p) {
      assert SubmitProposal(env, s, p) == s;
    } else {
      hide SubmitProposal;
      SubmissionSubmits(env, s, p);
    }
  }

  lemma EvaluationTells(env: Env, s: State, id: string, allow: bool, jobId: string, decisions: seq<bool>)
    requires JobsSound(env, s) && TellsDecision(s, jobId, decisions)
    ensures TellsDecision(RunJob(s, id, allow), jobId,
                          decisions + if id == jobId && jobId in s.jobs && s.jobs[jobId].state == Queued
                                      then [allow] else [])
  {
    hide ProposalSound, TellsDecision;
    assert decisions + [] == decisions;
    if id in s.jobs && s.jobs[id].state == Queued {
      assert JobSound(env, s, id);
      var r := RunJob(s, id, allow);
      assert r.jobs == s.jobs[id := Evaluated(s.jobs[id], true, allow)];
      if id == jobId { FirstDecision(s, r, id, allow, decisions); } else { OtherDecision(s, r, id, jobId, decisions); }
    }
  }

  lemma FirstDecision(s: State, r: State, id: string, allow: bool, decisions: seq<bool>)
    requires id in s.jobs && s.jobs[id].state == Queued && TellsDecision(s, id, decisions)
    requires r.jobs == s.jobs[id := Evaluated(s.jobs[id], true, allow)]
    ensures TellsDecision(r, id, decisions + [allow])
  {
  }

  lemma OtherDecision(s: State, r: State, id: string, jobId: string, decisions: seq<bool>)
    requires id in s.jobs && id != jobId && TellsDecision(s, jobId, decisions)
    requires id in r.jobs && r.jobs == s.jobs[id := r.jobs[id]]
    ensures TellsDecision(r, jobId, decisions)
  {
  }

  lemma NoDecision(s: State, r: State, jobId: string, decisions: seq<bool>)
    requires SameJobs(s, r) && TellsDecision(s, jobId, decisions)
    ensures TellsDecision(r, jobId, decisions)
  {
  }

  /** In every run a job is queued until its one evaluation, and then says whether its Proposal was allowed. */
  lemma {:induction false} JobsTellDecisions(env: Env, run: seq<Event>, jobId: string)
    requires DistinctJobIds(env)
    ensures TellsDecision(Run(env, EMPTY_STATE, run), jobId, Decisions(env, run, jobId))
  {
    hide Step, Allowed, TellsDecision, JobsSound, SubmitProposalError, SubmitProposal, RunJob, SameJobs;
    if run == [] {
      NoJobs(jobId);
    } else {
      var last, earlier := run[|run| - 1], run[..|run| - 1];
      var s, decisions := Run(env, EMPTY_STATE, earlier), Decisions(env, earlier, jobId);
      JobsTellDecisions(env, earlier, jobId);
      NothingSound(env);
      RunJobsSound(env, EMPTY_STATE, earlier);
      assert decisions + [] == decisions;
      if last.op.OpSubmitProposal? {
        SubmitProposalStep(env, s, last.op, last.now);
        if SubmitProposalError(env, s, last.op.proposal).None? {
          SubmissionTells(env, s, last.op.proposal, jobId, decisions);
        }
      } else if last.op.OpRunJob? {
        var id := last.op.jobId;
        RunJobStep(env, s, last.op, last.now);
        EvaluationTells(env, s, id, id in s.jobs && AllowedNow(env, s, s.jobs[id].proposalId, last.op.identity,
                                                              last.now), jobId, decisions);
      } else {
        JobsFrame(env, s, last.op, last.now);
        NoDecision(s, Step(env, s, last.op, last.now), jobId, decisions);
      }
    }
  }

  lemma NoJobs(jobId: string)
    ensures TellsDecision(EMPTY_STATE, jobId, [])
  {
  }

  lemma NothingSound(env: Env)
    ensures JobsSound(env, EMPTY_STATE)
  {
  }

  /**
   * In every run a Proposal is accepted exactly when its amounts and duration are positive and it is new under its
   * identifier and its idempotency key, or has the hash recorded for that key and an identifier that is stored.
   */
  lemma SubmissionAcceptedExactly(env: Env, run: seq<Event>, p: Proposal)
    requires DistinctJobIds(env)
    ensures var s, key := Run(env, EMPTY_STATE, run), p.workspaceId + ":proposal:" + p.idempotencyKey;
            SubmitProposalError(env, s, p).None?
            <==> && IsUnits(p.allocation) && Units(p.allocation) > 0 && IsUnits(p.velocity) && Units(p.velocity) > 0
                 && p.durationSeconds > 0
                 && if key in s.idempotency then
                      s.idempotency[key] == env.hashProposal(p) && p.proposalId in s.proposals
                    else p.proposalId !in s.proposals
  {
    hide Run, Step, Units, IsUnits, FindJob;
    var s := Run(env, EMPTY_STATE, run);
    NothingSound(env);
    RunJobsSound(env, EMPTY_STATE, run);
    if p.proposalId in s.proposals {
      assert ProposalSound(env, s, p.proposalId);
      FindJobFinds(env, s, s.jobIds, p.proposalId);
    }
  }
}
