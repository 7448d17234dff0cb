/** The ladder-analysis job queue: enqueue, claim, complete, fail, requeue and approve, each one transaction. */
module JobQueue {
  import opened Common
  import opened Content
  import opened Ladders
  import opened LadderDecision

  type JobId = string
  type Time = real

  datatype JobStatus = Pending | Running | JobCompleted | JobFailed

  datatype ErrorCode =
    | ModelNotFound | ModelDependencyMissing | ModelLoadFailed | ModelInferenceFailed | SpeechLoadFailed
    | UnexpectedError

  predicate Requeueable(e: ErrorCode) { e in {ModelNotFound, ModelDependencyMissing, ModelLoadFailed} }

  /** A code outside the reviewed list is stored as the unexpected error. */
  function Bounded(code: string): ErrorCode {
    match code
    case "MODEL_NOT_FOUND" => ModelNotFound
    case "MODEL_DEPENDENCY_MISSING" => ModelDependencyMissing
    case "MODEL_LOAD_FAILED" => ModelLoadFailed
    case "MODEL_INFERENCE_FAILED" => ModelInferenceFailed
    case "SPEECH_LOAD_FAILED" => SpeechLoadFailed
    case _ => UnexpectedError
  }

  /** What an analysis was asked about; always two sessions. */
  datatype Request = Request(
    learner: int,
    skill: string,
    current: ExpressionLevel,
    performance: map<ExpressionLevel, Performance>,
    lowerRules: nat)

  datatype Job = Job(
    request: Request,
    status: JobStatus,
    attempts: nat,
    availableAt: Time,
    decision: Option<Decision>,
    version: nat,
    error: Option<ErrorCode>,
    approved: bool)

  /** What a worker holds: the record as it was claimed. */
  datatype Claim = Claim(id: JobId, attempt: nat)

  type Jobs = map<JobId, Job>

  /** A learner's record: the stable level of every skill met so far. */
  type Skills = map<string, ExpressionLevel>

  type Profiles = map<int, Skills>

  /** `get_profile`: a learner without a record has an empty one. */
  function RecordOf(profiles: Profiles, learner: int): Skills {
    if learner in profiles then profiles[learner] else map[]
  }

  /** A skill without an entry is stable at L2. */
  function LevelIn(skills: Skills, skill: string): ExpressionLevel {
    if skill in skills then skills[skill] else L2
  }

  function StableLevel(profiles: Profiles, learner: int, skill: string): ExpressionLevel {
    LevelIn(RecordOf(profiles, learner), skill)
  }

  /** `update_skill_profile` as far as levels go: the skill of the task gets an entry and keeps its level. */
  function Practised(skills: Skills, skill: string): Skills {
    skills[skill := LevelIn(skills, skill)]
  }

  function WithLevel(profiles: Profiles, learner: int, skill: string, level: ExpressionLevel): Profiles {
    profiles[learner := RecordOf(profiles, learner)[skill := level]]
  }

  // ----- transactions -----

  function Enqueue(jobs: Jobs, id: JobId, request: Request, now: Time): Jobs {
    if id in jobs then jobs else jobs[id := Job(request, Pending, 0, now, None, 1, None, false)]
  }

  predicate Claimable(jobs: Jobs, id: JobId, now: Time) {
    id in jobs && jobs[id].status in {Pending, Running} && jobs[id].availableAt <= now
  }

  function Taken(j: Job, now: Time, lease: real): Job {
    j.(status := Running, attempts := j.attempts + 1, availableAt := now + lease, error := None)
  }

  /** The fence: the job is running under exactly this attempt. */
  predicate Owns(jobs: Jobs, c: Claim) {
    c.id in jobs && jobs[c.id].status == Running && jobs[c.id].attempts == c.attempt
  }

  function Completed(j: Job, d: Decision, now: Time): Job {
    j.(status := JobCompleted, decision := Some(d), availableAt := now)
  }

  function Failed(j: Job, e: ErrorCode, now: Time): Job {
    j.(status := JobFailed, error := Some(e), availableAt := now)
  }

  predicate AwaitsRequeue(j: Job) {
    j.status == JobFailed && j.error.Some? && Requeueable(j.error.value)
  }

  function Requeued(j: Job, now: Time): Job {
    j.(status := Pending, error := None, availableAt := now)
  }

  datatype ApproveError = NotFound | NotApplicable | Stale

  datatype Approval = AlreadyApproved | AlreadyThere | Moved(from: ExpressionLevel, to: ExpressionLevel)

  /** What `approve` decides, before anything is written. */
  function JudgeApproval(jobs: Jobs, profiles: Profiles, id: JobId, learner: int, version: nat): Result<Approval,
      ApproveError>
  {
    if id !in jobs || jobs[id].request.learner != learner then Err(NotFound)
    else
      var j := jobs[id];
      if j.status != JobCompleted || j.decision.None? then Err(NotApplicable)
      else if j.version != version then Err(Stale)
      else if j.approved then Ok(AlreadyApproved)
      else
        var d := j.decision.value;
        if d.action !in {Upgrade, AdjustDown} then Err(NotApplicable)
        else if !OneStep(d.recommended, d.current) then Err(NotApplicable)
        else
          var stable := StableLevel(profiles, learner, j.request.skill);
          if stable == d.recommended then Ok(AlreadyThere)
          else if stable != d.current then Err(Stale)
          else Ok(Moved(d.current, d.recommended))
  }

  /** What one analysis produced: the speech could not be loaded, the model gave an error code, or predictions. */
  datatype Analysis = SpeechUnavailable | ModelUnavailable(code: string) | Predicted(levels: seq<ExpressionLevel>)

  function EvidenceOf(r: Request, levels: seq<ExpressionLevel>): Evidence {
    Evidence(r.current, r.performance, if |levels| <= 2 then levels
      else levels[|levels| - 2..], |levels|, r.lowerRules, 2)
  }

  /** What a job claimed by a worker becomes by the end of the worker's cycle. */
  function Analysed(j: Job, a: Analysis, now: Time, lease: real): Job {
    var taken := Taken(j, now, lease);
    match a
    case SpeechUnavailable => Failed(taken, SpeechLoadFailed, now)
    case ModelUnavailable(code) => Failed(taken, if code == "" then ModelInferenceFailed else Bounded(code), now)
    case Predicted(levels) => Completed(taken, Decide(EvidenceOf(j.request, levels)), now)
  }

  /** The repository object. */
  class Store {
    const lease: real
    var jobs: Jobs
    var profiles: Profiles

    constructor (lease: real)
      ensures this.lease == lease && jobs == map[] && profiles == map[]
    {
      this.lease := lease;
      jobs, profiles := map[], map[];
    }

    /** Claims the selected jobs; `ids` is what the query returned, in its order. */
    method ClaimPending(ids: seq<JobId>, now: Time) returns (claims: seq<Claim>)
      requires Unique(ids) && forall id | id in ids :: Claimable(jobs, id, now)
      modifies this`jobs
      ensures jobs.Keys == old(jobs).Keys
      ensures forall id | id in jobs :: jobs[id] == if id in ids then Taken(old(jobs)[id], now, lease)
              else old(jobs)[id]
      ensures |claims| == |ids|
      ensures forall i | 0 <= i < |ids| :: claims[i].id == ids[i] && Owns(jobs, claims[i])
    {
      claims := [];
      for i := 0 to |ids|
        invariant jobs.Keys == old(jobs).Keys
        invariant forall id | id in jobs :: jobs[id] == if id in ids[..i] then Taken(old(jobs)[id], now, lease)
                  else old(jobs)[id]
        invariant |claims| == i
        invariant forall k | 0 <= k < i :: claims[k].id == ids[k] && Owns(jobs, claims[k])
      {
        assert ids[..i + 1] == ids[..i] + [ids[i]];
        assert ids[i] in ids && ids[i] !in ids[..i];
        var j := jobs[ids[i]];
        jobs := jobs[ids[i] := j.(status := Running, attempts := j.attempts + 1, availableAt := now + lease,
          error := None)];
        claims := claims + [Claim(ids[i], j.attempts + 1)];
      }
      assert ids[..|ids|] == ids;
    }

    method Complete(c: Claim, d: Decision, now: Time) returns (ok: bool)
      modifies this`jobs
      ensures ok == old(Owns(jobs, c))
      ensures jobs == if ok then old(jobs)[c.id := Completed(old(jobs)[c.id], d, now)] else old(jobs)
    {
      if c.id !in jobs || jobs[c.id].status != Running || jobs[c.id].attempts != c.attempt {
        return false;
      }
      var j := jobs[c.id];
      j := j.(status := JobCompleted);
      j := j.(decision := Some(d));
      j := j.(availableAt := now);
      jobs := jobs[c.id := j];
      ok := true;
    }

    method Fail(c: Claim, code: string, now: Time) returns (ok: bool)
      modifies this`jobs
      ensures ok == old(Owns(jobs, c))
      ensures jobs == if ok then old(jobs)[c.id := Failed(old(jobs)[c.id], Bounded(code), now)] else old(jobs)
    {
      if c.id !in jobs || jobs[c.id].status != Running || jobs[c.id].attempts != c.attempt {
        return false;
      }
      var j := jobs[c.id];
      j := j.(status := JobFailed);
      j := j.(error := Some(Bounded(code)));
      j := j.(availableAt := now);
      jobs := jobs[c.id := j];
      ok := true;
    }

    /** Requeues the selected failures; `ids` is what the query returned. */
    method RequeueModelFailures(ids: seq<JobId>, now: Time) returns (count: nat)
      requires Unique(ids) && forall id :: id in ids <==> id in jobs && AwaitsRequeue(jobs[id])
      modifies this`jobs
      ensures jobs.Keys == old(jobs).Keys
      ensures forall id | id in jobs ::
                jobs[id] == if AwaitsRequeue(old(jobs)[id]) then Requeued(old(jobs)[id], now) else old(jobs)[id]
      ensures count == |ids|
    {
      for i := 0 to |ids|
        invariant jobs.Keys == old(jobs).Keys
        invariant forall id | id in jobs :: jobs[id] == if id in ids[..i] then Requeued(old(jobs)[id], now)
                  else old(jobs)[id]
      {
        assert ids[..i + 1] == ids[..i] + [ids[i]];
        assert ids[i] in ids && ids[i] !in ids[..i];
        jobs := jobs[ids[i] := jobs[ids[i]].(status := Pending, error := None, availableAt := now)];
      }
      assert ids[..|ids|] == ids;
      count := |ids|;
    }

    method Approve(id: JobId, learner: int, version: nat) returns (r: Result<Approval, ApproveError>)
      modifies this`jobs, this`profiles
      ensures r == JudgeApproval(old(jobs), old(profiles), id, learner, version)
      ensures r.Ok? ==> jobs == old(jobs)[id := old(jobs)[id].(approved := true)]
      ensures r.Err? ==> jobs == old(jobs)
      ensures profiles == if r.Ok? && r.value.Moved?
              then WithLevel(old(profiles), learner, old(jobs)[id].request.skill, r.value.to)
                          else old(profiles)
    {
      if id !in jobs || jobs[id].request.learner != learner {
        return Err(NotFound);
      }
      var j := jobs[id];
      if j.status != JobCompleted || j.decision.None? {
        return Err(NotApplicable);
      }
      if j.version != version {
        return Err(Stale);
      }
      if j.approved {
        assert jobs == jobs[id := j];
        return Ok(AlreadyApproved);
      }
      var d := j.decision.value;
      if d.action != Upgrade && d.action != AdjustDown {
        return Err(NotApplicable);
      }
      if !OneStep(d.recommended, d.current) {
        return Err(NotApplicable);
      }
      var stable := StableLevel(profiles, learner, j.request.skill);
      if stable == d.recommended {
        jobs := jobs[id := j.(approved := true)];
        return Ok(AlreadyThere);
      }
      if stable != d.current {
        return Err(Stale);
      }
      var skills := RecordOf(profiles, learner);
      skills := skills[j.request.skill := d.recommended];
      profiles := profiles[learner := skills];
      jobs := jobs[id := j.(approved := true)];
      return Ok(Moved(d.current, d.recommended));
    }

    /** One worker cycle with nobody else at work: every claimed job ends, with the decision of its own evidence. */
    method RunOnce(ids: seq<JobId>, now: Time, analyses: map<JobId, Analysis>) returns (completed: nat, failed: nat)
      requires Unique(ids) && forall id | id in ids :: Claimable(jobs, id, now) && id in analyses
      modifies this`jobs
      ensures jobs.Keys == old(jobs).Keys
      ensures forall id | id in jobs ::
                jobs[id] == if id in ids then Analysed(old(jobs)[id], analyses[id], now, lease) else old(jobs)[id]
      ensures completed + failed == |ids|
    {
      hide Decide;
      var claims := ClaimPending(ids, now);
      completed, failed := 0, 0;
      ghost var taken := jobs;
      for i := 0 to |ids|
        invariant jobs.Keys == old(jobs).Keys
        invariant forall id | id in jobs ::
                    jobs[id] == if id in ids[..i] then Analysed(old(jobs)[id], analyses[id], now, lease) else taken[id]
        invariant completed + failed == i
      {
        assert ids[..i + 1] == ids[..i] + [ids[i]];
        assert ids[i] in ids && ids[i] !in ids[..i];
        match analyses[ids[i]] {
          case SpeechUnavailable =>
            var _ := Fail(claims[i], "SPEECH_LOAD_FAILED", now);
            failed := failed + 1;
          case ModelUnavailable(code) =>
            var _ := Fail(claims[i], if code == "" then "MODEL_INFERENCE_FAILED" else code, now);
            failed := failed + 1;
          case Predicted(levels) =>
            var ok := Complete(claims[i], Decide(EvidenceOf(jobs[ids[i]].request, levels)), now);
            if ok {
              completed := completed + 1;
            }
        }
      }
      assert ids[..|ids|] == ids;
    }
  }

  /** Approving what a worker wrote never ends in "not applicable" once the recommendation changes the level; it is
      refused that way exactly for an unfinished job or a recommendation to stay. */
  lemma WorkerDecisionsAreApplicable(jobs: Jobs, profiles: Profiles, id: JobId, version: nat,
      levels: seq<ExpressionLevel>)
    requires id in jobs && jobs[id].status == JobCompleted
    requires jobs[id].decision == Some(Decide(EvidenceOf(jobs[id].request, levels)))
    requires version == jobs[id].version && !jobs[id].approved
    ensures var d := jobs[id].decision.value;
            JudgeApproval(jobs, profiles, id, jobs[id].request.learner, version) == Err(NotApplicable)
            <==> d.recommended == jobs[id].request.current
  {}
}
