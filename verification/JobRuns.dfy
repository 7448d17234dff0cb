/** Every interleaving of workers and operators over the job queue. */
module JobRuns {
  import opened Common
  import opened Content
  import opened LadderDecision
  import opened JobQueue

  /** Calls of workers, operators and of the session service, which loads a learner's record after a turn with a note
      and saves it again in a second transaction. */
  datatype Call =
    | CallEnqueue(id: JobId, request: Request, now: Time)
    | CallClaim(id: JobId, now: Time)
    | CallComplete(claim: Claim, decision: Decision, now: Time)
    | CallFail(claim: Claim, error: ErrorCode, now: Time)
    | CallRequeue(id: JobId, now: Time)
    | CallApprove(id: JobId, learner: int, version: nat)
    | CallLoad(session: nat, learner: int)
    | CallSave(session: nat, skill: string)

  datatype Event =
    | Offered(id: JobId, at: Time)
    | Claimed(id: JobId, attempt: nat, at: Time, until: Time)
    | Ended(id: JobId, attempt: nat, at: Time, outcome: Result<Decision, ErrorCode>)

  /** One write to a learner's record: an approved change of one level and the job that made it, or a save of the whole
      record as it was when `loaded` writes had been made. */
  datatype Write =
    | Changed(learner: int, id: JobId, skill: string, from: ExpressionLevel, to: ExpressionLevel)
    | Saved(learner: int, skills: Skills, loaded: nat)

  /** A record some session has loaded and not saved yet. */
  datatype Held = Held(learner: int, skills: Skills, loaded: nat)

  datatype World = World(jobs: Jobs, profiles: Profiles, held: map<nat, Held>, log: seq<Event>, writes: seq<Write>)

  const EMPTY := World(map[], map[], map[], [], [])

  /** One call: claims may be stale or forged, clocks may run anywhere, and a load may be followed by its save at any
      later time. */
  function Step(lease: real, w: World, call: Call): World {
    match call
    case CallEnqueue(id, request, now) =>
      if id in w.jobs then w else w.(jobs := Enqueue(w.jobs, id, request, now), log := w.log + [Offered(id, now)])
    case CallClaim(id, now) =>
      if Claimable(w.jobs, id, now) then
        w.(jobs := w.jobs[id := Taken(w.jobs[id], now, lease)],
           log := w.log + [Claimed(id, w.jobs[id].attempts + 1, now, now + lease)])
      else w
    case CallComplete(c, d, now) =>
      if Owns(w.jobs, c) then
        w.(jobs := w.jobs[c.id := Completed(w.jobs[c.id], d, now)], log := w.log + [Ended(c.id, c.attempt, now, Ok(d))])
      else w
    case CallFail(c, e, now) =>
      if Owns(w.jobs, c) then
        w.(jobs := w.jobs[c.id := Failed(w.jobs[c.id], e, now)], log := w.log + [Ended(c.id, c.attempt, now, Err(e))])
      else w
    case CallRequeue(id, now) =>
      if id in w.jobs && AwaitsRequeue(w.jobs[id]) then
        w.(jobs := w.jobs[id := Requeued(w.jobs[id], now)], log := w.log + [Offered(id, now)])
      else w
    case CallApprove(id, learner, version) =>
      var r := JudgeApproval(w.jobs, w.profiles, id, learner, version);
      if r.Err? then w
      else
        var approved := w.(jobs := w.jobs[id := w.jobs[id].(approved := true)]);
        if !r.value.Moved? then approved
        else
          var skill := w.jobs[id].request.skill;
          approved.(profiles := WithLevel(w.profiles, learner, skill, r.value.to),
                    writes := w.writes + [Changed(learner, id, skill, r.value.from, r.value.to)])
    case CallLoad(session, learner) =>
      w.(held := w.held[session := Held(learner, RecordOf(w.profiles, learner), |w.writes|)])
    case CallSave(session, skill) =>
      if session !in w.held then w
      else
        var h := w.held[session];
        var skills := Practised(h.skills, skill);
        w.(profiles := w.profiles[h.learner := skills], held := w.held - {session},
           writes := w.writes + [Saved(h.learner, skills, h.loaded)])
  }

  function Execute(lease: real, calls: seq<Call>): World {
    if calls == [] then EMPTY else Step(lease, Execute(lease, calls[..|calls| - 1]), calls[|calls| - 1])
  }

  // ----- the log of a job -----

  /** The last thing that happened to a job. */
  function Last(log: seq<Event>, id: JobId): Option<Event> {
    if log == [] then None
    else if log[|log| - 1].id == id then Some(log[|log| - 1])
    else Last(log[..|log| - 1], id)
  }

  function Claims(log: seq<Event>, id: JobId): nat {
    if log == [] then 0
    else Claims(log[..|log| - 1], id) + if log[|log| - 1].Claimed? && log[|log| - 1].id == id then 1 else 0
  }

  /** When an event may follow a history. A job is offered first, and again only after a requeueable failure; it is
      claimed once offered or once the lease before has run out; and only its latest claim ends it. */
  ghost predicate Lawful(lease: real, log: seq<Event>, e: Event) {
    var last := Last(log, e.id);
    match e
    case Offered(_, _) => last.Some? ==>
      last.value.Ended? && last.value.outcome.Err? && Requeueable(last.value.outcome.error)
    case Claimed(id, attempt, at, until) =>
      && attempt == Claims(log, id) + 1 && until == at + lease
      && last.Some? && !last.value.Ended?
      && at >= (if last.value.Claimed? then last.value.until else last.value.at)
    case Ended(id, attempt, _, _) =>
      last.Some? && last.value.Claimed? && last.value.attempt == attempt == Claims(log, id)
  }

  ghost predicate LawfulLog(lease: real, log: seq<Event>) {
    forall p :: 0 <= p < |log| ==> Lawful(lease, log[..p], log[p])
  }

  /** Every record is what the last event of its job says, and counts the claims. */
  ghost predicate JobFollows(jobs: Jobs, log: seq<Event>, id: JobId) {
    match Last(log, id)
    case None => id !in jobs && Claims(log, id) == 0
    case Some(e) =>
      && id in jobs && jobs[id].attempts == Claims(log, id)
      && (jobs[id].approved ==> jobs[id].status == JobCompleted)
      && match e
         case Offered(_, at) => jobs[id].status == Pending && jobs[id].availableAt == at
         case Claimed(_, attempt, _, until) =>
           jobs[id].status == Running && jobs[id].availableAt == until && attempt == jobs[id].attempts
         case Ended(_, attempt, _, outcome) =>
           && attempt == jobs[id].attempts
           && match outcome
              case Ok(d) => jobs[id].status == JobCompleted && jobs[id].decision == Some(d)
              case Err(error) => jobs[id].status == JobFailed && jobs[id].error == Some(error)
  }

  lemma LastSnoc(log: seq<Event>, e: Event, id: JobId)
    ensures Last(log + [e], id) == (if e.id == id then Some(e) else Last(log, id))
    ensures Claims(log + [e], id) == Claims(log, id) + (if e.Claimed? && e.id == id then 1 else 0)
  {}

  lemma LawfulSnoc(lease: real, log: seq<Event>, e: Event)
    requires LawfulLog(lease, log) && Lawful(lease, log, e)
    ensures LawfulLog(lease, log + [e])
  {
    forall p | 0 <= p < |log + [e]| ensures Lawful(lease, (log + [e])[..p], (log + [e])[p]) {
      assert (log + [e])[..p] == log[..p];
      assert p == |log| ==> log[..p] == log;
    }
  }

  // ----- the levels of a learner -----

  /** The stable level after a history of writes: what the last one to touch the skill left. */
  function LevelAfter(writes: seq<Write>, learner: int, skill: string): ExpressionLevel {
    if writes == [] then L2
    else
      var last := writes[|writes| - 1];
      if last.learner == learner && last.Saved? then LevelIn(last.skills, skill)
      else if last.learner == learner && last.skill == skill then last.to
      else LevelAfter(writes[..|writes| - 1], learner, skill)
  }

  /** A change starts where the learner stands and moves to an adjacent level; a save writes back every level as it was
      when the record was loaded. */
  ghost predicate Follows(writes: seq<Write>, w: Write) {
    match w
    case Changed(learner, _, skill, from, to) => from == LevelAfter(writes, learner, skill) && OneStep(to, from)
    case Saved(learner, skills, loaded) => Loaded(writes, learner, skills, loaded)
  }

  ghost predicate Loaded(writes: seq<Write>, learner: int, skills: Skills, loaded: nat) {
    loaded <= |writes| && forall skill :: LevelIn(skills, skill) == LevelAfter(writes[..loaded], learner, skill)
  }

  ghost predicate Path(writes: seq<Write>) {
    forall p :: 0 <= p < |writes| ==> Follows(writes[..p], writes[p])
  }

  /** A change belongs to a completed, approved job of that learner and skill and does what its decision says. */
  ghost predicate Accounted(jobs: Jobs, c: Write) {
    c.Changed? ==>
      && c.id in jobs && jobs[c.id].approved && jobs[c.id].status == JobCompleted && jobs[c.id].decision.Some?
      && jobs[c.id].request.learner == c.learner && jobs[c.id].request.skill == c.skill
      && jobs[c.id].decision.value.current == c.from && jobs[c.id].decision.value.recommended == c.to
  }

  /** No job changed a level twice. */
  ghost predicate OnceEach(writes: seq<Write>) {
    forall p, q :: 0 <= p < q < |writes| && writes[p].Changed? && writes[q].Changed? ==> writes[p].id != writes[q].id
  }

  ghost predicate Stored(w: World) {
    forall learner, skill :: StableLevel(w.profiles, learner, skill) == LevelAfter(w.writes, learner, skill)
  }

  ghost predicate Holding(w: World) {
    forall k | k in w.held :: Loaded(w.writes, w.held[k].learner, w.held[k].skills, w.held[k].loaded)
  }

  ghost predicate Levels(w: World) {
    && Path(w.writes) && OnceEach(w.writes) && Stored(w) && Holding(w)
    && (forall p :: 0 <= p < |w.writes| ==> Accounted(w.jobs, w.writes[p]))
  }

  ghost predicate Inv(lease: real, w: World) {
    && LawfulLog(lease, w.log)
    && (forall id :: JobFollows(w.jobs, w.log, id))
    && Levels(w)
  }

  // ----- one call -----

  /** A completed record keeps everything but its approval. */
  ghost predicate Frozen(before: Job, after: Job) {
    before.status == JobCompleted ==>
      after == before.(approved := after.approved) && (before.approved ==> after.approved)
  }

  ghost predicate Keeps(w: World, n: World, id: JobId) {
    (id in n.jobs <==> id in w.jobs) && (id in w.jobs ==> n.jobs[id] == w.jobs[id])
  }

  lemma {:induction false} CompletedJobsAreFrozen(lease: real, w: World, call: Call, id: JobId)
    requires id in w.jobs
    ensures id in Step(lease, w, call).jobs && Frozen(w.jobs[id], Step(lease, w, call).jobs[id])
  {}

  /** What a call that logs leaves: one lawful event and its record. */
  ghost predicate OneEvent(lease: real, w: World, n: World, e: Event) {
    && n.log == w.log + [e] && Lawful(lease, w.log, e) && JobFollows(n.jobs, n.log, e.id)
    && (forall k :: k != e.id ==> Keeps(w, n, k))
    && n.writes == w.writes && n.profiles == w.profiles && n.held == w.held
    && (e.id in w.jobs ==> e.id in n.jobs && Frozen(w.jobs[e.id], n.jobs[e.id]))
  }

  lemma OfferIsOneEvent(lease: real, w: World, call: Call, e: Event)
    requires call.CallEnqueue? || call.CallRequeue?
    requires Step(lease, w, call) != w && JobFollows(w.jobs, w.log, call.id) && e == Offered(call.id, call.now)
    ensures OneEvent(lease, w, Step(lease, w, call), e)
  {
    hide Decide, Claims, Last;
    LastSnoc(w.log, e, e.id);
  }

  lemma ClaimIsOneEvent(lease: real, w: World, call: Call, e: Event)
    requires call.CallClaim?
    requires Step(lease, w, call) != w && JobFollows(w.jobs, w.log, call.id)
    requires e == Claimed(call.id, Claims(w.log, call.id) + 1, call.now, call.now + lease)
    ensures OneEvent(lease, w, Step(lease, w, call), e)
  {
    hide Claims, Last;
    LastSnoc(w.log, e, e.id);
  }

  lemma EndIsOneEvent(lease: real, w: World, call: Call, e: Event)
    requires call.CallComplete? || call.CallFail?
    requires Step(lease, w, call) != w && JobFollows(w.jobs, w.log, call.claim.id)
    requires e == Ended(call.claim.id, call.claim.attempt, call.now, if call.CallComplete? then Ok(call.decision)
             else Err(call.error))
    ensures OneEvent(lease, w, Step(lease, w, call), e)
  {}

  lemma LoggedCall(lease: real, w: World, call: Call) returns (e: Event)
    requires !call.CallApprove? && !call.CallLoad? && !call.CallSave?
    requires Step(lease, w, call) != w && forall id :: JobFollows(w.jobs, w.log, id)
    ensures OneEvent(lease, w, Step(lease, w, call), e)
  {
    hide *;
    match call {
      case CallComplete(c, d, now) =>
        e := Ended(c.id, c.attempt, now, Ok(d));
        EndIsOneEvent(lease, w, call, e);
      case CallFail(c, error, now) =>
        e := Ended(c.id, c.attempt, now, Err(error));
        EndIsOneEvent(lease, w, call, e);
      case CallClaim(id, now) =>
        e := Claimed(id, Claims(w.log, id) + 1, now, now + lease);
        ClaimIsOneEvent(lease, w, call, e);
      case CallEnqueue(id, _, now) =>
        e := Offered(id, now);
        OfferIsOneEvent(lease, w, call, e);
      case CallRequeue(id, now) =>
        e := Offered(id, now);
        OfferIsOneEvent(lease, w, call, e);
    }
  }

  lemma EventKeepsInv(lease: real, w: World, n: World, e: Event)
    requires Inv(lease, w) && OneEvent(lease, w, n, e)
    ensures Inv(lease, n)
  {
    LawfulSnoc(lease, w.log, e);
    hide Lawful, LawfulLog, Path, LevelAfter, OnceEach, Loaded;
    forall k ensures JobFollows(n.jobs, n.log, k) {
      LastSnoc(w.log, e, k);
      assert JobFollows(w.jobs, w.log, k) && (k != e.id ==> Keeps(w, n, k));
    }
    forall p | 0 <= p < |n.writes| ensures Accounted(n.jobs, n.writes[p]) {
      var c := w.writes[p];
      assert Accounted(w.jobs, c) && (c.Changed? && c.id != e.id ==> Keeps(w, n, c.id));
    }
  }

  /** Approvals, loads and saves are not part of a job's log. */
  lemma OthersKeepLog(lease: real, w: World, call: Call)
    requires call.CallApprove? || call.CallLoad? || call.CallSave?
    requires forall id :: JobFollows(w.jobs, w.log, id)
    ensures var n := Step(lease, w, call); n.log == w.log && forall id :: JobFollows(n.jobs, n.log, id)
  {
    hide Last, Claims;
    var n := Step(lease, w, call);
    forall id ensures JobFollows(n.jobs, n.log, id) {
      assert JobFollows(w.jobs, w.log, id);
    }
  }

  lemma LevelAfterSnoc(writes: seq<Write>, x: Write, learner: int, skill: string)
    ensures LevelAfter(writes + [x], learner, skill)
         == if x.learner != learner then LevelAfter(writes, learner, skill)
            else if x.Saved? then LevelIn(x.skills, skill)
            else if x.skill == skill then x.to
            else LevelAfter(writes, learner, skill)
  {}

  lemma PathSnoc(writes: seq<Write>, x: Write)
    requires Path(writes) && Follows(writes, x)
    ensures Path(writes + [x])
  {
    forall p | 0 <= p < |writes + [x]| ensures Follows((writes + [x])[..p], (writes + [x])[p]) {
      assert (writes + [x])[..p] == writes[..p];
      assert p == |writes| ==> writes[..p] == writes;
    }
  }

  lemma LoadedSnoc(writes: seq<Write>, x: Write, learner: int, skills: Skills, loaded: nat)
    requires Loaded(writes, learner, skills, loaded)
    ensures Loaded(writes + [x], learner, skills, loaded)
  {
    assert (writes + [x])[..loaded] == writes[..loaded];
  }

  lemma HoldingSnoc(w: World, x: Write, held: map<nat, Held>)
    requires Holding(w) && held.Keys <= w.held.Keys && forall k | k in held :: held[k] == w.held[k]
    ensures Holding(w.(writes := w.writes + [x], held := held))
  {
    hide Loaded;
    forall k | k in held ensures Loaded(w.writes + [x], held[k].learner, held[k].skills, held[k].loaded) {
      LoadedSnoc(w.writes, x, held[k].learner, held[k].skills, held[k].loaded);
    }
  }

  lemma ApprovalKeepsLevels(lease: real, w: World, call: Call)
    requires call.CallApprove? && Levels(w)
    ensures Levels(Step(lease, w, call))
  {
    var n := Step(lease, w, call);
    var r := JudgeApproval(w.jobs, w.profiles, call.id, call.learner, call.version);
    if r.Ok? {
      hide LevelAfter, Path, Holding;
      forall p | 0 <= p < |w.writes| ensures Accounted(n.jobs, w.writes[p]) {
        assert Accounted(w.jobs, w.writes[p]);
      }
      if r.value.Moved? {
        ChangeKeepsLevels(w, n, n.writes[|w.writes|]);
      } else {
        HoldingStays(w, n);
      }
    }
  }

  lemma HoldingStays(w: World, n: World)
    requires Holding(w) && n.held == w.held && n.writes == w.writes
    ensures Holding(n)
  {}

  lemma ChangeKeepsLevels(w: World, n: World, c: Write)
    requires Levels(w) && c.Changed? && OneStep(c.to, c.from)
    requires n == w.(jobs := n.jobs, profiles := WithLevel(w.profiles, c.learner, c.skill, c.to),
             writes := w.writes + [c])
    requires c.id in w.jobs && !w.jobs[c.id].approved && StableLevel(w.profiles, c.learner, c.skill) == c.from
    requires forall p | 0 <= p < |n.writes| :: Accounted(n.jobs, n.writes[p])
    ensures Levels(n)
  {
    hide LevelAfter, Path, Holding;
    PathSnoc(w.writes, c);
    HoldingSnoc(w, c, w.held);
    HoldingStays(w.(writes := n.writes), n);
    forall learner, skill ensures StableLevel(n.profiles, learner, skill) == LevelAfter(n.writes, learner, skill) {
      LevelAfterSnoc(w.writes, c, learner, skill);
      assert StableLevel(w.profiles, learner, skill) == LevelAfter(w.writes, learner, skill);
    }
    forall p | 0 <= p < |w.writes| && w.writes[p].Changed? ensures w.writes[p].id != c.id {
      assert Accounted(w.jobs, w.writes[p]);
    }
  }

  lemma LoadKeepsLevels(lease: real, w: World, call: Call)
    requires call.CallLoad? && Levels(w)
    ensures Levels(Step(lease, w, call))
  {
    hide LevelAfter, Path, OnceEach, Accounted;
    var n := Step(lease, w, call);
    assert w.writes[..|w.writes|] == w.writes;
    forall skill
      ensures LevelIn(RecordOf(w.profiles, call.learner), skill) == LevelAfter(w.writes, call.learner, skill)
    {
      assert StableLevel(w.profiles, call.learner, skill) == LevelAfter(w.writes, call.learner, skill);
    }
  }

  lemma PractisedKeepsLevels(skills: Skills, skill: string, other: string)
    ensures LevelIn(Practised(skills, skill), other) == LevelIn(skills, other)
  {}

  lemma SaveKeepsLevels(lease: real, w: World, call: Call)
    requires call.CallSave? && Levels(w)
    ensures Levels(Step(lease, w, call))
  {
    if call.session in w.held {
      var h := w.held[call.session];
      var skills := Practised(h.skills, call.skill);
      var x := Saved(h.learner, skills, h.loaded);
      assert Loaded(w.writes, h.learner, h.skills, h.loaded);
      forall other ensures LevelIn(skills, other) == LevelIn(h.skills, other) {
        PractisedKeepsLevels(h.skills, call.skill, other);
      }
      hide LevelAfter, Path, Practised, Holding;
      PathSnoc(w.writes, x);
      HoldingSnoc(w, x, w.held - {call.session});
      var n := Step(lease, w, call);
      HoldingStays(w.(writes := n.writes, held := n.held), n);
      forall learner, other ensures StableLevel(n.profiles, learner, other) == LevelAfter(n.writes, learner, other) {
        LevelAfterSnoc(w.writes, x, learner, other);
        assert StableLevel(w.profiles, learner, other) == LevelAfter(w.writes, learner, other);
      }
    }
  }

  lemma StepKeepsInv(lease: real, w: World, call: Call)
    requires Inv(lease, w)
    ensures Inv(lease, Step(lease, w, call))
  {
    hide Step, LawfulLog, JobFollows, Levels, OneEvent;
    if call.CallApprove? || call.CallLoad? || call.CallSave? {
      OthersKeepLog(lease, w, call);
      if call.CallApprove? {
        ApprovalKeepsLevels(lease, w, call);
      } else if call.CallLoad? {
        LoadKeepsLevels(lease, w, call);
      } else {
        SaveKeepsLevels(lease, w, call);
      }
    } else if Step(lease, w, call) != w {
      var e := LoggedCall(lease, w, call);
      EventKeepsInv(lease, w, Step(lease, w, call), e);
    }
  }

  /** Under any interleaving, with any clocks and any claims presented: the log is lawful, the jobs follow it, every
      approved change starts at the stored level and moves one step, no job makes two, and a save writes back what its
      load read. */
  lemma {:induction false} EveryExecutionIsLawful(lease: real, calls: seq<Call>)
    ensures Inv(lease, Execute(lease, calls))
  {
    if calls != [] {
      EveryExecutionIsLawful(lease, calls[..|calls| - 1]);
      StepKeepsInv(lease, Execute(lease, calls[..|calls| - 1]), calls[|calls| - 1]);
    }
  }

  // ----- what lawfulness means -----

  lemma {:induction false} LastOfPrefix(log: seq<Event>, p: nat, q: nat, id: JobId) returns (m: nat)
    requires p < q <= |log| && log[p].id == id
    ensures p <= m < q && log[m].id == id && Last(log[..q], id) == Some(log[m])
    decreases q
  {
    assert log[..q][..q - 1] == log[..q - 1];
    if log[q - 1].id == id {
      m := q - 1;
    } else {
      m := LastOfPrefix(log, p, q - 1, id);
    }
  }

  lemma {:induction false} ClaimsGrow(log: seq<Event>, p: nat, q: nat, id: JobId)
    requires p <= q <= |log|
    ensures Claims(log[..p], id) <= Claims(log[..q], id)
    ensures p < q && log[p].Claimed? && log[p].id == id ==> Claims(log[..p], id) < Claims(log[..q], id)
    decreases q
  {
    if p < q {
      assert log[..q][..q - 1] == log[..q - 1];
      ClaimsGrow(log, p, q - 1, id);
    }
  }

  /** Each (job, attempt) is handed out at most once. */
  lemma EachAttemptIsClaimedOnce(lease: real, log: seq<Event>, p: nat, q: nat)
    requires LawfulLog(lease, log) && p < q < |log| && log[p].Claimed? && log[q].Claimed? && log[p].id == log[q].id
    ensures log[p].attempt < log[q].attempt
  {
    assert Lawful(lease, log[..p], log[p]) && Lawful(lease, log[..q], log[q]);
    ClaimsGrow(log, p, q, log[p].id);
  }

  /** An attempt ends at most once, and never after a later attempt of the job ended: an attempt that failed cannot
      complete later, though a requeue makes the job pending again without resetting its attempts. */
  lemma OneOutcomePerAttempt(lease: real, log: seq<Event>, p: nat, q: nat)
    requires LawfulLog(lease, log) && p < q < |log| && log[p].Ended? && log[q].Ended? && log[p].id == log[q].id
    ensures log[p].attempt < log[q].attempt
  {
    var id := log[p].id;
    assert Lawful(lease, log[..p], log[p]) && Lawful(lease, log[..q], log[q]);
    var m := LastOfPrefix(log, p, q, id);
    assert Lawful(lease, log[..m], log[m]);
    ClaimsGrow(log, p, m, id);
  }

  /** Only the latest claim of a job ends it. */
  lemma OnlyLatestClaimEnds(lease: real, log: seq<Event>, p: nat, q: nat)
    requires LawfulLog(lease, log) && p < q < |log| && log[p].Claimed? && log[q].Ended? && log[p].id == log[q].id
    ensures log[p].attempt <= log[q].attempt
  {
    assert Lawful(lease, log[..p], log[p]) && Lawful(lease, log[..q], log[q]);
    ClaimsGrow(log, p, q, log[p].id);
  }

  /** After a job completed, nothing more is logged for it: neither claims nor requeues nor other outcomes. */
  lemma {:induction false} CompletionIsLast(lease: real, log: seq<Event>, p: nat, q: nat)
    requires LawfulLog(lease, log) && p < q < |log| && log[p].Ended? && log[p].outcome.Ok?
    ensures log[q].id != log[p].id
    decreases q
  {
    if log[q].id == log[p].id {
      assert Lawful(lease, log[..q], log[q]);
      var m := LastOfPrefix(log, p, q, log[p].id);
      if m > p {
        CompletionIsLast(lease, log, p, m);
      }
    }
  }

  /** A completed record is frozen but for its approval, whatever is called afterwards. */
  lemma {:induction false} CompletedIsAbsorbing(lease: real, calls: seq<Call>, p: nat, id: JobId)
    requires p <= |calls| && id in Execute(lease, calls[..p]).jobs
    ensures id in Execute(lease, calls).jobs
    ensures Frozen(Execute(lease, calls[..p]).jobs[id], Execute(lease, calls).jobs[id])
    decreases |calls|
  {
    if p == |calls| {
      assert calls[..p] == calls;
    } else {
      var front := calls[..|calls| - 1];
      assert front[..p] == calls[..p];
      CompletedIsAbsorbing(lease, front, p, id);
      CompletedJobsAreFrozen(lease, Execute(lease, front), calls[|calls| - 1], id);
    }
  }

  // ----- what the saves do to the chain of changes -----

  ghost predicate ChangeOf(x: Write, learner: int, skill: string) {
    x.Changed? && x.learner == learner && x.skill == skill
  }

  ghost predicate SaveOf(x: Write, learner: int) {
    x.Saved? && x.learner == learner
  }

  /** The last save of the learner's record among the writes `p` to `q`. */
  ghost function LastSave(writes: seq<Write>, learner: int, p: nat, q: nat): (r: Option<nat>)
    requires p <= q <= |writes|
    ensures r.Some? ==> p <= r.value < q && SaveOf(writes[r.value], learner)
                        && forall i | r.value < i < q :: !SaveOf(writes[i], learner)
    ensures r.None? ==> forall i | p <= i < q :: !SaveOf(writes[i], learner)
    decreases q
  {
    if p == q then None else if SaveOf(writes[q - 1], learner) then Some(q - 1) else LastSave(writes, learner, p, q - 1)
  }

  /** Changes `p` and `q` are consecutive ones of the same learner's skill. */
  ghost predicate Consecutive(writes: seq<Write>, p: nat, q: nat) {
    && p < q < |writes| && writes[p].Changed? && ChangeOf(writes[q], writes[p].learner, writes[p].skill)
    && forall i | p < i < q :: !ChangeOf(writes[i], writes[p].learner, writes[p].skill)
  }

  lemma {:induction false} LevelStays(writes: seq<Write>, p: nat, q: nat, learner: int, skill: string)
    requires p <= q <= |writes|
    requires forall i | p <= i < q :: !ChangeOf(writes[i], learner, skill) && !SaveOf(writes[i], learner)
    ensures LevelAfter(writes[..q], learner, skill) == LevelAfter(writes[..p], learner, skill)
    decreases q
  {
    if p < q {
      assert writes[..q][..q - 1] == writes[..q - 1];
      LevelStays(writes, p, q - 1, learner, skill);
    }
  }

  lemma ChangeSetsLevel(writes: seq<Write>, p: nat)
    requires p < |writes| && writes[p].Changed?
    ensures LevelAfter(writes[..p + 1], writes[p].learner, writes[p].skill) == writes[p].to
  {
    assert writes[..p + 1] == writes[..p] + [writes[p]];
    LevelAfterSnoc(writes[..p], writes[p], writes[p].learner, writes[p].skill);
  }

  lemma SaveRestores(writes: seq<Write>, s: nat, skill: string)
    requires Path(writes) && s < |writes| && writes[s].Saved?
    ensures writes[s].loaded <= s
    ensures LevelAfter(writes[..s + 1], writes[s].learner, skill)
            == LevelAfter(writes[..writes[s].loaded], writes[s].learner, skill)
  {
    assert Follows(writes[..s], writes[s]);
    assert writes[..s][..writes[s].loaded] == writes[..writes[s].loaded];
    assert writes[..s + 1] == writes[..s] + [writes[s]];
    LevelAfterSnoc(writes[..s], writes[s], writes[s].learner, skill);
  }

  /** The level some time after change `p`: the one it moved to, unless a save landed since; then what that save had
      loaded. */
  lemma LevelSince(writes: seq<Write>, p: nat, n: nat)
    requires Path(writes) && p < n <= |writes| && writes[p].Changed?
    requires forall i | p < i < n :: !ChangeOf(writes[i], writes[p].learner, writes[p].skill)
    ensures var (learner, skill) := (writes[p].learner, writes[p].skill);
            match LastSave(writes, learner, p + 1, n)
            case None => LevelAfter(writes[..n], learner, skill) == writes[p].to
            case Some(s) =>
              && writes[s].loaded <= s
              && LevelAfter(writes[..n], learner, skill) == LevelAfter(writes[..writes[s].loaded], learner, skill)
  {
    hide LevelAfter, Path, LastSave;
    var (learner, skill) := (writes[p].learner, writes[p].skill);
    match LastSave(writes, learner, p + 1, n) {
      case None =>
        LevelStays(writes, p + 1, n, learner, skill);
        ChangeSetsLevel(writes, p);
      case Some(s) =>
        LevelStays(writes, s + 1, n, learner, skill);
        SaveRestores(writes, s, skill);
    }
  }

  /** Consecutive changes of one learner's skill join iff no save of the record lands between them, or the last one that
      does was loaded while the level was the one the earlier change led to. */
  lemma ChangesJoinIff(writes: seq<Write>, p: nat, q: nat)
    requires Path(writes) && Consecutive(writes, p, q)
    ensures OneStep(writes[q].to, writes[q].from)
    ensures var (learner, skill) := (writes[p].learner, writes[p].skill);
            writes[q].from == writes[p].to <==>
            match LastSave(writes, learner, p + 1, q)
            case None => true
            case Some(s) =>
              writes[s].loaded <= s && LevelAfter(writes[..writes[s].loaded], learner, skill) == writes[p].to
  {
    hide LevelAfter, LastSave;
    assert Follows(writes[..q], writes[q]);
    LevelSince(writes, p, q);
  }

  /** The change at `p` has been undone by time `n`: the last save since then was loaded before it, or while it was
      undone. */
  ghost predicate Undone(writes: seq<Write>, p: nat, n: nat)
    requires p < n <= |writes|
    decreases n
  {
    match LastSave(writes, writes[p].learner, p + 1, n)
    case None => false
    case Some(s) => writes[s].loaded <= p || (writes[s].loaded <= s && Undone(writes, p, writes[s].loaded))
  }

  /** Nothing touches the skill from time `low` up to the change at `p`. */
  ghost predicate Quiet(writes: seq<Write>, low: nat, p: nat)
    requires low <= p < |writes| && writes[p].Changed?
  {
    forall i | low <= i < p :: !ChangeOf(writes[i], writes[p].learner, writes[p].skill)
      && !SaveOf(writes[i], writes[p].learner)
  }

  /** After a change from a quiet level, the level is the one it came from iff a save has undone it, and otherwise the
      one it led to: it depends only on the order of loads and saves around the change. */
  lemma {:induction false} UndoneIff(writes: seq<Write>, low: nat, p: nat, n: nat)
    requires Path(writes) && low <= p < n <= |writes| && writes[p].Changed? && Quiet(writes, low, p)
    requires forall i | p < i < n :: !ChangeOf(writes[i], writes[p].learner, writes[p].skill)
    requires forall i | p < i < n && SaveOf(writes[i], writes[p].learner) :: low <= writes[i].loaded
    ensures LevelAfter(writes[..n], writes[p].learner, writes[p].skill)
         == if Undone(writes, p, n) then writes[p].from else writes[p].to
    decreases n
  {
    hide LevelAfter, Path, LastSave;
    var (learner, skill) := (writes[p].learner, writes[p].skill);
    LevelSince(writes, p, n);
    match LastSave(writes, learner, p + 1, n) {
      case None =>
      case Some(s) =>
        var load := writes[s].loaded;
        if load <= p {
          LevelStays(writes, load, p, learner, skill);
          ChangeStartsAt(writes, p);
        } else {
          UndoneIff(writes, low, p, load);
        }
    }
  }

  lemma ChangeStartsAt(writes: seq<Write>, p: nat)
    requires Path(writes) && p < |writes| && writes[p].Changed?
    ensures LevelAfter(writes[..p], writes[p].learner, writes[p].skill) == writes[p].from != writes[p].to
  {
    assert Follows(writes[..p], writes[p]);
  }

  /** In terms of order alone: two consecutive changes fail to join iff the earlier one was undone by a save whose load
      preceded it, directly or through a load in between. */
  lemma ChangesJoinUnlessUndone(writes: seq<Write>, low: nat, p: nat, q: nat)
    requires Path(writes) && Consecutive(writes, p, q) && low <= p && Quiet(writes, low, p)
    requires forall i | p < i < q && SaveOf(writes[i], writes[p].learner) :: low <= writes[i].loaded
    ensures writes[q].from == (if Undone(writes, p, q) then writes[p].from else writes[p].to)
    ensures writes[q].from == writes[p].to <==> !Undone(writes, p, q)
  {
    hide LevelAfter, Undone;
    assert Follows(writes[..q], writes[q]);
    UndoneIff(writes, low, p, q);
    ChangeStartsAt(writes, p);
  }

  /** Saves loaded after a change never undo it. */
  lemma {:induction false} FreshSavesNeverUndo(writes: seq<Write>, p: nat, n: nat)
    requires p < n <= |writes| && forall i | p < i < n && SaveOf(writes[i], writes[p].learner) :: p < writes[i].loaded
    ensures !Undone(writes, p, n)
    decreases n
  {
    hide LastSave;
    match LastSave(writes, writes[p].learner, p + 1, n) {
      case None =>
      case Some(s) => if writes[s].loaded <= s { FreshSavesNeverUndo(writes, p, writes[s].loaded); }
    }
  }

  /** Consecutive changes join whenever every save between them was loaded after the earlier one. */
  lemma FreshSavesJoin(writes: seq<Write>, p: nat, q: nat)
    requires Path(writes) && Consecutive(writes, p, q)
    requires forall i | p < i < q && SaveOf(writes[i], writes[p].learner) :: p < writes[i].loaded
    ensures writes[q].from == writes[p].to && OneStep(writes[q].to, writes[q].from)
  {
    hide LevelAfter, Undone;
    assert Follows(writes[..q], writes[q]);
    FreshSavesNeverUndo(writes, p, q);
    ChangesJoinUnlessUndone(writes, p, p, q);
  }

  /** The level according to the approvals alone. */
  function ApprovedLevel(writes: seq<Write>, learner: int, skill: string): ExpressionLevel {
    if writes == [] then L2
    else
      var last := writes[|writes| - 1];
      if last.Changed? && last.learner == learner && last.skill == skill then last.to
      else ApprovedLevel(writes[..|writes| - 1], learner, skill)
  }

  /** The stored levels are those the approvals alone lead to. */
  ghost predicate Agrees(writes: seq<Write>) {
    forall learner, skill :: LevelAfter(writes, learner, skill) == ApprovedLevel(writes, learner, skill)
  }

  /** At every time up to `n` the approvals alone decide the levels. */
  ghost predicate ApprovalsDecide(writes: seq<Write>, n: nat)
    requires n <= |writes|
  {
    forall m: nat | m <= n :: Agrees(writes[..m])
  }

  /** The approvals between the load and the save at `s` left every skill of the learner where it was. */
  ghost predicate Harmless(writes: seq<Write>, s: nat)
    requires s < |writes| && writes[s].Saved? && writes[s].loaded <= s
  {
    forall skill ::
      ApprovedLevel(writes[..s], writes[s].learner, skill)
        == ApprovedLevel(writes[..writes[s].loaded], writes[s].learner, skill)
  }

  lemma OneMoreWrite(writes: seq<Write>, n: nat, learner: int, skill: string)
    requires Path(writes) && n < |writes|
    ensures ApprovedLevel(writes[..n + 1], learner, skill)
         == if ChangeOf(writes[n], learner, skill) then writes[n].to else ApprovedLevel(writes[..n], learner, skill)
    ensures SaveOf(writes[n], learner) ==>
              && writes[n].loaded <= n
              && LevelAfter(writes[..n + 1], learner, skill) == LevelAfter(writes[..writes[n].loaded], learner, skill)
    ensures !SaveOf(writes[n], learner) ==>
              LevelAfter(writes[..n + 1], learner, skill)
              == if ChangeOf(writes[n], learner, skill) then writes[n].to else LevelAfter(writes[..n], learner, skill)
  {
    assert writes[..n + 1][..n] == writes[..n];
    assert writes[..n + 1] == writes[..n] + [writes[n]];
    LevelAfterSnoc(writes[..n], writes[n], learner, skill);
    if writes[n].Saved? { SaveRestores(writes, n, skill); }
    hide LevelAfter, Path;
  }

  /** The stored levels are at all times those the approvals lead to iff no save ever lands on a learner for whom the
      approvals since its load have moved a level. */
  lemma {:induction false} ApprovalsDecideIff(writes: seq<Write>, n: nat)
    requires Path(writes) && n <= |writes|
    ensures ApprovalsDecide(writes, n) <==>
            forall s: nat | s < n && writes[s].Saved? :: writes[s].loaded <= s && Harmless(writes, s)
  {
    hide LevelAfter, ApprovedLevel, Path;
    if n == 0 {
      NothingWritten();
      assert writes[..0] == [];
    } else {
      ApprovalsDecideIff(writes, n - 1);
      assert ApprovalsDecide(writes, n) ==> ApprovalsDecide(writes, n - 1);
      if ApprovalsDecide(writes, n - 1) {
        LastWriteDecides(writes, n - 1);
      }
    }
  }

  lemma NothingWritten()
    ensures forall learner, skill :: LevelAfter([], learner, skill) == ApprovedLevel([], learner, skill)
  {}

  lemma LastWriteDecides(writes: seq<Write>, n: nat)
    requires Path(writes) && n < |writes| && ApprovalsDecide(writes, n)
    ensures ApprovalsDecide(writes, n + 1) <==> (writes[n].Saved? ==> writes[n].loaded <= n && Harmless(writes, n))
  {
    hide LevelAfter, ApprovedLevel, Path, Agrees;
    LastWriteAgrees(writes, n);
    assert ApprovalsDecide(writes, n + 1) <==> Agrees(writes[..n + 1]);
  }

  lemma LastWriteAgrees(writes: seq<Write>, n: nat)
    requires Path(writes) && n < |writes| && ApprovalsDecide(writes, n)
    ensures Agrees(writes[..n + 1]) <==> (writes[n].Saved? ==> writes[n].loaded <= n && Harmless(writes, n))
  {
    hide LevelAfter, ApprovedLevel, Path;
    assert Agrees(writes[..n]);
    var now := writes[..n + 1];
    forall learner, skill
      ensures LevelAfter(now, learner, skill) == ApprovedLevel(now, learner, skill) <==>
              (SaveOf(writes[n], learner) ==>
                 && writes[n].loaded <= n
                 && ApprovedLevel(writes[..n], learner, skill)
                      == ApprovedLevel(writes[..writes[n].loaded], learner, skill))
    {
      OneMoreWrite(writes, n, learner, skill);
      if SaveOf(writes[n], learner) {
        assert Agrees(writes[..writes[n].loaded]);
      }
    }
    if writes[n].Saved? && Agrees(now) {
      SaveRestores(writes, n, "");
      forall skill
        ensures ApprovedLevel(writes[..n], writes[n].learner, skill)
             == ApprovedLevel(writes[..writes[n].loaded], writes[n].learner, skill)
      {
        assert LevelAfter(now, writes[n].learner, skill) == ApprovedLevel(now, writes[n].learner, skill);
      }
    }
  }

  // ----- a save that undoes an approval -----

  /** An analysis whose two sessions speak for the step from L2 to L3. */
  function Mastered(learner: int, skill: string): Request {
    Request(learner, skill, L2, map[L2 := Performance(4, 4)], 0)
  }

  /** What the worker decides of it when the model foresees L3 in both sessions. */
  function Verdict(learner: int, skill: string): Decision {
    Decide(EvidenceOf(Mastered(learner, skill), [L3, L3]))
  }

  const STEP_UP := Decision(Upgrade, L2, L3, Mastery)

  lemma MasteryStepsUp(learner: int, skill: string)
    ensures Verdict(learner, skill) == STEP_UP
  {}

  /** A worker takes job `id` and completes it with its decision. */
  function Analyse(id: JobId, learner: int, skill: string): seq<Call> {
    [CallEnqueue(id, Mastered(learner, skill), 0.0), CallClaim(id, 0.0),
     CallComplete(Claim(id, 1), Verdict(learner, skill), 0.0)]
  }

  function After(lease: real, w: World, calls: seq<Call>): World {
    if calls == [] then w else Step(lease, After(lease, w, calls[..|calls| - 1]), calls[|calls| - 1])
  }

  lemma {:induction false} ExecuteAppend(lease: real, a: seq<Call>, b: seq<Call>)
    ensures Execute(lease, a + b) == After(lease, Execute(lease, a), b)
  {
    hide Step;
    if b == [] {
      assert a + b == a;
    } else {
      var last := |b| - 1;
      ExecuteAppend(lease, a, b[..last]);
      assert (a + b)[..|a + b| - 1] == a + b[..last] && (a + b)[|a + b| - 1] == b[last];
    }
  }

  lemma AfterThree(lease: real, w: World, x: Call, y: Call, z: Call)
    ensures After(lease, w, [x, y, z]) == Step(lease, Step(lease, Step(lease, w, x), y), z)
  {
    hide Step;
    assert [x, y, z][..2] == [x, y] && [x, y][..1] == [x] && [x][..0] == [];
    assert After(lease, w, [x]) == Step(lease, w, x);
    assert After(lease, w, [x, y]) == Step(lease, After(lease, w, [x]), y);
  }

  function Completion(learner: int, skill: string): Job {
    Job(Mastered(learner, skill), JobCompleted, 1, 0.0, Some(STEP_UP), 1, None, false)
  }

  lemma AnalyseCompletes(lease: real, w: World, id: JobId, learner: int, skill: string)
    requires id !in w.jobs
    ensures var n := After(lease, w, Analyse(id, learner, skill));
            && n.jobs == w.jobs[id := Completion(learner, skill)]
            && n.profiles == w.profiles && n.held == w.held && n.writes == w.writes
  {
    var calls := Analyse(id, learner, skill);
    MasteryStepsUp(learner, skill);
    hide Verdict;
    AfterThree(lease, w, calls[0], calls[1], calls[2]);
  }

  /** The session loads the record; job "a" is approved; the session saves what it had loaded; job "b" is approved. */
  function StaleSave(learner: int, skill: string): seq<Call> {
    Analyse("a", learner, skill) + Analyse("b", learner, skill)
    + ([CallLoad(0, learner), CallApprove("a", learner, 1), CallSave(0, skill)] + [CallApprove("b", learner, 1)])
  }

  lemma ApprovalMoves(lease: real, w: World, id: JobId, learner: int, skill: string)
    requires id in w.jobs && w.jobs[id] == Completion(learner, skill) && StableLevel(w.profiles, learner, skill) == L2
    ensures var n := Step(lease, w, CallApprove(id, learner, 1));
            && n.jobs == w.jobs[id := w.jobs[id].(approved := true)]
            && n.profiles == WithLevel(w.profiles, learner, skill, L3) && n.held == w.held
            && n.writes == w.writes + [Changed(learner, id, skill, L2, L3)]
  {}

  /** That execution approves the step from L2 to L3, which the worker decided on in both jobs, twice over: its two
      changes are consecutive and do not join, since the save in between wrote back the level from before the first. */
  lemma StaleSaveSplitsChanges(lease: real, learner: int, skill: string)
    ensures var w := Execute(lease, StaleSave(learner, skill));
            && |w.writes| == 3 && Consecutive(w.writes, 0, 2) && Undone(w.writes, 0, 2)
            && w.writes[0] == Changed(learner, "a", skill, L2, L3)
                 && w.writes[2] == Changed(learner, "b", skill, L2, L3)
  {
    hide Execute, After, Analyse, Step, JudgeApproval;
    var a, b := Analyse("a", learner, skill), Analyse("b", learner, skill);
    var load, save := CallLoad(0, learner), CallSave(0, skill);
    var approveA, approveB := CallApprove("a", learner, 1), CallApprove("b", learner, 1);
    var tail := [load, approveA, save] + [approveB];
    ExecuteAppend(lease, [], a);
    assert [] + a == a;
    ExecuteAppend(lease, a, b);
    ExecuteAppend(lease, a + b, tail);
    var start := Execute(lease, a + b);
    StartOf(lease);
    AnalyseCompletes(lease, EMPTY, "a", learner, skill);
    AnalyseCompletes(lease, Execute(lease, a), "b", learner, skill);
    var w1 := Step(lease, start, load);
    LoadHolds(lease, start, 0, learner);
    ApprovalMoves(lease, w1, "a", learner, skill);
    var w2 := Step(lease, w1, approveA);
    SaveWrites(lease, w2, 0, skill);
    var w3 := Step(lease, w2, save);
    ApprovalMoves(lease, w3, "b", learner, skill);
    AfterFour(lease, start, load, approveA, save, approveB);
  }

  lemma StartOf(lease: real)
    ensures Execute(lease, []) == EMPTY
  {}

  lemma LoadHolds(lease: real, w: World, session: nat, learner: int)
    ensures Step(lease, w, CallLoad(session, learner))
         == w.(held := w.held[session := Held(learner, RecordOf(w.profiles, learner), |w.writes|)])
  {}

  lemma SaveWrites(lease: real, w: World, session: nat, skill: string)
    requires session in w.held
    ensures var h := w.held[session];
            var n := Step(lease, w, CallSave(session, skill));
            && n.jobs == w.jobs && n.writes == w.writes + [Saved(h.learner, Practised(h.skills, skill), h.loaded)]
            && forall other :: StableLevel(n.profiles, h.learner, other) == LevelIn(h.skills, other)
  {}

  lemma AfterFour(lease: real, w: World, x: Call, y: Call, z: Call, u: Call)
    ensures After(lease, w, [x, y, z] + [u]) == Step(lease, Step(lease, Step(lease, Step(lease, w, x), y), z), u)
  {
    hide Step;
    assert ([x, y, z] + [u])[..3] == [x, y, z];
    AfterThree(lease, w, x, y, z);
  }
}
