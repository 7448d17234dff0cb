/** Concurrent resolutions of stable copy: each client is `resolve` cut at its repository calls, all sharing one row
    map. The output firewall and whitespace stripping are parameters. */
module Resolver {
  import opened Common
  import opened CopyCache

  /** `passes(firewall, output)`: the output violates neither its plan nor the deny lists; `strip` trims it. */
  datatype Guard = Guard(passes: (string, string) -> bool, strip: string -> string)

  /** Trimming never makes a passing output fail. */
  ghost predicate Stable(g: Guard) {
    forall f, o :: g.passes(f, o) ==> g.passes(f, g.strip(o))
  }

  /** A copy pinned in the conversation. */
  datatype Pinned = Pinned(matchesPlan: bool, output: string)

  /** One call of `resolve`; the cache key is the digest of the plan, taken to be injective. */
  datatype Request = Request(
    key: CacheKey,
    firewall: string,
    fallback: string,
    safeFallback: string,
    jointCopy: bool,
    legacyPlan: bool,
    pinned: Option<Pinned>)

  datatype Status =
    | StatusPinned | StatusHit | StatusGenerated | StatusSeeded | StatusContended | StatusGenerationFallback
    | StatusReviewed

  predicate Durable(s: Status) { s in {StatusHit, StatusGenerated, StatusSeeded} }

  datatype Resolution = Resolution(output: string, status: Status)

  datatype Phase =
    | Start
    | Missed
    | Generating(lease: Lease)
    | Storing(lease: Lease, artifact: Artifact, seeded: bool)
    | Lost(lease: Lease, seeded: bool)
    | Done(resolution: Resolution)
    | Raised

  datatype Client = Client(request: Request, phase: Phase)

  datatype System = System(world: World, clients: map<nat, Client>)

  /** A repository call that answers, or fails before or after taking effect. */
  datatype Fault = NoFault | FaultBefore | FaultAfter

  datatype Generated = Output(output: string) | GenerationFailed

  /** Everything a step cannot choose: whose step it is, the clock, fresh tokens, faults and the model's answer. */
  datatype Move = Move(client: nat, now: Time, token: Token, fault: Fault, generated: Generated)

  /** The reviewed fallback, or an exception when it breaks its own plan. */
  function Fallback(g: Guard, r: Request, text: string, status: Status): Phase {
    if g.passes(r.firewall, g.strip(text)) then Done(Resolution(g.strip(g.strip(text)), status)) else Raised
  }

  /** `_from_cached_artifact`: metadata and firewall are checked again; `None` is its exception. */
  function FromCached(g: Guard, r: Request, a: Artifact, status: Status): Option<Resolution> {
    if a.plan == r.key && g.passes(r.firewall, a.output) then Some(Resolution(g.strip(a.output), status)) else None
  }

  function Serve(g: Guard, r: Request, a: Artifact): Phase {
    match FromCached(g, r, a, StatusHit)
    case Some(resolution) => Done(resolution)
    case None => Fallback(g, r, r.fallback, StatusReviewed)
  }

  /** Before the cache is touched: legacy joint plans and pinned copies; then the first lookup. */
  function Begin(g: Guard, r: Request, rows: Rows, fault: Fault): Phase {
    if r.jointCopy && r.legacyPlan then Fallback(g, r, r.safeFallback, StatusReviewed)
    else if r.pinned.Some? then
      if !r.pinned.value.matchesPlan then Raised
      else if g.passes(r.firewall, r.pinned.value.output) then Done(Resolution(r.pinned.value.output, StatusPinned))
      else Fallback(g, r, r.fallback, StatusReviewed)
    else if Fallback(g, r, r.fallback, StatusReviewed).Raised? then Raised
    else if fault != NoFault then Fallback(g, r, r.fallback, StatusReviewed)
    else
      match GetReady(rows, r.key)
      case Some(a) => Serve(g, r, a)
      case None => Missed
  }

  function TryAcquire(c: Config, g: Guard, r: Request, w: World, m: Move): (World, Phase) {
    if m.fault == FaultBefore then (w, Fallback(g, r, r.fallback, StatusReviewed))
    else
      var n := Step(c, w, CallAcquire(r.key, m.now, m.token));
      if m.fault == FaultAfter then (n, Fallback(g, r, r.fallback, StatusReviewed))
      else
        (n,
         match Acquire(c, w.rows, r.key, m.now, m.token).1
         case AlreadyReady(a) => Serve(g, r, a)
         case Busy(_) => Fallback(g, r, r.fallback, StatusContended)
         case Backoff(_) => Fallback(g, r, r.fallback, StatusContended)
         case Corrupt => Fallback(g, r, r.fallback, StatusReviewed)
         case Leased(lease) => Phase.Generating(lease))
  }

  /** `_mark_failure`: the retry state is recorded unless the repository faults first. */
  function MarkFailure(c: Config, w: World, lease: Lease, m: Move): World {
    if m.fault == FaultBefore then w else Step(c, w, CallFail(lease, "GENERATION", m.now))
  }

  function Generate(c: Config, g: Guard, r: Request, w: World, lease: Lease, m: Move): (World, Phase) {
    match m.generated
    case GenerationFailed => (MarkFailure(c, w, lease, m), Fallback(g, r, r.fallback, StatusGenerationFallback))
    case Output(o) =>
      if g.passes(r.firewall, o) then (w, Storing(lease, Artifact(r.key, o), false))
      else if r.jointCopy then (w, Storing(lease, Artifact(r.key, g.strip(r.fallback)), true))
      else (MarkFailure(c, w, lease, m), Fallback(g, r, r.fallback, StatusGenerationFallback))
  }

  function Store(c: Config, g: Guard, r: Request, w: World, lease: Lease, a: Artifact, seeded: bool, m: Move): (World,
      Phase)
  {
    if m.fault == FaultBefore then (w, Lost(lease, seeded))
    else
      var n := Step(c, w, CallComplete(lease, a, m.now));
      if m.fault == FaultAfter then (n, Lost(lease, seeded))
      else
        match Complete(w.rows, lease, a, m.now).1
        case None => (n, Lost(lease, seeded))
        case Some(stored) =>
          (n,
           match FromCached(g, r, stored, if seeded then StatusSeeded else StatusGenerated)
           case Some(resolution) => Done(resolution)
           case None => Raised)
  }

  /** The lease was lost: serve the winner's row, if there is one. */
  function AfterLoss(c: Config, g: Guard, r: Request, w: World, lease: Lease, seeded: bool, m: Move): (World, Phase) {
    var winner := if m.fault == NoFault then GetReady(w.rows, r.key) else None;
    match winner
    case Some(a) =>
      (w,
       match FromCached(g, r, a, StatusHit)
       case Some(resolution) => Done(resolution)
       case None => if seeded then Raised else Fallback(g, r, r.fallback, StatusContended))
    case None =>
      if seeded then (MarkFailure(c, w, lease, m), Fallback(g, r, r.fallback, StatusGenerationFallback))
      else (w, Fallback(g, r, r.fallback, StatusContended))
  }

  function Advance(c: Config, g: Guard, w: World, client: Client, m: Move): (World, Phase) {
    var r := client.request;
    match client.phase
    case Start => (w, Begin(g, r, w.rows, m.fault))
    case Missed => TryAcquire(c, g, r, w, m)
    case Generating(lease) => Generate(c, g, r, w, lease, m)
    case Storing(lease, a, seeded) => Store(c, g, r, w, lease, a, seeded, m)
    case Lost(lease, seeded) => AfterLoss(c, g, r, w, lease, seeded, m)
    case Done(_) => (w, client.phase)
    case Raised => (w, client.phase)
  }

  function NextSystem(c: Config, g: Guard, s: System, m: Move): System {
    if m.client !in s.clients then s
    else
      var client := s.clients[m.client];
      var (w, phase) := Advance(c, g, s.world, client, m);
      System(w, s.clients[m.client := client.(phase := phase)])
  }

  function Perform(c: Config, g: Guard, s: System, moves: seq<Move>): System {
    if moves == [] then s else NextSystem(c, g, Perform(c, g, s, moves[..|moves| - 1]), moves[|moves| - 1])
  }

  /** Any number of clients about to resolve, and an empty cache. */
  ghost predicate Initial(s: System) {
    s.world == EMPTY && forall p | p in s.clients :: s.clients[p].phase == Start
  }

  // ----- invariant -----

  /** A stored artifact was made for its own key. */
  ghost predicate RowsOwn(rows: Rows) {
    forall k | k in rows && rows[k].artifact.Some? :: rows[k].artifact.value.plan == k
  }

  /** A durable answer is the row's, stripped; every answer passed its firewall. */
  ghost predicate Answered(g: Guard, rows: Rows, client: Client) {
    match client.phase
    case Done(r) =>
      && g.passes(client.request.firewall, r.output)
      && (Durable(r.status) ==>
            && client.request.key in rows && rows[client.request.key].status == Ready
            && rows[client.request.key].artifact.Some?
            && r.output == g.strip(rows[client.request.key].artifact.value.output))
    case Generating(lease) => lease.key == client.request.key
    case Storing(lease, a, _) => lease.key == client.request.key && a.plan == client.request.key
    case Lost(lease, _) => lease.key == client.request.key
    case _ => true
  }

  ghost predicate SystemInv(g: Guard, s: System) {
    RowsOwn(s.world.rows) && forall p | p in s.clients :: Answered(g, s.world.rows, s.clients[p])
  }

  /** Rows that were ready stay as they are. */
  ghost predicate KeepsReady(before: Rows, after: Rows) {
    forall k | k in before && before[k].status == Ready :: k in after && after[k] == before[k]
  }

  /** What a client's step owes the others. */
  ghost predicate Fair(g: Guard, r: Request, w: World, step: (World, Phase)) {
    && RowsOwn(step.0.rows) && KeepsReady(w.rows, step.0.rows)
    && Answered(g, step.0.rows, Client(r, step.1))
  }

  lemma FallbackIsAnswered(g: Guard, r: Request, rows: Rows, text: string, status: Status)
    requires Stable(g) && !Durable(status)
    ensures Answered(g, rows, Client(r, Fallback(g, r, text, status)))
  {}

  lemma ServeIsAnswered(g: Guard, r: Request, rows: Rows, a: Artifact)
    requires Stable(g) && GetReady(rows, r.key) == Some(a)
    ensures Answered(g, rows, Client(r, Serve(g, r, a)))
  {}

  lemma BeginIsAnswered(g: Guard, r: Request, rows: Rows, fault: Fault)
    requires Stable(g)
    ensures Answered(g, rows, Client(r, Begin(g, r, rows, fault)))
  {}

  lemma CallsKeepRows(c: Config, w: World, call: Call)
    requires RowsOwn(w.rows) && (call.CallComplete? ==> call.artifact.plan == call.lease.key)
    ensures RowsOwn(Step(c, w, call).rows) && KeepsReady(w.rows, Step(c, w, call).rows)
  {}

  lemma AcquireIsFair(c: Config, g: Guard, r: Request, w: World, m: Move)
    requires Stable(g) && RowsOwn(w.rows)
    ensures Fair(g, r, w, TryAcquire(c, g, r, w, m))
  {
    hide Fallback, Serve, Stable, RowsOwn, KeepsReady;
    CallsKeepRows(c, w, CallAcquire(r.key, m.now, m.token));
    var n := Step(c, w, CallAcquire(r.key, m.now, m.token));
    NothingHappensFairly(w);
    FallbackIsAnswered(g, r, w.rows, r.fallback, StatusReviewed);
    FallbackIsAnswered(g, r, n.rows, r.fallback, StatusReviewed);
    FallbackIsAnswered(g, r, n.rows, r.fallback, StatusContended);
    if GetReady(w.rows, r.key).Some? { ServeIsAnswered(g, r, w.rows, GetReady(w.rows, r.key).value); }
  }

  lemma NothingHappensFairly(w: World)
    ensures KeepsReady(w.rows, w.rows)
  {}

  lemma GenerateIsFair(c: Config, g: Guard, r: Request, w: World, lease: Lease, m: Move)
    requires Stable(g) && RowsOwn(w.rows) && lease.key == r.key
    ensures Fair(g, r, w, Generate(c, g, r, w, lease, m))
  {}

  lemma StoreIsFair(c: Config, g: Guard, r: Request, w: World, lease: Lease, a: Artifact, seeded: bool, m: Move)
    requires Stable(g) && RowsOwn(w.rows) && lease.key == r.key && a.plan == r.key
    ensures Fair(g, r, w, Store(c, g, r, w, lease, a, seeded, m))
  {
    hide RowsOwn, KeepsReady;
    CallsKeepRows(c, w, CallComplete(lease, a, m.now));
    NothingHappensFairly(w);
  }

  lemma LossIsFair(c: Config, g: Guard, r: Request, w: World, lease: Lease, seeded: bool, m: Move)
    requires Stable(g) && RowsOwn(w.rows) && lease.key == r.key
    ensures Fair(g, r, w, AfterLoss(c, g, r, w, lease, seeded, m))
  {}

  lemma AdvanceKeeps(c: Config, g: Guard, w: World, client: Client, m: Move)
    requires Stable(g) && RowsOwn(w.rows) && Answered(g, w.rows, client)
    ensures Fair(g, client.request, w, Advance(c, g, w, client, m))
  {
    hide Stable, RowsOwn, KeepsReady, Begin, TryAcquire, Generate, Store, AfterLoss;
    NothingHappensFairly(w);
    var r := client.request;
    match client.phase
    case Start => BeginIsAnswered(g, r, w.rows, m.fault);
    case Missed => AcquireIsFair(c, g, r, w, m);
    case Generating(lease) => GenerateIsFair(c, g, r, w, lease, m);
    case Storing(lease, a, seeded) => StoreIsFair(c, g, r, w, lease, a, seeded, m);
    case Lost(lease, seeded) => LossIsFair(c, g, r, w, lease, seeded, m);
    case Done(_) =>
    case Raised =>
  }

  lemma StepKeepsSystem(c: Config, g: Guard, s: System, m: Move)
    requires Stable(g) && SystemInv(g, s)
    ensures SystemInv(g, NextSystem(c, g, s, m)) && KeepsReady(s.world.rows, NextSystem(c, g, s, m).world.rows)
  {
    hide Advance, RowsOwn, Stable;
    if m.client in s.clients {
      AdvanceKeeps(c, g, s.world, s.clients[m.client], m);
    }
  }

  lemma {:induction false} EverySystemKeepsInv(c: Config, g: Guard, s: System, moves: seq<Move>)
    requires Stable(g) && Initial(s)
    ensures SystemInv(g, Perform(c, g, s, moves))
  {
    hide NextSystem;
    if moves != [] {
      EverySystemKeepsInv(c, g, s, moves[..|moves| - 1]);
      StepKeepsSystem(c, g, Perform(c, g, s, moves[..|moves| - 1]), moves[|moves| - 1]);
    }
  }

  // ----- guarantees -----

  /** Whatever `resolve` returns, under any interleaving and any faults, has passed its output firewall. */
  lemma ReturnedOutputsPass(c: Config, g: Guard, s: System, moves: seq<Move>, p: nat)
    requires Stable(g) && Initial(s)
    requires var n := Perform(c, g, s, moves); p in n.clients && n.clients[p].phase.Done?
    ensures var n := Perform(c, g, s, moves);
            g.passes(n.clients[p].request.firewall, n.clients[p].phase.resolution.output)
  {
    hide Perform;
    EverySystemKeepsInv(c, g, s, moves);
    assert Answered(g, Perform(c, g, s, moves).world.rows, Perform(c, g, s, moves).clients[p]);
  }

  /** Two resolutions of one plan that report a hit, a generation or a seed return the same text: the durable row's. */
  lemma DurableAnswersAgree(c: Config, g: Guard, s: System, moves: seq<Move>, p: nat, q: nat)
    requires Stable(g) && Initial(s)
    requires var n := Perform(c, g, s, moves);
             && p in n.clients && n.clients[p].phase.Done? && Durable(n.clients[p].phase.resolution.status)
             && q in n.clients && n.clients[q].phase.Done? && Durable(n.clients[q].phase.resolution.status)
             && n.clients[p].request.key == n.clients[q].request.key
    ensures var n := Perform(c, g, s, moves);
            var row := GetReady(n.world.rows, n.clients[p].request.key);
            && row.Some?
            && n.clients[p].phase.resolution.output == n.clients[q].phase.resolution.output == g.strip(row.value.output)
  {
    hide Perform;
    EverySystemKeepsInv(c, g, s, moves);
    var n := Perform(c, g, s, moves);
    assert Answered(g, n.world.rows, n.clients[p]) && Answered(g, n.world.rows, n.clients[q]);
  }

  lemma {:induction false} AnswersStay(c: Config, g: Guard, s: System, moves: seq<Move>, p: nat)
    requires p in s.clients && s.clients[p].phase.Done?
    ensures p in Perform(c, g, s, moves).clients && Perform(c, g, s, moves).clients[p] == s.clients[p]
  {
    hide Begin, TryAcquire, Generate, Store, AfterLoss;
    if moves != [] {
      AnswersStay(c, g, s, moves[..|moves| - 1], p);
    }
  }
}
