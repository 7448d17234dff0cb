/** The bounded understanding pass: at most two model calls, claims admitted once and never lost. */
module Understanding {
  import opened Common
  import opened Content
  import opened Ledgers
  import opened LedgerOperations
  import opened Ladders
  import opened Turns
  import opened EvidenceGuard
  import opened Json

  /** One call of the understanding model: any response, or a timeout, outage or malformed output. */
  datatype ModelOutcome = Failure | Candidate(response: Response)

  // ----- merging a repair into what was admitted -----

  function MergeClaims(base: seq<Claim>, added: seq<Claim>): seq<Claim> {
    if added == [] then base
    else
      var merged := MergeClaims(base, added[..|added| - 1]);
      var last := added[|added| - 1];
      if last.claimId in ClaimIds(merged) then merged else merged + [last]
  }

  lemma ClaimIdsSnoc(claims: seq<Claim>, c: Claim)
    ensures ClaimIds(claims + [c]) == ClaimIds(claims) + {c.claimId}
  {}

  /** Admitted claims stay in front, unchanged; of the repair only claims with new ids are appended. */
  lemma {:induction false} MergeClaimsIs(base: seq<Claim>, added: seq<Claim>)
    requires UniqueClaimIds(base)
    ensures var m := MergeClaims(base, added);
            && base <= m
            && UniqueClaimIds(m)
            && ClaimIds(m) == ClaimIds(base) + ClaimIds(added)
            && (forall c | c in m :: c in base || c in added)
            && (forall i :: |base| <= i < |m| ==> m[i] in added && m[i].claimId !in ClaimIds(base))
  {
    if added != [] {
      var front := added[..|added| - 1];
      var last := added[|added| - 1];
      MergeClaimsIs(base, front);
      assert added == front + [last];
      ClaimIdsSnoc(front, last);
      ClaimIdsSnoc(MergeClaims(base, front), last);
      var m := MergeClaims(base, front);
      forall i | 0 <= i < |m| && last.claimId !in ClaimIds(m) ensures m[i].claimId != last.claimId {
        assert m[i] in m;
      }
    }
  }

  /** The first match of each claim in `matches`. */
  function Lookup(claims: seq<Claim>, matches: seq<Match>): (r: seq<Match>)
    requires ClaimIds(claims) <= MatchIds(matches)
    ensures |r| == |claims|
    ensures forall i :: 0 <= i < |r| ==>
            r[i].claimId == claims[i].claimId && r[i].range == RangeOf(matches, r[i].claimId)
  {
    seq(|claims|, i requires 0 <= i < |claims| =>
      assert claims[i] in claims && claims[i].claimId in ClaimIds(claims);
      Match(claims[i].claimId, RangeOf(matches, claims[i].claimId)))
  }

  lemma MatchIdsConcat(a: seq<Match>, b: seq<Match>)
    ensures MatchIds(a + b) == MatchIds(a) + MatchIds(b)
  {}

  lemma {:induction false} RangeOfPrefix(a: seq<Match>, b: seq<Match>, id: string)
    requires id in MatchIds(a)
    ensures id in MatchIds(a + b) && RangeOf(a + b, id) == RangeOf(a, id)
  {
    MatchIdsConcat(a, b);
    if a[0].claimId != id {
      assert a == [a[0]] + a[1..];
      assert (a + b)[1..] == a[1..] + b;
      RangeOfPrefix(a[1..], b, id);
    }
  }

  /** An admitted response: claims with unique ids, one match each. */
  ghost predicate Accounted(g: GuardedResponse) {
    OneMatchPerClaim(Guarded(g.response.claims, g.matches)) && UniqueClaimIds(g.response.claims)
  }

  /** `_merge_admitted_understanding` */
  function Merge(existing: Option<GuardedResponse>, current: GuardedResponse): GuardedResponse
    requires Accounted(current) && (existing.Some? ==> Accounted(existing.value))
  {
    match existing
    case None => current
    case Some(e) =>
      MergeClaimsIs(e.response.claims, current.response.claims);
      MatchIdsConcat(e.matches, current.matches);
      var claims := MergeClaims(e.response.claims, current.response.claims);
      GuardedResponse(
        e.response.(claims := claims, containsEvidence := claims != [],
                    ui := if e.response.ui.Some? then e.response.ui else current.response.ui),
        Lookup(claims, e.matches + current.matches))
  }

  /** A repair never revises an admitted claim or its evidence, and the merge has exactly one match per claim. */
  lemma MergeIsMonotone(existing: GuardedResponse, current: GuardedResponse)
    requires Accounted(existing) && Accounted(current)
    ensures var m := Merge(Some(existing), current);
            && Accounted(m)
            && existing.response.claims <= m.response.claims
            && (forall i :: 0 <= i < |existing.response.claims| ==>
                  m.matches[i] == Match(existing.response.claims[i].claimId,
                    RangeOf(existing.matches, existing.response.claims[i].claimId)))
            && (forall c | c in current.response.claims && c.claimId !in ClaimIds(existing.response.claims) ::
                 c in m.response.claims)
  {
    MergeClaimsIs(existing.response.claims, current.response.claims);
    MatchIdsConcat(existing.matches, current.matches);
    var m := Merge(Some(existing), current);
    var claims := m.response.claims;
    forall id ensures id in MatchIds(m.matches) <==> id in ClaimIds(claims) {
      if id in ClaimIds(claims) {
        var i :| 0 <= i < |claims| && claims[i].claimId == id;
        assert m.matches[i] in m.matches;
      }
    }
    forall i | 0 <= i < |existing.response.claims|
      ensures m.matches[i].range == RangeOf(existing.matches, existing.response.claims[i].claimId)
    {
      var c := existing.response.claims[i];
      assert c in existing.response.claims && c.claimId in ClaimIds(existing.response.claims);
      RangeOfPrefix(existing.matches, current.matches, c.claimId);
      assert claims[i] == c;
    }
    forall c | c in current.response.claims && c.claimId !in ClaimIds(existing.response.claims) ensures c in claims {
      assert c.claimId in ClaimIds(claims);
      var d :| d in claims && d.claimId == c.claimId;
      assert d in existing.response.claims ==> d.claimId in ClaimIds(existing.response.claims);
      assert d in current.response.claims;
    }
  }

  // ----- one attempt -----

  datatype Attempt = Done(outcome: Understood) | Retry(admitted: Option<GuardedResponse>)

  predicate SocialRoute(r: Response) {
    RouteFor(r) in {BridgeRoute, SafetyRoute}
  }

  function Settled(g: GuardedResponse): Understood {
    Admission(g.response, g.matches)
  }

  /** What the provider schema guarantees of a candidate. */
  ghost predicate SchemaValid(o: ModelOutcome) {
    o.Candidate? ==> UniqueClaimIds(o.response.claims) && (o.response.claims != [] ==> o.response.containsEvidence)
  }

  function Retried(rules: Rules, req: Request, admitted: Option<GuardedResponse>, c: Response): GuardedResponse
    requires UniqueClaimIds(c.claims) && (admitted.Some? ==> Accounted(admitted.value))
  {
    AdmissionIsGuarded(rules, req, c);
    Merge(admitted, Admit(rules, req, c).guarded)
  }

  /** `_understand_attempt` */
  function AttemptOnce(rules: Rules, req: Request, admitted: Option<GuardedResponse>, o: ModelOutcome,
      attempt: nat): Attempt
    requires SchemaValid(o) && (admitted.Some? ==> Accounted(admitted.value))
  {
    match o
    case Failure => if admitted.Some? then Done(Settled(admitted.value)) else Done(Unavailable)
    case Candidate(c) =>
      if SocialRoute(c) && admitted.None? then Done(Unguarded(c))
      else
        var needsRepair := Admit(rules, req, c).quarantined != [];
        var guarded := Retried(rules, req, admitted, c);
        if needsRepair && attempt == 1 then Retry(if guarded.response.claims != [] then Some(guarded) else None)
        else if guarded.response.claims == [] && needsRepair then Done(Unavailable)
        else Done(Settled(guarded))
  }

  /** Mutable context of one understanding pass. */
  class AttemptContext {
    var admitted: Option<GuardedResponse>
    var attempt: nat
    var result: Option<Understood>

    constructor ()
      ensures admitted == None && attempt == 0 && result == None
    {
      admitted, attempt, result := None, 0, None;
    }

    method Try(rules: Rules, req: Request, o: ModelOutcome)
      requires SchemaValid(o) && (admitted.Some? ==> Accounted(admitted.value))
      modifies this
      ensures attempt == old(attempt) + 1
      ensures match AttemptOnce(rules, req, old(admitted), o, attempt)
              case Done(u) => result == Some(u)
              case Retry(a) => result == None && admitted == a && (a.Some? ==> Accounted(a.value))
    {
      attempt := attempt + 1;
      match o {
        case Failure =>
          result := Some(if admitted.Some? then Settled(admitted.value) else Unavailable);
        case Candidate(c) =>
          if SocialRoute(c) && admitted.None? {
            result := Some(Unguarded(c));
            return;
          }
          var admission := AdmitResponse(rules, req, c);
          AdmissionIsGuarded(rules, req, c);
          if admitted.Some? { MergeIsMonotone(admitted.value, admission.guarded); }
          var guarded := Merge(admitted, admission.guarded);
          if admission.quarantined != [] && attempt == 1 {
            admitted := if guarded.response.claims != [] then Some(guarded) else None;
            result := None;
            return;
          }
          if guarded.response.claims == [] && admission.quarantined != [] {
            result := Some(Unavailable);
            return;
          }
          admitted := Some(guarded);
          result := Some(Settled(guarded));
      }
    }
  }

  /** The two-attempt loop as a function of the two model outcomes; the second is used only on a repair. */
  function Understand(rules: Rules, req: Request, first: ModelOutcome, second: ModelOutcome): Understood
    requires SchemaValid(first) && SchemaValid(second)
  {
    match AttemptOnce(rules, req, None, first, 1)
    case Done(u) => u
    case Retry(a) =>
      RetryKeepsAccount(rules, req, first);
      (match AttemptOnce(rules, req, a, second, 2)
       case Done(u) => u
       case Retry(_) => Unavailable)
  }

  lemma RetryKeepsAccount(rules: Rules, req: Request, first: ModelOutcome)
    requires SchemaValid(first)
    ensures match AttemptOnce(rules, req, None, first, 1)
            case Retry(Some(a)) =>
              && Accounted(a) && first.Candidate? && a == Admit(rules, req, first.response).guarded
                   && a.response.claims != []
            case _ => true
  {
    if first.Candidate? { AdmissionIsGuarded(rules, req, first.response); }
  }

  /** `run_attempt_graph` over `_understand_attempt`. */
  method RunAttempts(rules: Rules, req: Request, first: ModelOutcome, second: ModelOutcome)
      returns (u: Understood, calls: nat)
    requires SchemaValid(first) && SchemaValid(second)
    ensures u == Understand(rules, req, first, second)
    ensures 1 <= calls <= 2
    ensures calls == 1 <==> AttemptOnce(rules, req, None, first, 1).Done?
  {
    var context := new AttemptContext();
    RetryKeepsAccount(rules, req, first);
    while context.result.None? && context.attempt < 2
      invariant context.attempt <= 2
      invariant context.attempt == 0 ==> context.admitted == None && context.result == None
      invariant context.attempt == 1 ==>
                  match AttemptOnce(rules, req, None, first, 1)
                  case Done(d) => context.result == Some(d)
                  case Retry(a) => context.result == None && context.admitted == a && (a.Some? ==> Accounted(a.value))
      invariant context.attempt == 2 ==>
                  && context.result == Some(Understand(rules, req, first, second))
                  && AttemptOnce(rules, req, None, first, 1).Retry?
      decreases 2 - context.attempt
    {
      context.Try(rules, req, if context.attempt == 0 then first else second);
    }
    u, calls := context.result.value, context.attempt;
  }

  // ----- guarantees -----

  /** A repair keeps every claim admitted on the first attempt, in place and with its evidence. */
  lemma RepairKeepsAdmitted(rules: Rules, req: Request, first: ModelOutcome, second: ModelOutcome)
    requires SchemaValid(first) && SchemaValid(second)
    requires AttemptOnce(rules, req, None, first, 1).Retry? && AttemptOnce(rules, req, None, first, 1).admitted.Some?
    ensures var kept := AttemptOnce(rules, req, None, first, 1).admitted.value;
            var u := Understand(rules, req, first, second);
            && Accounted(kept)
            && u.Admission?
            && OneMatchPerClaim(Guarded(u.response.claims, u.matches))
            && Pairs(Guarded(kept.response.claims, kept.matches)) <= Pairs(Guarded(u.response.claims, u.matches))
  {
    RetryKeepsAccount(rules, req, first);
    var kept := AttemptOnce(rules, req, None, first, 1).admitted.value;
    match second
    case Failure =>
    case Candidate(c) =>
      AdmissionIsGuarded(rules, req, c);
      var repair := Admit(rules, req, c).guarded;
      MergeIsMonotone(kept, repair);
      MergedPairs(kept, repair);
  }

  lemma UniqueMatch(g: Guarded, m: Match, n: Match)
    requires OneMatchPerClaim(g) && m in g.matches && n in g.matches && m.claimId == n.claimId
    ensures m == n
  {}

  lemma MergedPairs(kept: GuardedResponse, repair: GuardedResponse)
    requires Accounted(kept) && Accounted(repair)
    ensures Accounted(Merge(Some(kept), repair))
    ensures var m := Merge(Some(kept), repair);
            Pairs(Guarded(kept.response.claims, kept.matches)) <= Pairs(Guarded(m.response.claims, m.matches))
  {
    MergeIsMonotone(kept, repair);
    var m := Merge(Some(kept), repair);
    var before, after := Guarded(kept.response.claims, kept.matches), Guarded(m.response.claims, m.matches);
    forall i | 0 <= i < |before.claims| ensures Pairs(before)[i] == Pairs(after)[i] {
      var id := before.claims[i].claimId;
      assert before.claims[i] in before.claims && id in ClaimIds(before.claims) && id in MatchIds(before.matches);
      assert after.claims[i] == before.claims[i];
      UniqueMatch(before, Match(id, Pairs(before)[i].range), Match(id, RangeOf(kept.matches, id)));
      assert m.matches[i] in after.matches;
      UniqueMatch(after, m.matches[i], Match(id, Pairs(after)[i].range));
    }
  }

  ghost predicate AllAdmissible(rules: Rules, req: Request, claims: seq<Claim>) {
    forall c | c in claims :: Admissible(rules, req, c)
  }

  lemma MergeIsAdmissible(rules: Rules, req: Request, kept: GuardedResponse, repair: GuardedResponse)
    requires Accounted(kept) && Accounted(repair)
    requires AllAdmissible(rules, req, kept.response.claims) && AllAdmissible(rules, req, repair.response.claims)
    ensures AllAdmissible(rules, req, Merge(Some(kept), repair).response.claims)
  {
    hide Admissible, OneMatchPerClaim;
    MergeClaimsIs(kept.response.claims, repair.response.claims);
  }

  /** Every claim that reaches the ledger crossed the guard, on whichever attempt it came. */
  lemma UnderstoodIsAdmissible(rules: Rules, req: Request, first: ModelOutcome, second: ModelOutcome)
    requires SchemaValid(first) && SchemaValid(second)
    ensures var u := Understand(rules, req, first, second); u.Admission? ==>
            AllAdmissible(rules, req, u.response.claims)
  {
    hide Admit, Admissible, OneMatchPerClaim;
    if first.Candidate? { AdmissionIsGuarded(rules, req, first.response); }
    if second.Candidate? { AdmissionIsGuarded(rules, req, second.response); }
    match AttemptOnce(rules, req, None, first, 1) {
      case Done(_) =>
      case Retry(kept) =>
        RetryKeepsAccount(rules, req, first);
        if kept.Some? && second.Candidate? {
          MergeIsAdmissible(rules, req, kept.value, Admit(rules, req, second.response).guarded);
        }
    }
  }

  /** The request was built from the pack's graph. */
  ghost predicate OfPack(req: Request, pack: TaskPack) {
    req.factIds <= pack.facts.Keys && req.relationIds <= pack.relations
  }

  lemma AdmissibleIsInGraph(rules: Rules, req: Request, pack: TaskPack, claims: seq<Claim>)
    requires OfPack(req, pack) && AllAdmissible(rules, req, claims)
    ensures AboutGraph(pack, claims)
  {
    hide LiteralViolations;
    forall c | c in claims ensures InGraph(pack, c) {
      assert Admissible(rules, req, c);
    }
  }

  /** What the first attempt alone would verify is verified after the repair, and the repaired understanding applies
      unless its auxiliary evidence passes the limit: nothing else can go wrong, and then the first attempt applies
      too. */
  lemma RepairVerifiesNoLess(rules: Rules, req: Request, first: ModelOutcome, second: ModelOutcome,
                             pack: TaskPack, l: Ledger, turn: string)
    requires SchemaValid(first) && SchemaValid(second) && OfPack(req, pack) && Usable(pack, l) && GoodTurnId(turn)
    requires AttemptOnce(rules, req, None, first, 1).Retry? && AttemptOnce(rules, req, None, first, 1).admitted.Some?
    ensures var kept := AttemptOnce(rules, req, None, first, 1).admitted.value;
            var u := Understand(rules, req, first, second);
            u.Admission? && OneMatchPerClaim(Guarded(u.response.claims, u.matches)) &&
            var alone := Apply(pack, l, Guarded(kept.response.claims, kept.matches), turn);
            var repaired := Apply(pack, l, Guarded(u.response.claims, u.matches), turn);
            var fits := |l.auxiliary.Keys + AuxiliaryIds(turn,
              Pairs(Guarded(u.response.claims, u.matches)))| <= MAX_AUXILIARY;
            && (repaired.Ok? <==> fits) && (!fits ==> repaired == Err(TooMuchAuxiliary))
            && (fits ==> alone.Ok? && Extends(repaired.value.Ledger(), alone.value.Ledger())
                         && Verified(alone.value.Ledger()) <= Verified(repaired.value.Ledger()))
  {
    RepairKeepsAdmitted(rules, req, first, second);
    UnderstoodIsAdmissible(rules, req, first, second);
    var kept := AttemptOnce(rules, req, None, first, 1).admitted.value;
    var u := Understand(rules, req, first, second);
    hide *;
    UsableParts(pack, l);
    AccountedIsMatched(kept);
    AdmissibleIsInGraph(rules, req, pack, u.response.claims);
    ApplyIff(pack, l, Guarded(u.response.claims, u.matches), turn);
    PrefixVerifiesNoMore(pack, l, Guarded(kept.response.claims, kept.matches), Guarded(u.response.claims, u.matches),
      turn);
  }

  lemma UsableParts(pack: TaskPack, l: Ledger)
    requires Usable(pack, l)
    ensures WellFormed(l) && BoundTo(l, pack)
  {}

  lemma AccountedIsMatched(g: GuardedResponse)
    requires Accounted(g)
    ensures OneMatchPerClaim(Guarded(g.response.claims, g.matches))
  {}

  /** Fewer claims apply whenever more do, and verify no more. */
  lemma PrefixVerifiesNoMore(pack: TaskPack, l: Ledger, a: Guarded, b: Guarded, turn: string)
    requires WellFormed(l) && OneMatchPerClaim(a) && OneMatchPerClaim(b) && Pairs(a) <= Pairs(b)
    ensures Apply(pack, l, b, turn).Ok? ==>
              && Apply(pack, l, a, turn).Ok?
              && Extends(Apply(pack, l, b, turn).value.Ledger(), Apply(pack, l, a, turn).value.Ledger())
              && Verified(Apply(pack, l, a, turn).value.Ledger()) <= Verified(Apply(pack, l, b, turn).value.Ledger())
  {
    hide WellFormed, Extends, Storable, Pairs, Apply, ClaimFold, UnknownFactClaim;
    if Apply(pack, l, b, turn).Ok? {
      var rest := Pairs(b)[|Pairs(a)|..];
      assert Pairs(b) == Pairs(a) + rest;
      ApplyUnfolds(pack, l, b, turn);
      ApplyUnfolds(pack, l, a, turn);
      KnownInBoth(pack, Pairs(a), rest);
      FoldInTwoSteps(pack, turn, l, Pairs(a), rest);
      var m := ClaimFold(pack, turn, NoProgress(l), Pairs(a)).ledger;
      StorableBefore(pack, Apply(pack, l, b, turn).value.Ledger(), m);
      ExtendsVerified(Apply(pack, l, b, turn).value.Ledger(), m);
    }
  }

  /** With no card on screen no UI reference survives, except inside a safety response taken as it is. */
  lemma NoCardNoReference(rules: Rules, req: Request, first: ModelOutcome, second: ModelOutcome)
    requires SchemaValid(first) && SchemaValid(second) && req.visible == {}
    ensures match Understand(rules, req, first, second)
            case Unavailable => true
            case Unguarded(r) => RouteFor(r) == SafetyRoute || r.ui.None?
            case Admission(r, _) => r.ui.None?
  {}

  /** The UI elements the model may refer to: the open help card, if any. */
  function VisibleElements(hint: HintLevel): set<string> {
    match hint
    case H0 => {}
    case H1 => {"help_card.h1"}
    case H2 => {"help_card.h2"}
    case H3 => {"help_card.h3"}
  }

  /** Where a turn's understanding comes from, when the turn is spoken. */
  ghost predicate FromModel(rules: Rules, ladder: Ladder, t: Turn) {
    t.input.Speech? ==>
      exists req: Request, first, second ::
        && SchemaValid(first) && SchemaValid(second) && req.visible == VisibleElements(ladder.hint)
        && t.input.understood == Understand(rules, req, first, second)
  }

  /** Semantics built from the engine's own inputs are proper. */
  lemma EngineSemanticsAreProper(rules: Rules, pack: TaskPack, ladder: Ladder, subgoal: string, l: Ledger, t: Turn)
    requires forall p | p in pack.l3Plans :: |p.targets| == 1
    requires FromModel(rules, ladder, t) && Interpret(pack, ladder, subgoal, l, t).Ok?
    ensures Proper(ladder, Interpret(pack, ladder, subgoal, l, t).value)
  {
    hide Apply, ApplyStructured, ActiveL2Plan, CompletionOf, SameJson, Understand;
    if t.input.Speech? && ladder.hint == H0 {
      var req: Request, first, second :|
        && SchemaValid(first) && SchemaValid(second) && req.visible == VisibleElements(ladder.hint)
        && t.input.understood == Understand(rules, req, first, second);
      NoCardNoReference(rules, req, first, second);
    }
  }
}
