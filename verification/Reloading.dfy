/** Stored ledgers that can be loaded again. A turn copies an entry without checking it, so the limit on one entry's
    evidence is met only when the ledger is next loaded, at the start of the next turn. */
module Reloading {
  import opened Common
  import opened Content
  import opened Ledgers
  import opened LedgerOperations
  import opened Ladders
  import opened Questions
  import opened Turns
  import Home = HomeEngine
  import HomeRuns
  import opened LifeContent
  import opened LifeEngine
  import opened LifeTurns
  import opened LifeRuns
  import opened LifeCredit

  /** The entries of a ledger that hold evidence lists. */
  datatype Entry = OfFact(id: string) | OfRelation(id: string) | OfPartial(id: string)

  function Pieces(l: Ledger, e: Entry): nat {
    match e
    case OfFact(f) => if f in l.facts then |l.facts[f].evidence| else 0
    case OfRelation(r) => if r in l.relations then |l.relations[r]| else 0
    case OfPartial(r) => if r in l.partials then |l.partials[r]| else 0
  }

  const MAX_PIECES := 100

  /** What loading checks of the lists: none is longer than a hundred. */
  ghost predicate Loadable(l: Ledger) {
    forall e: Entry :: Pieces(l, e) <= MAX_PIECES
  }

  // ----- what a turn reports of one entry -----

  function Target(id: EvidenceId): string {
    match id
    case LiteralId(_, _, _, target, _) => target
    case StructuredId(_, _, key, _) => key.id
  }

  function Count(ids: seq<EvidenceId>, target: string): nat {
    if ids == [] then 0
    else Count(ids[..|ids| - 1], target) + if Target(ids[|ids| - 1]) == target then 1 else 0
  }

  /** The new pieces of evidence reported for the entry. */
  function Reported(p: Progress, e: Entry): nat {
    match e
    case OfFact(f) => Count(p.newFactEvidence, f)
    case OfRelation(r) => Count(p.newRelationEvidence, r)
    case OfPartial(r) => Count(p.newPartialEvidence, r)
  }

  lemma CountSnoc(ids: seq<EvidenceId>, id: EvidenceId, target: string)
    ensures Count(ids + [id], target) == Count(ids, target) + if Target(id) == target then 1 else 0
  {
    assert (ids + [id])[..|ids|] == ids;
  }

  /** What the entry holds beyond the report so far: fixed while evidence is recorded. */
  ghost predicate InStep(p: Progress, q: Progress, e: Entry) {
    Pieces(q.ledger, e) + Reported(p, e) == Pieces(p.ledger, e) + Reported(q, e)
  }

  lemma AddFactInStep(p: Progress, f: string, value: Value, milestone: bool, v: Evidence, e: Entry)
    requires Target(v.id) == f
    ensures InStep(p, AddFact(p, f, value, milestone, v), e)
  {
    hide Count, Target, Ids;
    CountSnoc(p.newFactEvidence, v.id, e.id);
  }

  lemma AddRelationInStep(p: Progress, r: string, v: Evidence, e: Entry)
    requires Target(v.id) == r
    ensures InStep(p, AddRelation(p, r, v), e)
  {
    hide Count, Target, Ids;
    CountSnoc(p.newRelationEvidence, v.id, e.id);
  }

  lemma AddPartialInStep(p: Progress, r: string, v: Evidence, e: Entry)
    requires Target(v.id) == r
    ensures InStep(p, AddPartial(p, r, v), e)
  {
    hide Count, Target, Ids;
    CountSnoc(p.newPartialEvidence, v.id, e.id);
  }

  lemma ClaimStepInStep(pack: TaskPack, turn: string, p: Progress, a: Admitted, e: Entry)
    requires !UnknownFactClaim(pack, a.claim)
    ensures InStep(p, ClaimStep(pack, turn, p, a), e)
  {
    hide AddFact, AddRelation, AddPartial, Count, Ids;
    var v := EvidenceFor(turn, a);
    var q := p.(claimEvidence := p.claimEvidence[a.claim.claimId := v.id]);
    match a.claim
    case FactClaim(_, f, _, _) =>
      if a.claim.verdict == Correct { AddFactInStep(q, f, pack.facts[f].value, pack.facts[f].milestone, v, e); }
    case RelationClaim(_, r, _, _) =>
      AddPartialInStep(q, r, v, e);
      AddRelationInStep(q, r, v, e);
    case AuxiliaryClaim(_, _, _) =>
  }

  lemma {:induction false} ClaimFoldInStep(pack: TaskPack, turn: string, p: Progress, claims: seq<Admitted>, e: Entry)
    requires AllFactsKnown(pack, claims)
    ensures InStep(p, ClaimFold(pack, turn, p, claims), e)
  {
    hide ClaimStep, Pieces, Reported;
    if claims != [] {
      var last := |claims| - 1;
      assert claims[last] in claims;
      ClaimFoldInStep(pack, turn, p, claims[..last], e);
      ClaimStepInStep(pack, turn, ClaimFold(pack, turn, p, claims[..last]), claims[last], e);
    }
  }

  lemma {:induction false} FactFoldInStep(pack: TaskPack, turn: string, source: SourceKind, p: Progress,
      values: seq<(string, Value)>, e: Entry)
    requires forall u | u in values :: u.0 in pack.facts
    ensures InStep(p, FactFold(pack, turn, source, p, values), e)
  {
    hide AddFact, Pieces, Reported;
    if values != [] {
      var front, last := values[..|values| - 1], values[|values| - 1];
      assert last in values;
      FactFoldInStep(pack, turn, source, p, front, e);
      AddFactInStep(FactFold(pack, turn, source, p, front), last.0, last.1, pack.facts[last.0].milestone,
        StructuredEvidence(turn, source, TargetKey(FactTarget, last.0), Some(last.1)), e);
    }
  }

  lemma {:induction false} RelationFoldInStep(turn: string, source: SourceKind, p: Progress, relations: seq<string>,
      e: Entry)
    ensures InStep(p, RelationFold(turn, source, p, relations), e)
  {
    hide AddRelation, Pieces, Reported;
    if relations != [] {
      var front, last := relations[..|relations| - 1], relations[|relations| - 1];
      RelationFoldInStep(turn, source, p, front, e);
      AddRelationInStep(RelationFold(turn, source, p, front), last,
        StructuredEvidence(turn, source, TargetKey(RelationTarget, last), None), e);
    }
  }

  /** An entry grows by exactly the evidence the turn reports for it. */
  ghost predicate Grows(l: Ledger, a: Applied, e: Entry) {
    Pieces(a.Ledger(), e) == Pieces(l, e) + Reported(a.progress, e)
  }

  lemma ApplyGrows(pack: TaskPack, l: Ledger, g: Guarded, turn: string, e: Entry)
    requires Apply(pack, l, g, turn).Ok?
    ensures Grows(l, Apply(pack, l, g, turn).value, e)
  {
    hide ClaimFold, BoundTo, OneMatchPerClaim, Pairs, CompletionOf, Complete, Pieces;
    ClaimFoldInStep(pack, turn, NoProgress(l), Pairs(g), e);
  }

  lemma ApplyStructuredGrows(pack: TaskPack, l: Ledger, values: seq<(string, Value)>, relations: seq<string>,
      turn: string, source: SourceKind, e: Entry)
    requires ApplyStructured(pack, l, values, relations, turn, source).Ok?
    ensures Grows(l, ApplyStructured(pack, l, values, relations, turn, source).value, e)
  {
    hide FactFold, RelationFold, BoundTo, CompletionOf, Complete, Pieces;
    FactFoldInStep(pack, turn, source, NoProgress(l), values, e);
    RelationFoldInStep(turn, source, FactFold(pack, turn, source, NoProgress(l), values), relations, e);
  }

  /** However a turn is answered, an entry of its ledger grows by exactly the evidence reported for it. */
  lemma InterpretGrows(pack: TaskPack, ladder: Ladder, subgoal: string, l: Ledger, t: Turn, e: Entry)
    requires forall p | p in pack.l3Plans :: |p.targets| == 1
    requires Interpret(pack, ladder, subgoal, l, t).Ok?
    ensures Grows(l, Interpret(pack, ladder, subgoal, l, t).value.applied, e)
  {
    hide Apply, ApplyStructured, CompletionOf, ActiveL2Plan, Pieces, RouteFor;
    match t.input
    case Speech(u) =>
      if u.Admission? { ApplyGrows(pack, l, Guarded(u.response.claims, u.matches), t.id, e); }
    case NoAnswer(_) =>
    case Pick(ids) =>
      var plan := ActiveL2Plan(pack, ladder, subgoal, l).value;
      var f := FindChoice(plan.choices, ids[0]).value.effect;
      if f.correct { ApplyStructuredGrows(pack, l, f.facts, f.relations, t.id, ChoiceSource, e); }
    case Action(_) =>
      ApplyStructuredGrows(pack, l, JointValues(pack.joint), JointlyPerformed(pack), t.id, JointSource, e);
  }

  // ----- home conversations -----

  /** The evidence reported for the entry in the first `n` turns. */
  ghost function GivenFor(pack: TaskPack, states: seq<Home.State>, turns: seq<Turn>, n: nat, e: Entry): nat
    requires Home.HomeValid(pack) && HomeRuns.Run(pack, states, turns) && n <= |turns|
  {
    if n == 0 then 0
    else
      assert turns[n - 1] == turns[n - 1];
      GivenFor(pack, states, turns, n - 1, e)
      + Reported(HomeRuns.SemanticsAt(pack, states[n - 1], turns[n - 1]).applied.progress, e)
  }

  lemma {:induction false} RunPieces(pack: TaskPack, states: seq<Home.State>, turns: seq<Turn>, n: nat, e: Entry)
    requires Home.HomeValid(pack) && HomeRuns.Run(pack, states, turns) && n <= |turns|
    ensures Pieces(states[n].ledger, e) == Pieces(states[0].ledger, e) + GivenFor(pack, states, turns, n, e)
  {
    hide Home.HomeValid, Home.NextState, Pieces, Reported, HomeRuns.SemanticsAt;
    if n > 0 {
      RunPieces(pack, states, turns, n - 1, e);
      Home.ValidAsksOne(pack);
      assert turns[n - 1] == turns[n - 1];
      HomeTurnGrows(pack, states[n - 1], turns[n - 1], e);
    }
  }

  lemma HomePieces(pack: TaskPack, level: ExpressionLevel, states: seq<Home.State>, turns: seq<Turn>, n: nat, e: Entry)
    requires Home.HomeValid(pack) && HomeRuns.RunFromStart(pack, level, states, turns) && n <= |turns|
    ensures Pieces(states[n].ledger, e) == GivenFor(pack, states, turns, n, e)
  {
    hide Home.HomeValid, Home.NextState, Home.Initial, Pieces, GivenFor;
    Home.ValidAsksOne(pack);
    RunPieces(pack, states, turns, n, e);
    HomeStartEmpty(pack, level, states[0], e);
  }

  lemma NothingHeld(pack: TaskPack, e: Entry)
    ensures Pieces(EmptyLedger(pack), e) == 0
  {}

  lemma HomeStartEmpty(pack: TaskPack, level: ExpressionLevel, s: Home.State, e: Entry)
    requires (forall p | p in pack.l3Plans :: |p.targets| == 1) && Home.Initial(pack, level) == Ok(s)
    ensures Pieces(s.ledger, e) == 0
  {
    hide Home.Initial, Pieces, LadderOk, HomeRuns.QuestionBound, EmptyLedger;
    HomeRuns.InitialShape(pack, level);
    NothingHeld(pack, e);
  }

  lemma HomeTurnGrows(pack: TaskPack, s: Home.State, t: Turn, e: Entry)
    requires Home.HomeValid(pack) && (forall p | p in pack.l3Plans :: |p.targets| == 1)
    requires Home.NextState(pack, s, t).Ok?
    ensures Pieces(Home.NextState(pack, s, t).value.ledger, e)
         == Pieces(s.ledger, e) + Reported(HomeRuns.SemanticsAt(pack, s, t).applied.progress, e)
  {
    hide Home.HomeValid, Interpret, Home.Conclude, Pieces, Reported;
    InterpretGrows(pack, s.ladder, s.subgoal, s.ledger, t, e);
    ConcludeStores(pack, s, HomeRuns.SemanticsAt(pack, s, t));
  }

  lemma ConcludeStores(pack: TaskPack, s: Home.State, sem: Semantics)
    requires (forall p | p in pack.l3Plans :: |p.targets| == 1) && Home.Conclude(pack, s, sem).Ok?
    ensures Home.Conclude(pack, s, sem).value.ledger == sem.applied.Ledger()
  {
    hide Policy, SpeechFailure, Ask, CompletionOf, Home.ChildNotes, Home.SupportedNotes, Home.Prewarmed;
  }

  lemma HomeGivenGrows(pack: TaskPack, states: seq<Home.State>, turns: seq<Turn>, n: nat, e: Entry)
    requires Home.HomeValid(pack) && HomeRuns.Run(pack, states, turns) && n < |turns|
    ensures GivenFor(pack, states, turns, n, e) <= GivenFor(pack, states, turns, n + 1, e)
  {
    hide Home.HomeValid, Home.NextState, Reported, HomeRuns.SemanticsAt;
  }

  /** No entry was given more than a hundred pieces of evidence in the first `n` turns. */
  ghost predicate FewGiven(pack: TaskPack, states: seq<Home.State>, turns: seq<Turn>, n: nat)
    requires Home.HomeValid(pack) && HomeRuns.Run(pack, states, turns) && n <= |turns|
  {
    forall e :: GivenFor(pack, states, turns, n, e) <= MAX_PIECES
  }

  /** A home conversation's stored state can be loaded again after `n` turns iff no entry was given more than a hundred
      pieces of evidence in them; and once it cannot, it never can. */
  lemma HomeLoadsAgainIff(pack: TaskPack, level: ExpressionLevel, states: seq<Home.State>, turns: seq<Turn>, n: nat)
    requires Home.HomeValid(pack) && HomeRuns.RunFromStart(pack, level, states, turns) && n <= |turns|
    ensures Loadable(states[n].ledger) <==> FewGiven(pack, states, turns, n)
    ensures n > 0 && Loadable(states[n].ledger) ==> Loadable(states[n - 1].ledger)
  {
    hide Home.HomeValid, Home.Initial, Home.NextState, Pieces;
    if Loadable(states[n].ledger) {
      forall e ensures GivenFor(pack, states, turns, n, e) <= MAX_PIECES {
        HomePieces(pack, level, states, turns, n, e);
        assert Pieces(states[n].ledger, e) <= MAX_PIECES;
      }
      if n > 0 {
        var before := states[n - 1].ledger;
        forall e ensures Pieces(before, e) <= MAX_PIECES {
          HomePieces(pack, level, states, turns, n - 1, e);
          HomeGivenGrows(pack, states, turns, n - 1, e);
        }
      }
    }
    if FewGiven(pack, states, turns, n) {
      forall e ensures Pieces(states[n].ledger, e) <= MAX_PIECES {
        HomePieces(pack, level, states, turns, n, e);
        assert GivenFor(pack, states, turns, n, e) <= MAX_PIECES;
      }
    }
  }

  // ----- life conversations -----

  /** The evidence reported for the entry in the turns among the first `n` that were taken in task `i`. */
  ghost function TaskGivenFor(sc: Scenario, states: seq<LifeState>, turns: seq<Turn>, n: nat, i: nat, e: Entry): nat
    requires RunFromStart(sc, states, turns) && n <= |turns|
  {
    if n == 0 then 0
    else
      assert turns[n - 1] == turns[n - 1];
      TaskGivenFor(sc, states, turns, n - 1, i, e)
      + if states[n - 1].index == i then Reported(SemanticsAt(sc, states[n - 1], turns[n - 1]).applied.progress, e)
        else 0
  }

  lemma LifeTurnGrows(sc: Scenario, s: LifeState, t: Turn, e: Entry)
    requires Placed(sc, s) && !s.completed && NextState(sc, s, t).Ok?
    ensures Grows(CurrentLedger(sc, s), SemanticsAt(sc, s, t).applied, e)
  {
    hide Placed, Interpret, Conclude, Grows, Current, CurrentLedger;
    InterpretGrows(Current(sc, s), s.ladder, s.subgoal, CurrentLedger(sc, s), t, e);
  }

  /** A task not reached yet holds nothing. */
  lemma StageEmpty(sc: Scenario, s: LifeState, i: nat, e: Entry)
    requires Inv(sc, s) && Placed(sc, s) && s.index < i < |sc.stages|
    ensures Pieces(LedgerOf(sc, s, sc.stages[i]), e) == 0
  {
    hide Placed, CourseInv, PackOf, LedgerOf, NotesOf, Pieces, EmptyLedger;
    assert TaskInv(sc, s, i);
    NothingHeld(PackOf(sc, s, sc.stages[i]), e);
  }

  /** Nor does a task just entered. */
  lemma EnteredEmpty(sc: Scenario, s: LifeState, n: LifeState, sem: Semantics, e: Entry)
    requires Placed(sc, s) && Advanced(sc, s, n, sem) && n.index != s.index
    ensures Pieces(LedgerOf(sc, n, sc.stages[n.index]), e) == 0
  {
    hide Runnable, InUse, PackOf, LedgerOf, NotesOf, Pieces, EmptyLedger, TaskTurned, CreditTurned, OthersSame, Done,
         QuestionBound, EntryLadder;
    CurrentIs(sc, n);
    NothingHeld(Current(sc, n), e);
  }

  /** What a turn does to the entry in task `i`, current or not. */
  lemma TaskPiecesStep(sc: Scenario, s: LifeState, t: Turn, i: nat, e: Entry)
    requires sc.Valid() && Inv(sc, s) && Placed(sc, s) && !s.completed && NextState(sc, s, t).Ok? && i < |sc.stages|
    requires Inv(sc, NextState(sc, s, t).value) && Placed(sc, NextState(sc, s, t).value) && s.index < |sc.stages|
    ensures var n := NextState(sc, s, t).value;
            Pieces(LedgerOf(sc, n, sc.stages[i]), e)
            == Pieces(LedgerOf(sc, s, sc.stages[i]), e)
               + if s.index == i then Reported(SemanticsAt(sc, s, t).applied.progress, e) else 0
  {
    hide Scenario.Valid, Placed, Inv, NextState, Sound, Evidenced, CreditTurned, QuestionBound, SemanticsAt, PackOf,
         LedgerOf, NotesOf, Done, Current, CurrentLedger, Pieces, Reported, Policy, Runnable, TaskInv, EmptyLedger;
    var n := NextState(sc, s, t).value;
    TurnAdvances(sc, s, t);
    TurnMoves(sc, s, t);
    LifeTurnGrows(sc, s, t, e);
    CurrentIs(sc, s);
    if i != s.index {
      if i == n.index {
        StageEmpty(sc, s, i, e);
        EnteredEmpty(sc, s, n, SemanticsAt(sc, s, t), e);
      } else {
        assert SameTask(sc, s, n, sc.stages[i]);
      }
    }
  }

  lemma {:induction false} TaskPieces(sc: Scenario, states: seq<LifeState>, turns: seq<Turn>, n: nat, i: nat, e: Entry)
    requires sc.Valid() && RunFromStart(sc, states, turns) && n <= |turns| && i < |sc.stages|
    ensures Placed(sc, states[n])
    ensures Pieces(LedgerOf(sc, states[n], sc.stages[i]), e) == TaskGivenFor(sc, states, turns, n, i, e)
  {
    hide Scenario.Valid, Placed, Inv, Initial, NextState, SemanticsAt, LedgerOf, Pieces, Reported;
    RunKeepsInv(sc, states, turns, n);
    InvPlaced(sc, states[n]);
    if n == 0 {
      InitialEmpty(sc, states[0], i, e);
    } else {
      TaskPieces(sc, states, turns, n - 1, i, e);
      At(sc, states, turns, n - 1);
      InvPlaced(sc, states[n - 1]);
      TaskPiecesStep(sc, states[n - 1], turns[n - 1], i, e);
    }
  }

  lemma InitialEmpty(sc: Scenario, s: LifeState, i: nat, e: Entry)
    requires sc.Valid() && Runnable(sc) && Initial(sc) == Ok(s) && Placed(sc, s) && i < |sc.stages|
    ensures Pieces(LedgerOf(sc, s, sc.stages[i]), e) == 0
  {
    hide Scenario.Valid, Runnable, InUse, Initial, Start, EntriesOpen, QuestionBound, EmptyLedger, Pieces, PackOf,
         LedgerOf, NotesOf, LadderOk;
    ValidEntriesOpen(sc);
    InitialShape(sc);
    StartIsFresh(sc, i);
    SameMaps(sc, Start(sc), s, sc.stages[i]);
    NothingHeld(PackOf(sc, s, sc.stages[i]), e);
  }

  lemma TaskGivenGrows(sc: Scenario, states: seq<LifeState>, turns: seq<Turn>, n: nat, i: nat, e: Entry)
    requires RunFromStart(sc, states, turns) && n < |turns|
    ensures TaskGivenFor(sc, states, turns, n, i, e) <= TaskGivenFor(sc, states, turns, n + 1, i, e)
  {
    hide Placed, Initial, NextState, Reported, SemanticsAt;
  }

  /** No entry was given more than a hundred pieces of evidence in the turns of task `i` among the first `n`. */
  ghost predicate FewGivenIn(sc: Scenario, states: seq<LifeState>, turns: seq<Turn>, n: nat, i: nat)
    requires RunFromStart(sc, states, turns) && n <= |turns|
  {
    forall e :: TaskGivenFor(sc, states, turns, n, i, e) <= MAX_PIECES
  }

  /** The ledger of task `i` can be loaded again after `n` turns iff no entry of it was given more than a hundred
      pieces of evidence in that task's turns among them; and once it cannot, it never can. */
  lemma LoadsAgainIff(sc: Scenario, states: seq<LifeState>, turns: seq<Turn>, n: nat, i: nat)
    requires sc.Valid() && RunFromStart(sc, states, turns) && n <= |turns| && i < |sc.stages|
    ensures Placed(sc, states[n])
    ensures Loadable(LedgerOf(sc, states[n], sc.stages[i])) <==> FewGivenIn(sc, states, turns, n, i)
    ensures n > 0 && Placed(sc, states[n - 1]) && Loadable(LedgerOf(sc, states[n], sc.stages[i])) ==>
              Loadable(LedgerOf(sc, states[n - 1], sc.stages[i]))
  {
    hide Scenario.Valid, Placed, Initial, NextState, LedgerOf, Pieces, SemanticsAt;
    TaskPieces(sc, states, turns, n, i, OfFact(""));
    var st := sc.stages[i];
    if Loadable(LedgerOf(sc, states[n], st)) {
      forall e ensures TaskGivenFor(sc, states, turns, n, i, e) <= MAX_PIECES {
        TaskPieces(sc, states, turns, n, i, e);
        assert Pieces(LedgerOf(sc, states[n], st), e) <= MAX_PIECES;
      }
      if n > 0 && Placed(sc, states[n - 1]) {
        var before := LedgerOf(sc, states[n - 1], st);
        forall e ensures Pieces(before, e) <= MAX_PIECES {
          TaskPieces(sc, states, turns, n - 1, i, e);
          TaskGivenGrows(sc, states, turns, n - 1, i, e);
        }
      }
    }
    if FewGivenIn(sc, states, turns, n, i) {
      forall e ensures Pieces(LedgerOf(sc, states[n], st), e) <= MAX_PIECES {
        TaskPieces(sc, states, turns, n, i, e);
        assert TaskGivenFor(sc, states, turns, n, i, e) <= MAX_PIECES;
      }
    }
  }
}
