/** Choices in a life task: which plan a pick is taken from, and how far correct picks lead. Unlike the home packs', the
    plan ids of a life task may repeat. */
module LifePicks {
  import opened Common
  import opened Content
  import opened Ledgers
  import opened LedgerOperations
  import opened Ladders
  import opened Questions
  import opened Turns
  import opened WritableValues
  import opened LifeContent
  import opened LifeEngine
  import opened LifeTurns
  import opened LifeRuns
  import opened LifeWrites
  import opened LifeCredit
  import opened LifeProgress
  import opened LifeScripts
  import HomeRuns

  /** The picks at L2 are taken from the plan on screen. */
  ghost predicate PicksShown(pack: TaskPack, l: Ledger)
    requires forall p | p in pack.l3Plans :: |p.targets| == 1
  {
    ShownPlan(pack, l).Some? && ShownPlan(pack, l).value in pack.l2Plans
    && PickedPlan(pack, ShownPlan(pack, l).value) == ShownPlan(pack, l).value
  }

  lemma LiveShows(sc: Scenario, s: LifeState)
    requires sc.Valid() && Asking(sc) && Live(sc, s) && s.ladder.expression == L2
    ensures ShownPlan(Current(sc, s), CurrentLedger(sc, s)).Some?
    ensures ShownPlan(Current(sc, s), CurrentLedger(sc, s)).value in Current(sc, s).l2Plans
  {
    hide Scenario.Valid, Asking, Placed, Reached, Inv, AllWritten, Current, CurrentLedger, LifeValid, Askable, Asked,
         Usable, Complete;
    LivePack(sc, s);
    AskedPlan(Current(sc, s), s.ladder, s.subgoal, CurrentLedger(sc, s));
    ShownIsPlan(Current(sc, s), CurrentLedger(sc, s));
  }

  lemma UniqueIdsPick(pack: TaskPack, q: L2Plan)
    requires pack.UniquePlanIds() && q in pack.l2Plans
    ensures PickedPlan(pack, q) == q
  {
    var p := PickedPlan(pack, q);
    assert p in pack.l2Plans && p.planId == q.planId;
  }

  lemma {:induction false} FirstWithId(plans: seq<L2Plan>, i: nat, j: nat)
    requires i < j < |plans| && plans[i].planId == plans[j].planId
    ensures FirstL2ById(plans, plans[j].planId).Some?
    ensures exists k: nat :: k <= i && FirstL2ById(plans, plans[j].planId) == Some(plans[k])
  {
    if plans[0].planId != plans[j].planId {
      FirstWithId(plans[1..], i - 1, j - 1);
      var k: nat :| k <= i - 1 && FirstL2ById(plans[1..], plans[j].planId) == Some(plans[1..][k]);
      assert plans[1..][k] == plans[k + 1];
    }
  }

  /** A plan whose id an earlier plan has is never the one picked from. */
  lemma RepeatedIdMisses(pack: TaskPack, i: nat, j: nat)
    requires pack.ValidQuestions() && i < j < |pack.l2Plans| && pack.l2Plans[i].planId == pack.l2Plans[j].planId
    ensures PickedPlan(pack, pack.l2Plans[j]) != pack.l2Plans[j]
  {
    FirstWithId(pack.l2Plans, i, j);
  }

  /** The picks of every conversation in a task are taken from the plan on screen iff its plan ids do not repeat. */
  lemma PicksShownIff(sc: Scenario, s: LifeState)
    requires sc.Valid() && Asking(sc) && Fresh(sc, s)
    ensures (forall n | Stays(sc, s, n) && n.ladder.expression == L2 ::
            PicksShown(Current(sc, n), CurrentLedger(sc, n)))
            <==> Current(sc, s).UniquePlanIds()
  {
    hide Scenario.Valid, Asking, Placed, Reached, Current, CurrentLedger, LifeValid, Askable, Asked, Usable, Complete,
         Inv, AllWritten, SamePast, ShownPlan, PickedPlan, AskedBefore, TaskPack.UniquePlanIds;
    LivePack(sc, s);
    var pack := Current(sc, s);
    if pack.UniquePlanIds() {
      forall n | Stays(sc, s, n) && n.ladder.expression == L2 ensures PicksShown(Current(sc, n), CurrentLedger(sc, n)) {
        StaysLive(sc, s, n);
        LiveShows(sc, n);
        UniqueIdsPick(pack, ShownPlan(pack, CurrentLedger(sc, n)).value);
      }
    } else {
      ValidParts(pack);
      hide TaskPack.ValidCompletion, TaskPack.ValidQuestions, TaskPack.ValidChoices, TaskPack.ValidJoint,
           TaskPack.ValidNotes;
      var i, j := RepeatedIds(pack);
      RepeatedIdMisses(pack, i, j);
      var q := pack.l2Plans[j];
      AskableKey(pack, q);
      var n := BringOnScreen(sc, s, q, q.target.key.id, []);
      StaysLive(sc, s, n);
      assert !PicksShown(Current(sc, n), CurrentLedger(sc, n));
    }
  }

  lemma RepeatedIds(pack: TaskPack) returns (i: nat, j: nat)
    requires !pack.UniquePlanIds()
    ensures i < j < |pack.l2Plans| && pack.l2Plans[i].planId == pack.l2Plans[j].planId
  {
    i, j :| 0 <= i < j < |pack.l2Plans| && pack.l2Plans[i].planId == pack.l2Plans[j].planId;
  }

  lemma AskableKey(pack: TaskPack, q: L2Plan)
    ensures AskedBefore(pack, q.target.key, q.target.key.id)
  {
    match q.target.key.kind
    case FactTarget => assert q.target.key == TargetKey(FactTarget, q.target.key.id);
    case RelationTarget =>
  }

  // ----- a correct pick -----

  lemma ReviewedChoice(pack: TaskPack, q: L2Plan, c: Choice)
    requires pack.ValidChoices() && q in pack.l2Plans && c in q.choices && c.effect.correct
    ensures pack.ValidEffect(q.target.key, c.effect) && FindChoice(q.choices, c.choiceId) == Some(c)
  {
    hide TaskPack.ValidEffect;
    HomeRuns.PickedChoice(q.choices, c);
  }

  lemma PickChoice(pack: TaskPack, ladder: Ladder, subgoal: string, l: Ledger, t: Turn, q: L2Plan, c: Choice)
    requires (forall p | p in pack.l3Plans :: |p.targets| == 1) && pack.ValidChoices() && Usable(pack, l)
    requires GoodTurnId(t.id)
    requires ladder.expression == L2 && ActiveL2Plan(pack, ladder, subgoal, l) == Some(q) && q in pack.l2Plans
    requires q.target.key !in Verified(l) && c in q.choices && c.effect.correct && !c.disabled
    requires t.input == Pick([c.choiceId])
    ensures var r := Interpret(pack, ladder, subgoal, l, t);
            && r.Ok? && Sound(pack, l, r.value.applied) && r.value.applied.NewCanonical()
            && Chose(l, c.effect, r.value)
            && q.target.key in Verified(r.value.applied.Ledger())
  {
    hide TaskPack.ValidChoices, TaskPack.ValidEffect, ApplyStructured, Sound, Interpret, ActiveL2Plan, FindChoice,
         WellFormed, BoundTo, PlainResponse, Verified;
    ReviewedChoice(pack, q, c);
    HomeRuns.CorrectEffectProgresses(pack, l, q.target.key, c.effect, t.id);
    HomeRuns.PickIsInterpreted(pack, ladder, subgoal, l, t, q, c);
  }

  lemma PickKeepsL2(ladder: Ladder, l: Ledger, e: Effect, sem: Semantics)
    requires ladder.expression == L2 && Chose(l, e, sem) && sem.applied.NewCanonical()
    ensures Policy(ladder, sem).expression == L2
  {}

  lemma PickedFrom(pack: TaskPack, l: Ledger, t: Turn) returns (c: Choice)
    requires (forall p | p in pack.l3Plans :: |p.targets| == 1) && HomeRuns.CorrectPick(pack, l, t)
    ensures ShownPlan(pack, l).Some? && c in ShownPlan(pack, l).value.choices && c.effect.correct && !c.disabled
    ensures t.input == Pick([c.choiceId]) && GoodTurnId(t.id)
  {
    hide ShownPlan;
    c :| c in ShownPlan(pack, l).value.choices && c.effect.correct && !c.disabled && c.choiceId == t.input.choiceIds[0];
    assert t.input.choiceIds == [c.choiceId];
  }

  /** How a correct pick from the screen is read. */
  lemma CorrectPickIsInterpreted(sc: Scenario, s: LifeState, t: Turn) returns (c: Choice)
    requires sc.Valid() && Asking(sc) && Live(sc, s) && s.ladder.expression == L2
    requires PicksShown(Current(sc, s), CurrentLedger(sc, s))
    requires HomeRuns.CorrectPick(Current(sc, s), CurrentLedger(sc, s), t)
    ensures c in ShownPlan(Current(sc, s), CurrentLedger(sc, s)).value.choices && t.input == Pick([c.choiceId])
    ensures c.effect.correct && !c.disabled && |c.effect.facts| <= 8 && |c.effect.relations| <= 8
    ensures InterpretLife(sc, s, t).Ok?
    ensures var sem := InterpretLife(sc, s, t).value;
            && Sound(Current(sc, s), CurrentLedger(sc, s), sem.applied) && sem.applied.NewCanonical()
            && Chose(CurrentLedger(sc, s), c.effect, sem)
            && Remaining(Current(sc, s), sem.applied.Ledger()) < Remaining(Current(sc, s), CurrentLedger(sc, s))
  {
    hide Scenario.Valid, Asking, Placed, Reached, Current, CurrentLedger, LifeValid, Askable, Asked, Usable, Complete,
         Inv, AllWritten, ShownPlan, Interpret, HomeRuns.CorrectPick, PlainResponse, Sound, Remaining, Chose, LadderOk;
    LivePack(sc, s);
    var pack, l := Current(sc, s), CurrentLedger(sc, s);
    ValidParts(pack);
    hide TaskPack.ValidCompletion, TaskPack.ValidQuestions, TaskPack.ValidChoices, TaskPack.ValidJoint,
         TaskPack.ValidNotes;
    c := PickedFrom(pack, l, t);
    AskedPlan(pack, s.ladder, s.subgoal, l);
    var q := ShownPlan(pack, l).value;
    ShownIsOpen(pack, l);
    PickChoice(pack, s.ladder, s.subgoal, l, t, q, c);
    FewerRemain(pack, l, InterpretLife(sc, s, t).value.applied, q.target.key);
  }

  lemma ShownIsOpen(pack: TaskPack, l: Ledger)
    requires pack.ValidQuestions() && ShownPlan(pack, l).Some?
    ensures ShownPlan(pack, l).value.target.key in Remaining(pack, l)
    ensures ShownPlan(pack, l).value.target.key !in Verified(l)
  {
    ShownKey(pack, l);
  }

  lemma FewerRemain(pack: TaskPack, l: Ledger, a: Applied, k: Key)
    requires Sound(pack, l, a) && k in Remaining(pack, l) && k in Verified(a.Ledger())
    ensures Remaining(pack, a.Ledger()) < Remaining(pack, l)
  {
    hide WellFormed, BoundTo, CompletionOf, ExactDelta, TaskPack.Required;
    ExtendsVerified(a.Ledger(), l);
    assert k !in Remaining(pack, a.Ledger());
  }

  /** A choice can be answered: it shows no new method, or the labels of the facts then known are plain. */
  predicate ChoiceIsAnswered(pack: TaskPack, l: Ledger, e: Effect) {
    || (forall r | r in e.relations :: r in l.relations)
    || (PlainLabels(pack, l) && forall u | u in e.facts && u.0 in pack.facts :: pack.facts[u.0].plainLabel)
  }

  /** What a correct choice reports. */
  lemma ChoiceReports(pack: TaskPack, l: Ledger, e: Effect, sem: Semantics)
    requires Chose(l, e, sem) && Sound(pack, l, sem.applied) && sem.applied.NewCanonical()
    requires |e.facts| <= 8 && |e.relations| <= 8
    ensures |sem.applied.progress.newFacts| <= MAX_SIGNAL_IDS && |sem.applied.progress.newRelations| <= MAX_SIGNAL_IDS
    ensures AnswerOnly(sem) <==> forall r | r in e.relations :: r in l.relations
  {
    hide WellFormed, BoundTo, CompletionOf, Extends;
    var p := sem.applied.progress;
    FewFacts(e.facts);
    FewElements(e.relations);
    UniqueCardinality(p.newFacts);
    UniqueCardinality(p.newRelations);
    SubsetCardinality(Elements(p.newFacts), set u | u in e.facts :: u.0);
    SubsetCardinality(Elements(p.newRelations), Elements(e.relations));
    EmptyIff(p.newRelations);
    assert forall r :: r in p.newRelations <==> r in Elements(p.newRelations);
    assert forall r :: r in e.relations <==> r in Elements(e.relations);
  }

  lemma FewFacts(values: seq<(string, Value)>)
    ensures |set u | u in values :: u.0| <= |values|
  {
    var ids := seq(|values|, i requires 0 <= i < |values| => values[i].0);
    FewElements(ids);
    forall u | u in values ensures u.0 in Elements(ids) {
      var i :| 0 <= i < |values| && values[i] == u;
      assert ids[i] == u.0;
    }
    SubsetCardinality(set u | u in values :: u.0, Elements(ids));
  }

  /** The choice's effect, and no more, went into the ledger. */
  ghost predicate Chose(l: Ledger, e: Effect, sem: Semantics) {
    && sem.applied.Ledger().facts.Keys == l.facts.Keys + (set u | u in e.facts :: u.0)
    && sem.applied.Ledger().relations.Keys == l.relations.Keys + Elements(e.relations)
    && sem.applied.progress.newPartials == []
    && sem.response == PlainResponse(LearningResponse, NoSupport, true) && sem.source == StructuredChoice
    && sem.route == MainRoute && !sem.initialHelp
  }

  lemma ChoiceLabels(pack: TaskPack, l: Ledger, e: Effect, sem: Semantics)
    requires Chose(l, e, sem)
    ensures LabelsFit(pack, sem) <==>
            PlainLabels(pack, l) && forall u | u in e.facts && u.0 in pack.facts :: pack.facts[u.0].plainLabel
  {
    hide PlainResponse;
    forall f ensures f in sem.applied.Ledger().facts <==> f in l.facts || exists u | u in e.facts :: u.0 == f {
      assert f in sem.applied.Ledger().facts.Keys <==> f in l.facts.Keys + (set u | u in e.facts :: u.0);
    }
  }

  /** A correct choice of at most eight facts and relations is answered in just those cases. */
  lemma ChoiceIsAnsweredIff(pack: TaskPack, ladder: Ladder, l: Ledger, e: Effect, sem: Semantics)
    requires Chose(l, e, sem) && Sound(pack, l, sem.applied) && sem.applied.NewCanonical()
    requires |e.facts| <= 8 && |e.relations| <= 8
    ensures Proper(ladder, sem)
    ensures !CannotAnswer(pack, ladder, sem) <==> ChoiceIsAnswered(pack, l, e)
  {
    hide Sound, FitsSpeaker, LabelsFit, PlainLabels, CannotAnswer, Proper, AnswerOnly, Policy, PlainResponse;
    ChoiceReports(pack, l, e, sem);
    ChoiceLabels(pack, l, e, sem);
    PickSpeaks(pack, ladder, sem);
    assert Guarding(sem) == [];
    NoClaimsFit(pack, Policy(ladder, sem), sem);
  }

  /** A correct pick from the screen always verifies its target, whatever choice of the plan it is. When something is
      still missing it succeeds exactly if it can be answered, and leaves the task at L2. */
  lemma CorrectPickAdvances(sc: Scenario, s: LifeState, t: Turn) returns (c: Choice)
    requires sc.Valid() && Asking(sc) && Live(sc, s) && s.ladder.expression == L2
    requires PicksShown(Current(sc, s), CurrentLedger(sc, s))
    requires HomeRuns.CorrectPick(Current(sc, s), CurrentLedger(sc, s), t)
    ensures c in ShownPlan(Current(sc, s), CurrentLedger(sc, s)).value.choices && t.input == Pick([c.choiceId])
    ensures c.effect.correct && !c.disabled && InterpretLife(sc, s, t).Ok?
    ensures Remaining(Current(sc, s), InterpretLife(sc, s, t).value.applied.Ledger()) < Remaining(Current(sc, s),
            CurrentLedger(sc, s))
    ensures !Done(InterpretLife(sc, s, t).value) ==>
              (NextState(sc, s, t).Ok? <==> ChoiceIsAnswered(Current(sc, s), CurrentLedger(sc, s), c.effect))
    ensures !Done(InterpretLife(sc, s, t).value) && NextState(sc, s, t).Ok? ==>
              && NextState(sc, s, t).value.ladder.expression == L2
              && Stays(sc, s, NextState(sc, s, t).value)
              && CurrentLedger(sc, NextState(sc, s, t).value) == InterpretLife(sc, s, t).value.applied.Ledger()
  {
    hide Scenario.Valid, Asking, Placed, Reached, Current, CurrentLedger, Interpret, Done, Proper, CannotAnswer,
         Policy, PicksShown, HomeRuns.CorrectPick, PlainResponse, Sound, Remaining, Stays, Conclude, LifeValid,
         Askable, Asked, Usable, Complete, Inv, AllWritten, ShownPlan, ChoiceIsAnswered, LadderOk, Chose;
    c := CorrectPickIsInterpreted(sc, s, t);
    var sem := InterpretLife(sc, s, t).value;
    LivePack(sc, s);
    ChoiceIsAnsweredIff(Current(sc, s), s.ladder, CurrentLedger(sc, s), c.effect, sem);
    if !Done(sem) {
      OpenTurnSucceeds(sc, s, sem);
      if NextState(sc, s, t).Ok? {
        PickKeepsL2(s.ladder, CurrentLedger(sc, s), c.effect, sem);
        var _ := OpenStep(sc, s, t);
      }
    }
  }

  /** An option of the screen is refused when the plan picked from does not have it, though it be the correct one. */
  lemma MissingOptionIsRefused(sc: Scenario, s: LifeState, t: Turn)
    requires sc.Valid() && Asking(sc) && Live(sc, s) && s.ladder.expression == L2
    requires HomeRuns.CorrectPick(Current(sc, s), CurrentLedger(sc, s), t)
    requires ShownPlan(Current(sc, s), CurrentLedger(sc, s)).value in Current(sc, s).l2Plans
    requires FindChoice(PickedPlan(Current(sc, s), ShownPlan(Current(sc, s), CurrentLedger(sc, s)).value).choices,
             t.input.choiceIds[0]).None?
    ensures NextState(sc, s, t) == Err(TurnFailed(UnknownChoice))
  {
    hide Scenario.Valid, Asking, Placed, Reached, Current, CurrentLedger, LifeValid, Askable, Asked, Usable, Complete,
         Inv, AllWritten, ShownPlan, FindChoice, ActiveL2Plan, PickedPlan, Conclude;
    LivePack(sc, s);
    AskedPlan(Current(sc, s), s.ladder, s.subgoal, CurrentLedger(sc, s));
  }

  /** Such a refusal is met in every task where an earlier plan has the id and not the option. */
  lemma RepeatedIdRefuses(sc: Scenario, s: LifeState, q: L2Plan, c: Choice) returns (n: LifeState, t: Turn)
    requires sc.Valid() && Asking(sc) && Fresh(sc, s) && q in Current(sc, s).l2Plans
    requires c in q.choices && c.effect.correct && !c.disabled
    requires FindChoice(PickedPlan(Current(sc, s), q).choices, c.choiceId).None?
    ensures Stays(sc, s, n) && Placed(sc, n) && HomeRuns.CorrectPick(Current(sc, n), CurrentLedger(sc, n), t)
    ensures NextState(sc, n, t) == Err(TurnFailed(UnknownChoice))
  {
    hide Scenario.Valid, Asking, Placed, Reached, Current, CurrentLedger, SamePast, ShownPlan, PickedPlan, AskedBefore,
         FindChoice, NextState;
    AskableKey(Current(sc, s), q);
    n := BringOnScreen(sc, s, q, q.target.key.id, []);
    t := Turn.Turn("t", Pick([c.choiceId]));
    MissingOptionIsRefused(sc, n, t);
  }

  // ----- whole tasks -----

  lemma PrefixReached(sc: Scenario, states: seq<LifeState>, turns: seq<Turn>, n: nat)
    requires RunFromStart(sc, states, turns) && n < |states|
    ensures Reached(sc, states[n])
  {
    hide Placed, NextState, Initial;
    var front, some := states[..n + 1], turns[..n];
    assert Run(sc, front, some) by {
      forall i | 0 <= i < |front| ensures Placed(sc, front[i]) { assert front[i] == states[i]; }
      forall i | 0 <= i < |some|
        ensures !front[i].completed
        ensures NextState(sc, front[i], some[i]) == Ok(front[i + 1])
      {
        assert front[i] == states[i] && front[i + 1] == states[i + 1] && some[i] == turns[i];
      }
    }
    assert RunFromStart(sc, front, some) && front[|some|] == states[n];
  }

  /** The task is still open at L2, with at least `n` targets fewer than `k`. */
  ghost predicate OpenAtL2(sc: Scenario, s: LifeState, pack: TaskPack, i: nat, n: nat, k: nat) {
    && Live(sc, s) && s.index == i && s.ladder.expression == L2 && Current(sc, s) == pack
    && |Remaining(pack, CurrentLedger(sc, s))| + n <= k
  }

  /** The task is behind. */
  predicate Over(s: LifeState, i: nat) { s.index > i || s.completed }

  lemma PickLeads(sc: Scenario, s: LifeState, t: Turn, pack: TaskPack, n: nat, k: nat)
    requires sc.Valid() && Asking(sc) && pack.UniquePlanIds() && OpenAtL2(sc, s, pack, s.index, n, k)
    requires HomeRuns.CorrectPick(Current(sc, s), CurrentLedger(sc, s), t) && NextState(sc, s, t).Ok?
    ensures Over(NextState(sc, s, t).value, s.index) || OpenAtL2(sc, NextState(sc, s, t).value, pack, s.index, n + 1, k)
  {
    hide Scenario.Valid, Asking, Placed, Reached, Current, CurrentLedger, Interpret, Done, HomeRuns.CorrectPick,
         Remaining, Conclude, TaskPack.UniquePlanIds, ShownPlan, PickedPlan, Inv, AllWritten, NextState;
    LiveShows(sc, s);
    UniqueIdsPick(pack, ShownPlan(pack, CurrentLedger(sc, s)).value);
    var _ := CorrectPickAdvances(sc, s, t);
    var sem := InterpretLife(sc, s, t).value;
    SubsetCardinality(Remaining(pack, sem.applied.Ledger()), Remaining(pack, CurrentLedger(sc, s)));
    if Done(sem) {
      ReachedIsGood(sc, s);
      TurnMoves(sc, s, t);
    } else {
      StaysLive(sc, s, NextState(sc, s, t).value);
    }
  }

  lemma {:induction false} CorrectPicksAdvance(sc: Scenario, states: seq<LifeState>, turns: seq<Turn>, p: nat, n: nat)
    requires sc.Valid() && Asking(sc) && RunFromStart(sc, states, turns) && p <= n <= |turns|
    requires Placed(sc, states[p]) && !states[p].completed && states[p].ladder.expression == L2
    requires Current(sc, states[p]).UniquePlanIds()
    requires forall j: nat {:trigger turns[j]} | p <= j < n && states[j].index == states[p].index ::
               Placed(sc, states[j]) && HomeRuns.CorrectPick(Current(sc, states[j]), CurrentLedger(sc, states[j]),
                 turns[j])
    ensures || Over(states[n], states[p].index)
            || OpenAtL2(sc, states[n], Current(sc, states[p]), states[p].index, n - p,
                        |Remaining(Current(sc, states[p]), CurrentLedger(sc, states[p]))|)
    decreases n - p
  {
    hide Scenario.Valid, Asking, Placed, Reached, Current, CurrentLedger, HomeRuns.CorrectPick, Remaining,
         TaskPack.UniquePlanIds, Inv, AllWritten, NextState, Initial, OthersSame;
    if n == p {
      PrefixReached(sc, states, turns, p);
    } else {
      CorrectPicksAdvance(sc, states, turns, p, n - 1);
      At(sc, states, turns, n - 1);
      var s, t := states[n - 1], turns[n - 1];
      if s.index > states[p].index {
        TurnMoves(sc, s, t);
      } else {
        PickLeads(sc, s, t, Current(sc, states[p]), n - 1 - p,
          |Remaining(Current(sc, states[p]), CurrentLedger(sc, states[p]))|);
      }
    }
  }

  /** At L2 with `k` targets missing in a task whose plan ids do not repeat, `k` correct picks finish the task. */
  lemma CorrectChoicesComplete(sc: Scenario, states: seq<LifeState>, turns: seq<Turn>, p: nat, n: nat)
    requires sc.Valid() && Asking(sc) && RunFromStart(sc, states, turns) && p <= n <= |turns|
    requires Placed(sc, states[p]) && !states[p].completed && states[p].ladder.expression == L2
    requires Current(sc, states[p]).UniquePlanIds()
    requires forall j: nat {:trigger turns[j]} | p <= j < n && states[j].index == states[p].index ::
               Placed(sc, states[j]) && HomeRuns.CorrectPick(Current(sc, states[j]), CurrentLedger(sc, states[j]),
                 turns[j])
    requires n - p >= |Remaining(Current(sc, states[p]), CurrentLedger(sc, states[p]))|
    ensures states[n].index > states[p].index || states[n].completed
  {
    hide Scenario.Valid, Asking, Placed, Reached, Current, CurrentLedger, HomeRuns.CorrectPick, Remaining,
         TaskPack.UniquePlanIds, Inv, AllWritten, NextState, Initial, LifeValid, Askable, Asked, Usable, Complete;
    CorrectPicksAdvance(sc, states, turns, p, n);
    if !Over(states[n], states[p].index) {
      LivePack(sc, states[n]);
      IncompleteRemains(Current(sc, states[n]), CurrentLedger(sc, states[n]));
    }
  }
}
